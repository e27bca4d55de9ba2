/**
 * What the deployment-plan executor guarantees: plan order, abort-on-failure
 * with the partial table kept, growth of the table, first-match artifact
 * lookup, well-ordered plans never passing undefined, and the summary.
 */
module DeployProperties {
  import opened Wrappers
  import opened Js
  import opened Artifacts
  import opened DeployExecutor

  /** The names of the contracts deployed by the requests `sent`, in order. */
  function DeployedNames(sent: seq<Request>): seq<string>
    decreases |sent|
  {
    if sent == [] then []
    else DeployedNames(sent[..|sent| - 1]) + (if sent[|sent| - 1].DeployTx? then [sent[|sent| - 1].contract] else [])
  }

  /** The plan's item names, in order. */
  function Names(plan: seq<PlanItem>): seq<string> {
    seq(|plan|, i requires 0 <= i < |plan| => plan[i].name)
  }

  /** The symbols `$<name>` the plan records, in order. */
  function Symbols(plan: seq<PlanItem>): seq<string> {
    seq(|plan|, i requires 0 <= i < |plan| => "$" + plan[i].name)
  }

  lemma DeployedNamesAppend(sent: seq<Request>, r: Request)
    ensures DeployedNames(sent + [r]) == DeployedNames(sent) + (if r.DeployTx? then [r.contract] else [])
  {
    assert (sent + [r])[..|sent + [r]| - 1] == sent;
  }

  // ---------------------------------------------------------------- steps

  /** A deployment step either fails without touching the ledger, or sends exactly one deployment of the item. */
  lemma DeployStepShape(item: PlanItem, out: Output, p: Progress, ledger: nat -> Receipt)
    requires p.failure.None?
    ensures var r := DeployStep(item, out, p, ledger);
      && (ResolveArtifact(out, item.name).Err? ==> r == p.(failure := Some(ResolveArtifact(out, item.name).error)))
      && (ResolveArtifact(out, item.name).Ok? ==>
            && r.sent == p.sent + [DeployTx(item.name, "0x" + ResolveArtifact(out, item.name).value.bytecode,
                                            SubstituteAll(p.table, item.ctor))]
            && (r.failure.None? <==> ledger(|p.sent|).Confirmed?)
            && (r.failure.None? ==> r.table == p.table.Set("$" + item.name, Str(ledger(|p.sent|).address.GetOr(""))))
            && (r.failure.Some? ==> r.table == p.table))
  {
  }

  /** Wiring reads the table and never writes it; it only appends call requests. */
  lemma {:induction false} WiringKeepsTable(ws: seq<WireAction>, out: Output, p: Progress, ledger: nat -> Receipt)
    ensures var r := WireAll(ws, out, p, ledger);
      r.table == p.table && p.sent <= r.sent && DeployedNames(r.sent) == DeployedNames(p.sent)
      && (p.failure.Some? ==> r == p)
    decreases |ws|
  {
    if ws != [] && p.failure.None? {
      var q := WireStep(ws[0], out, p, ledger);
      WireStepShape(ws[0], out, p, ledger);
      WiringKeepsTable(ws[1..], out, q, ledger);
    }
  }

  /** One wiring step keeps the table and appends at most one call, which deploys nothing. */
  lemma WireStepShape(w: WireAction, out: Output, p: Progress, ledger: nat -> Receipt)
    ensures var q := WireStep(w, out, p, ledger);
      q.table == p.table && p.sent <= q.sent && DeployedNames(q.sent) == DeployedNames(p.sent)
  {
    var q := WireStep(w, out, p, ledger);
    if q.sent != p.sent {
      var req := q.sent[|q.sent| - 1];
      assert q.sent == p.sent + [req] && req.CallTx?;
      DeployedNamesAppend(p.sent, req);
    }
  }

  /**
   * What one wiring entry sends. When the target's artifact resolves and `fn`
   * is one of its methods, exactly one call goes out: to the address the table
   * holds for the target, naming that method, with the substituted arguments;
   * the step succeeds exactly when the ledger confirms it. Otherwise the step
   * fails before any ledger request, with the lookup failure, the non-string
   * method name or the missing method, in that order of checks.
   */
  lemma WireStepSends(w: WireAction, out: Output, p: Progress, ledger: nat -> Receipt)
    requires p.failure.None?
    ensures var q := WireStep(w, out, p, ledger);
      var found := ResolveArtifact(out, w.target);
      && q.table == p.table
      && (found.Err? ==> q == p.(failure := Some(found.error)))
      && (found.Ok? && !w.fn.Str? ==> q == p.(failure := Some(MethodNotString(w.fn))))
      && (found.Ok? && w.fn.Str? && w.fn.s !in Methods(found.value.abi) ==>
            q == p.(failure := Some(NoSuchMethod(w.target, w.fn.s))))
      && (found.Ok? && w.fn.Str? && w.fn.s in Methods(found.value.abi) ==>
            && q.sent == p.sent + [CallTx(w.target, p.table.Get("$" + w.target), w.fn.s, WireCallArgs(p.table, w.args))]
            && (q.failure.None? <==> ledger(|p.sent|).Confirmed?)
            && (ledger(|p.sent|).Rejected? ==> q.failure == Some(LedgerError(ledger(|p.sent|).reason))))
  {
  }

  /** An item with one wiring entry whose target and method resolve: a deployment, then that one call. */
  lemma RunItemWithOneCall(item: PlanItem, out: Output, p: Progress, ledger: nat -> Receipt)
    requires p.failure.None? && |item.after| == 1
    requires ResolveArtifact(out, item.name).Ok? && ResolveArtifact(out, item.after[0].target).Ok?
    requires item.after[0].fn.Str? && item.after[0].fn.s in Methods(ResolveArtifact(out, item.after[0].target).value.abi)
    requires ledger(|p.sent|).Confirmed?
    ensures var t := p.table.Set("$" + item.name, Str(ledger(|p.sent|).address.GetOr("")));
      var w := item.after[0];
      var q := RunItem(item, out, p, ledger);
      && q.sent == p.sent + [DeployTx(item.name, "0x" + ResolveArtifact(out, item.name).value.bytecode,
                                      SubstituteAll(p.table, item.ctor)),
                             CallTx(w.target, t.Get("$" + w.target), w.fn.s, WireCallArgs(t, w.args))]
      && (q.failure.None? <==> ledger(|p.sent| + 1).Confirmed?)
  {
    DeployStepShape(item, out, p, ledger);
    var d := DeployStep(item, out, p, ledger);
    assert d.failure.None? && |d.sent| == |p.sent| + 1;
    WireStepSends(item.after[0], out, d, ledger);
    var q := WireStep(item.after[0], out, d, ledger);
    assert item.after[1..] == [] && WireAll([], out, q, ledger) == q;
    assert RunItem(item, out, p, ledger) == WireAll(item.after, out, d, ledger) == q;
  }

  /**
   * An item with two placeholder constructor arguments whose one wiring entry
   * calls a method of the contract just deployed with one placeholder: the
   * call goes to the address just recorded, with the other symbol's value.
   */
  lemma DeployThenCallSelf(name: string, x: string, y: string, fnName: string, z: string,
                           out: Output, p: Progress, ledger: nat -> Receipt)
    requires p.failure.None?
    requires StartsWith(x, "$") && StartsWith(y, "$") && StartsWith(z, "$") && z != "$" + name
    ensures var item := PlanItem(name, [Str(x), Str(y)], [WireAction(name, Str(fnName), ArgList([Str(z)]))]);
      var q := RunItem(item, out, p, ledger);
      var found := ResolveArtifact(out, name);
      found.Ok? && fnName in Methods(found.value.abi) && ledger(|p.sent|).Confirmed? ==>
        && q.sent == p.sent + [DeployTx(name, "0x" + found.value.bytecode, [p.table.Get(x), p.table.Get(y)]),
                               CallTx(name, Str(ledger(|p.sent|).address.GetOr("")), fnName, [p.table.Get(z)])]
        && (q.failure.None? <==> ledger(|p.sent| + 1).Confirmed?)
  {
    var item := PlanItem(name, [Str(x), Str(y)], [WireAction(name, Str(fnName), ArgList([Str(z)]))]);
    var found := ResolveArtifact(out, name);
    if found.Ok? && fnName in Methods(found.value.abi) && ledger(|p.sent|).Confirmed? {
      RunItemWithOneCall(item, out, p, ledger);
      var t := p.table.Set("$" + name, Str(ledger(|p.sent|).address.GetOr("")));
      assert IsPlaceholder(Str(x)) && IsPlaceholder(Str(y)) && IsPlaceholder(Str(z));
      assert SubstituteAll(p.table, [Str(x), Str(y)]) == [p.table.Get(x), p.table.Get(y)];
      assert WireCallArgs(t, ArgList([Str(z)])) == [t.Get(z)] == [p.table.Get(z)];
    }
  }

  /** Once a wiring entry fails, the later entries of the same item never run. */
  lemma {:induction false} WiringAbortIsFinal(ws: seq<WireAction>, rest: seq<WireAction>, out: Output, p: Progress, ledger: nat -> Receipt)
    requires WireAll(ws, out, p, ledger).failure.Some?
    ensures WireAll(ws + rest, out, p, ledger) == WireAll(ws, out, p, ledger)
    decreases |ws|
  {
    if p.failure.Some? {
    } else if ws == [] {
    } else {
      assert (ws + rest)[1..] == ws[1..] + rest;
      WiringAbortIsFinal(ws[1..], rest, out, WireStep(ws[0], out, p, ledger), ledger);
    }
  }

  /**
   * A completed item has recorded `$<name>` as the address the ledger returned
   * for its deployment (or "" when none came back), and nothing else in the table changed.
   */
  lemma RunItemRecordsAddress(item: PlanItem, out: Output, p: Progress, ledger: nat -> Receipt)
    requires p.failure.None?
    requires RunItem(item, out, p, ledger).failure.None?
    ensures ResolveArtifact(out, item.name).Ok? && ledger(|p.sent|).Confirmed?
    ensures RunItem(item, out, p, ledger).table == p.table.Set("$" + item.name, Str(ledger(|p.sent|).address.GetOr("")))
    ensures RunItem(item, out, p, ledger).table.Get("$" + item.name) == Str(ledger(|p.sent|).address.GetOr(""))
  {
    var d := DeployStep(item, out, p, ledger);
    WiringKeepsTable(item.after, out, d, ledger);
    DeployStepShape(item, out, p, ledger);
  }

  // ---------------------------------------------------------------- runs

  /** Running `a + b` is running `a`, then `b` from where `a` stopped. */
  lemma {:induction false} RunPlanAppend(a: seq<PlanItem>, b: seq<PlanItem>, out: Output, p: Progress, ledger: nat -> Receipt)
    ensures RunPlan(a + b, out, p, ledger) == RunPlan(b, out, RunPlan(a, out, p, ledger), ledger)
    decreases |a|
  {
    if a == [] {
      assert a + b == b;
    } else if p.failure.Some? {
      if b != [] {
        assert (a + b)[1..] == a[1..] + b;
      }
    } else {
      assert (a + b)[1..] == a[1..] + b;
      RunPlanAppend(a[1..], b, out, RunItem(a[0], out, p, ledger), ledger);
    }
  }

  /** A failure is final: no item after the failing one runs, and nothing is undone. */
  lemma AbortIsFinal(a: seq<PlanItem>, b: seq<PlanItem>, out: Output, p: Progress, ledger: nat -> Receipt)
    requires RunPlan(a, out, p, ledger).failure.Some?
    ensures RunPlan(a + b, out, p, ledger) == RunPlan(a, out, p, ledger)
  {
    RunPlanAppend(a, b, out, p, ledger);
  }

  /**
   * If the artifact lookup of item k fails (and items before it succeeded),
   * the run stops there with the requests and table of the first k items:
   * nothing of item k or later reaches the ledger.
   */
  lemma LookupFailureStopsBeforeLedger(plan: seq<PlanItem>, k: nat, out: Output, p: Progress, ledger: nat -> Receipt)
    requires p.failure.None?
    requires k < |plan|
    requires RunPlan(plan[..k], out, p, ledger).failure.None?
    requires ResolveArtifact(out, plan[k].name).Err?
    ensures RunPlan(plan, out, p, ledger) ==
            RunPlan(plan[..k], out, p, ledger).(failure := Some(ResolveArtifact(out, plan[k].name).error))
  {
    assert plan == plan[..k] + plan[k..];
    RunPlanAppend(plan[..k], plan[k..], out, p, ledger);
    var q := RunPlan(plan[..k], out, p, ledger);
    var d := DeployStep(plan[k], out, q, ledger);
    assert d == q.(failure := Some(ResolveArtifact(out, plan[k].name).error));
    WiringKeepsTable(plan[k].after, out, d, ledger);
  }

  /**
   * The table only grows: its key order extends the old one, no binding is
   * removed, keys other than the plan's symbols keep their values, and the
   * requests sent only grow.
   */
  lemma {:induction false} RunPlanGrowsTable(plan: seq<PlanItem>, out: Output, p: Progress, ledger: nat -> Receipt)
    ensures var r := RunPlan(plan, out, p, ledger);
      && p.table.keys <= r.table.keys
      && p.table.vals.Keys <= r.table.vals.Keys
      && p.sent <= r.sent
      && (forall k :: k !in Symbols(plan) ==> r.table.Get(k) == p.table.Get(k))
      && (p.table.Valid() ==> r.table.Valid())
    decreases |plan|
  {
    if plan != [] && p.failure.None? {
      var d := DeployStep(plan[0], out, p, ledger);
      DeployStepShape(plan[0], out, p, ledger);
      WiringKeepsTable(plan[0].after, out, d, ledger);
      var q := RunItem(plan[0], out, p, ledger);
      RunPlanGrowsTable(plan[1..], out, q, ledger);
      assert forall k :: k in Symbols(plan[1..]) ==> k in Symbols(plan) by {
        forall k | k in Symbols(plan[1..]) ensures k in Symbols(plan) {
          var i :| 0 <= i < |plan[1..]| && Symbols(plan[1..])[i] == k;
          assert Symbols(plan)[i + 1] == k;
        }
      }
      assert "$" + plan[0].name == Symbols(plan)[0];
    }
  }

  /** One item sends its deployment first, and wiring adds no deployment. */
  lemma RunItemDeploysOnce(item: PlanItem, out: Output, p: Progress, ledger: nat -> Receipt)
    requires p.failure.None?
    ensures var q := RunItem(item, out, p, ledger);
      && (DeployedNames(q.sent) == DeployedNames(p.sent) || DeployedNames(q.sent) == DeployedNames(p.sent) + [item.name])
      && (q.failure.None? ==> DeployedNames(q.sent) == DeployedNames(p.sent) + [item.name])
  {
    var d := DeployStep(item, out, p, ledger);
    DeployStepShape(item, out, p, ledger);
    WiringKeepsTable(item.after, out, d, ledger);
    if d.sent != p.sent {
      DeployedNamesAppend(p.sent, d.sent[|d.sent| - 1]);
    }
  }

  /**
   * Deployments happen in plan order: the contracts deployed are always a
   * prefix of the plan's names, and all of them when the run succeeds.
   */
  lemma {:induction false} DeploysInPlanOrder(plan: seq<PlanItem>, out: Output, p: Progress, ledger: nat -> Receipt)
    requires p.failure.None?
    ensures var r := RunPlan(plan, out, p, ledger);
      && DeployedNames(p.sent) <= DeployedNames(r.sent)
      && DeployedNames(r.sent) <= DeployedNames(p.sent) + Names(plan)
      && (r.failure.None? ==> DeployedNames(r.sent) == DeployedNames(p.sent) + Names(plan))
    decreases |plan|
  {
    if plan == [] {
      assert Names(plan) == [];
    } else {
      var q := RunItem(plan[0], out, p, ledger);
      var r := RunPlan(plan, out, p, ledger);
      RunItemDeploysOnce(plan[0], out, p, ledger);
      assert Names(plan) == [plan[0].name] + Names(plan[1..]);
      if q.failure.Some? {
        assert r == RunPlan(plan[1..], out, q, ledger) == q;
        PrefixOfOneMore(DeployedNames(p.sent), DeployedNames(q.sent), plan[0].name, Names(plan[1..]));
      } else {
        DeploysInPlanOrder(plan[1..], out, q, ledger);
        PrefixThroughStep(DeployedNames(p.sent), plan[0].name, DeployedNames(r.sent), Names(plan[1..]));
      }
    }
  }

  /** A list that is `a` or `a` plus one name lies between `a` and `a` extended by that name and more. */
  lemma PrefixOfOneMore(a: seq<string>, b: seq<string>, x: string, rest: seq<string>)
    requires b == a || b == a + [x]
    ensures a <= b && b <= a + ([x] + rest)
  {
    assert a + ([x] + rest) == (a + [x]) + rest;
  }

  /** Prefix bounds carry across one step that added the name `x`. */
  lemma PrefixThroughStep(a: seq<string>, x: string, r: seq<string>, rest: seq<string>)
    requires a + [x] <= r && r <= a + [x] + rest
    ensures a <= r && r <= a + ([x] + rest)
    ensures r == a + [x] + rest ==> r == a + ([x] + rest)
  {
    assert a + ([x] + rest) == (a + [x]) + rest;
  }

  /** After a successful run every item's symbol `$<name>` is bound. */
  lemma {:induction false} SuccessBindsEverySymbol(plan: seq<PlanItem>, out: Output, p: Progress, ledger: nat -> Receipt)
    requires p.failure.None?
    requires RunPlan(plan, out, p, ledger).failure.None?
    ensures forall i :: 0 <= i < |plan| ==> "$" + plan[i].name in RunPlan(plan, out, p, ledger).table.vals
    decreases |plan|
  {
    if plan != [] {
      var q := RunItem(plan[0], out, p, ledger);
      RunItemRecordsAddress(plan[0], out, p, ledger);
      SuccessBindsEverySymbol(plan[1..], out, q, ledger);
      RunPlanGrowsTable(plan[1..], out, q, ledger);
      forall i | 0 <= i < |plan| ensures "$" + plan[i].name in RunPlan(plan, out, p, ledger).table.vals {
        if i > 0 {
          assert plan[1..][i - 1] == plan[i];
        }
      }
    }
  }

  /** A run that fails still reports the contracts already deployed: a prefix of the plan, in order. */
  lemma PartialRunIsPlanPrefix(plan: seq<PlanItem>, out: Output, seed: Table, ledger: nat -> Receipt)
    ensures var r := RunPlan(plan, out, Start(seed), ledger);
      DeployedNames(r.sent) <= Names(plan) && (r.failure.None? ==> DeployedNames(r.sent) == Names(plan))
  {
    DeploysInPlanOrder(plan, out, Start(seed), ledger);
    assert DeployedNames([]) == [];
  }

  // ---------------------------------------------------------------- well-ordered plans

  /** Every placeholder of the constructor arguments is bound among `keys`. */
  ghost predicate CtorBound(item: PlanItem, keys: set<string>) {
    forall a :: a in item.ctor && IsPlaceholder(a) ==> a.s in keys
  }

  /** The wiring target's symbol and every placeholder argument are bound among `keys`. */
  ghost predicate ActionBound(w: WireAction, keys: set<string>) {
    && "$" + w.target in keys
    && forall a :: a in ArgsOf(w.args) && IsPlaceholder(a) ==> a.s in keys
  }

  /**
   * Item i uses only symbols the seed binds or earlier items record; its wiring
   * may also use the item's own symbol, which is recorded before wiring runs.
   */
  ghost predicate WellOrdered(plan: seq<PlanItem>, known: set<string>)
    decreases |plan|
  {
    plan == [] ||
    (&& CtorBound(plan[0], known)
     && (forall w :: w in plan[0].after ==> ActionBound(w, known + {"$" + plan[0].name}))
     && WellOrdered(plan[1..], known + {"$" + plan[0].name}))
  }

  /** Well-ordering of a suffix, one item at a time. */
  lemma WellOrderedAt(plan: seq<PlanItem>, i: nat, known: set<string>)
    requires i < |plan|
    requires CtorBound(plan[i], known)
    requires forall w :: w in plan[i].after ==> ActionBound(w, known + {"$" + plan[i].name})
    requires WellOrdered(plan[i + 1..], known + {"$" + plan[i].name})
    ensures WellOrdered(plan[i..], known)
  {
    assert plan[i..][1..] == plan[i + 1..];
  }

  /** The symbols bound before item i runs: the `known` ones and those of the items before it. */
  function KnownBefore(plan: seq<PlanItem>, known: set<string>, i: nat): set<string>
    requires i <= |plan|
  {
    if i == 0 then known else KnownBefore(plan, known, i - 1) + {"$" + plan[i - 1].name}
  }

  lemma {:induction false} KnownBeforeGrows(plan: seq<PlanItem>, known: set<string>, i: nat)
    requires i <= |plan|
    ensures known <= KnownBefore(plan, known, i)
    ensures forall j :: 0 <= j < i ==> "$" + plan[j].name in KnownBefore(plan, known, i)
  {
    if i > 0 {
      KnownBeforeGrows(plan, known, i - 1);
    }
  }

  /** Well-ordering from item i on, given it from item i + 1 on. */
  lemma WellOrderedStep(plan: seq<PlanItem>, known: set<string>, i: nat)
    requires i < |plan|
    requires CtorBound(plan[i], KnownBefore(plan, known, i))
    requires forall w :: w in plan[i].after ==> ActionBound(w, KnownBefore(plan, known, i + 1))
    requires WellOrdered(plan[i + 1..], KnownBefore(plan, known, i + 1))
    ensures WellOrdered(plan[i..], KnownBefore(plan, known, i))
  {
    assert KnownBefore(plan, known, i + 1) == KnownBefore(plan, known, i) + {"$" + plan[i].name};
    WellOrderedAt(plan, i, KnownBefore(plan, known, i));
  }

  /**
   * A plan is well ordered when each item's constructor uses only symbols
   * bound before it, and its wiring only those and its own.
   */
  lemma WellOrderedByItems(plan: seq<PlanItem>, known: set<string>)
    requires forall i :: 0 <= i < |plan| ==> CtorBound(plan[i], KnownBefore(plan, known, i))
    requires forall i, w :: 0 <= i < |plan| && w in plan[i].after ==> ActionBound(w, KnownBefore(plan, known, i + 1))
    ensures WellOrdered(plan, known)
  {
    var i := |plan|;
    assert WellOrdered(plan[i..], KnownBefore(plan, known, i));
    while i > 0
      invariant 0 <= i <= |plan|
      invariant WellOrdered(plan[i..], KnownBefore(plan, known, i))
    {
      i := i - 1;
      WellOrderedStep(plan, known, i);
    }
    assert KnownBefore(plan, known, 0) == known;
    assert plan[0..] == plan;
  }

  /** No argument in the plan is literally undefined. */
  ghost predicate NoUndefinedLiterals(plan: seq<PlanItem>) {
    forall item :: item in plan ==>
      && (forall a :: a in item.ctor ==> !a.Undefined?)
      && (forall w :: w in item.after ==> forall a :: a in ArgsOf(w.args) ==> !a.Undefined?)
  }

  /** No argument in the list is literally undefined, checked element by element. */
  predicate ArgsDefined(args: seq<Json>)
    decreases |args|
  {
    args == [] || (!args[0].Undefined? && ArgsDefined(args[1..]))
  }

  /** `NoUndefinedLiterals`, checked item by item. */
  predicate PlanDefined(plan: seq<PlanItem>)
    decreases |plan|
  {
    plan == [] ||
    (&& ArgsDefined(plan[0].ctor)
     && WiringDefinedArgs(plan[0].after)
     && PlanDefined(plan[1..]))
  }

  /** No wiring argument in the list is literally undefined. */
  predicate WiringDefinedArgs(ws: seq<WireAction>)
    decreases |ws|
  {
    ws == [] || (ArgsDefined(ArgsOf(ws[0].args)) && WiringDefinedArgs(ws[1..]))
  }

  lemma {:induction false} ArgsDefinedSound(args: seq<Json>)
    requires ArgsDefined(args)
    ensures forall a :: a in args ==> !a.Undefined?
    decreases |args|
  {
    if args != [] {
      ArgsDefinedSound(args[1..]);
      assert forall a :: a in args ==> a == args[0] || a in args[1..];
    }
  }

  lemma {:induction false} WiringDefinedArgsSound(ws: seq<WireAction>)
    requires WiringDefinedArgs(ws)
    ensures forall w :: w in ws ==> forall a :: a in ArgsOf(w.args) ==> !a.Undefined?
    decreases |ws|
  {
    if ws != [] {
      ArgsDefinedSound(ArgsOf(ws[0].args));
      WiringDefinedArgsSound(ws[1..]);
      assert forall w :: w in ws ==> w == ws[0] || w in ws[1..];
    }
  }

  /** The item-by-item check establishes `NoUndefinedLiterals`. */
  lemma {:induction false} PlanDefinedSound(plan: seq<PlanItem>)
    requires PlanDefined(plan)
    ensures NoUndefinedLiterals(plan)
    decreases |plan|
  {
    if plan != [] {
      ArgsDefinedSound(plan[0].ctor);
      WiringDefinedArgsSound(plan[0].after);
      PlanDefinedSound(plan[1..]);
      assert forall item :: item in plan ==> item == plan[0] || item in plan[1..];
    }
  }

  /** Every binding of the table is a string. */
  ghost predicate BindsStrings(t: Table) {
    forall k :: k in t.vals ==> t.vals[k].Str?
  }

  /** No argument and no call target of the request is undefined. */
  ghost predicate Defined(q: Request) {
    && (forall a :: a in q.args ==> !a.Undefined?)
    && (q.CallTx? ==> !q.at.Undefined?)
  }

  lemma SubstituteDefined(t: Table, args: seq<Json>, keys: set<string>)
    requires BindsStrings(t) && keys <= t.vals.Keys
    requires forall a :: a in args ==> !a.Undefined?
    requires forall a :: a in args && IsPlaceholder(a) ==> a.s in keys
    ensures forall a :: a in SubstituteAll(t, args) ==> !a.Undefined?
  {
    var r := SubstituteAll(t, args);
    forall a | a in r ensures !a.Undefined? {
      var i :| 0 <= i < |r| && r[i] == a;
      assert args[i] in args;
    }
  }

  /** One wiring step whose target and placeholders are bound sends only defined requests. */
  lemma WireStepDefined(w: WireAction, out: Output, p: Progress, ledger: nat -> Receipt, keys: set<string>)
    requires BindsStrings(p.table) && keys <= p.table.vals.Keys
    requires ActionBound(w, keys) && forall a :: a in ArgsOf(w.args) ==> !a.Undefined?
    requires forall q :: q in p.sent ==> Defined(q)
    ensures WireStep(w, out, p, ledger).table == p.table
    ensures forall q :: q in WireStep(w, out, p, ledger).sent ==> Defined(q)
  {
    SubstituteDefined(p.table, ArgsOf(w.args), keys);
  }

  lemma {:induction false} WiringDefined(ws: seq<WireAction>, out: Output, p: Progress, ledger: nat -> Receipt, keys: set<string>)
    requires BindsStrings(p.table) && keys <= p.table.vals.Keys
    requires forall w :: w in ws ==> ActionBound(w, keys)
    requires forall w :: w in ws ==> forall a :: a in ArgsOf(w.args) ==> !a.Undefined?
    requires forall q :: q in p.sent ==> Defined(q)
    ensures forall q :: q in WireAll(ws, out, p, ledger).sent ==> Defined(q)
    decreases |ws|
  {
    if ws != [] && p.failure.None? {
      var w := ws[0];
      assert w in ws;
      WireStepDefined(w, out, p, ledger, keys);
      var q := WireStep(w, out, p, ledger);
      assert forall x :: x in ws[1..] ==> x in ws;
      WiringDefined(ws[1..], out, q, ledger, keys);
    }
  }

  /**
   * A well-ordered plan run on a table that binds its known symbols to strings
   * never passes undefined to the ledger: no constructor argument, no wiring
   * argument, no wiring target.
   */
  lemma {:induction false} WellOrderedRunIsDefined(plan: seq<PlanItem>, out: Output, p: Progress, ledger: nat -> Receipt, known: set<string>)
    requires BindsStrings(p.table) && known <= p.table.vals.Keys
    requires WellOrdered(plan, known) && NoUndefinedLiterals(plan)
    requires forall q :: q in p.sent ==> Defined(q)
    ensures forall q :: q in RunPlan(plan, out, p, ledger).sent ==> Defined(q)
    decreases |plan|
  {
    if plan != [] && p.failure.None? {
      var item := plan[0];
      assert item in plan;
      SubstituteDefined(p.table, item.ctor, known);
      var d := DeployStep(item, out, p, ledger);
      DeployStepShape(item, out, p, ledger);
      var known' := known + {"$" + item.name};
      if d.failure.None? {
        WiringDefined(item.after, out, d, ledger, known');
      } else {
        WiringKeepsTable(item.after, out, d, ledger);
      }
      var q := RunItem(item, out, p, ledger);
      WiringKeepsTable(item.after, out, d, ledger);
      assert NoUndefinedLiterals(plan[1..]) by {
        assert forall x :: x in plan[1..] ==> x in plan;
      }
      if q.failure.None? {
        WellOrderedRunIsDefined(plan[1..], out, q, ledger, known');
      }
    }
  }

  // ---------------------------------------------------------------- summary

  /** Every key of the table begins with `$`. */
  ghost predicate SymbolKeys(t: Table) {
    forall i :: 0 <= i < |t.keys| ==> StartsWith(t.keys[i], "$")
  }

  lemma {:induction false} SummaryOfSymbols(t: Table, ks: seq<string>)
    requires forall i :: 0 <= i < |ks| ==> StartsWith(ks[i], "$")
    ensures |SummaryOf(t, ks)| == |ks|
    ensures forall i :: 0 <= i < |ks| ==> SummaryOf(t, ks)[i] == Unmarked(ks[i]) + ": " + Display(t.Get(ks[i]))
    decreases |ks|
  {
    if ks != [] {
      SummaryOfSymbols(t, ks[1..]);
    }
  }

  /** The summary prints every entry, seeds included, in table order, without the leading `$`. */
  lemma SummaryListsEveryEntry(t: Table)
    requires SymbolKeys(t)
    ensures |Summary(t)| == |t.keys|
    ensures forall i :: 0 <= i < |t.keys| ==> Summary(t)[i] == Unmarked(t.keys[i]) + ": " + Display(t.Get(t.keys[i]))
  {
    SummaryOfSymbols(t, t.keys);
  }

  /**
   * When the plan's symbols are new and distinct, a successful run leaves the
   * table ordered as: the starting keys, then one `$<name>` per item in plan order.
   */
  lemma {:induction false} FreshSymbolsAppendInOrder(plan: seq<PlanItem>, out: Output, p: Progress, ledger: nat -> Receipt)
    requires p.failure.None?
    requires forall i, j :: 0 <= i < j < |plan| ==> plan[i].name != plan[j].name
    requires forall i :: 0 <= i < |plan| ==> "$" + plan[i].name !in p.table.vals
    requires RunPlan(plan, out, p, ledger).failure.None?
    ensures RunPlan(plan, out, p, ledger).table.keys == p.table.keys + Symbols(plan)
    decreases |plan|
  {
    if plan == [] {
      assert Symbols(plan) == [];
    } else {
      var q := RunItem(plan[0], out, p, ledger);
      RunItemRecordsAddress(plan[0], out, p, ledger);
      assert q.table.keys == p.table.keys + ["$" + plan[0].name];
      StillFresh(plan, p.table, q.table);
      FreshSymbolsAppendInOrder(plan[1..], out, q, ledger);
      SymbolsCons(plan);
    }
  }

  lemma SymbolsCons(plan: seq<PlanItem>)
    requires plan != []
    ensures Symbols(plan) == ["$" + plan[0].name] + Symbols(plan[1..])
  {
    assert forall i :: 0 <= i < |plan| - 1 ==> Symbols(plan[1..])[i] == Symbols(plan)[i + 1];
  }

  /** Once the first item's symbol is recorded, the later items' symbols are still unbound. */
  lemma StillFresh(plan: seq<PlanItem>, before: Table, after: Table)
    requires plan != []
    requires forall i, j :: 0 <= i < j < |plan| ==> plan[i].name != plan[j].name
    requires forall i :: 0 <= i < |plan| ==> "$" + plan[i].name !in before.vals
    requires after.vals.Keys == before.vals.Keys + {"$" + plan[0].name}
    ensures forall i :: 0 <= i < |plan[1..]| ==> "$" + plan[1..][i].name !in after.vals
  {
    forall i | 0 <= i < |plan[1..]| ensures "$" + plan[1..][i].name !in after.vals {
      assert plan[1..][i] == plan[i + 1];
      assert ("$" + plan[i + 1].name)[1..] == plan[i + 1].name;
      assert ("$" + plan[0].name)[1..] == plan[0].name;
    }
  }

  /** The keys of every table a run passes through begin with `$` when the seed's do. */
  lemma {:induction false} RunKeepsSymbolKeys(plan: seq<PlanItem>, out: Output, p: Progress, ledger: nat -> Receipt)
    requires SymbolKeys(p.table)
    ensures SymbolKeys(RunPlan(plan, out, p, ledger).table)
    decreases |plan|
  {
    if plan != [] && p.failure.None? {
      var k := "$" + plan[0].name;
      var q := RunItem(plan[0], out, p, ledger);
      DeployStepShape(plan[0], out, p, ledger);
      assert q.table.keys == p.table.keys || q.table.keys == p.table.keys + [k];
      assert StartsWith(k, "$");
      RunKeepsSymbolKeys(plan[1..], out, q, ledger);
    }
  }

  /**
   * The summary after a successful run whose symbols are new and distinct:
   * first the starting entries with their values, then one line per item in
   * plan order, the item's name followed by the address recorded for it.
   */
  lemma SuccessfulRunSummary(plan: seq<PlanItem>, out: Output, seed: Table, ledger: nat -> Receipt)
    requires seed.Valid() && SymbolKeys(seed)
    requires forall i, j :: 0 <= i < j < |plan| ==> plan[i].name != plan[j].name
    requires forall i :: 0 <= i < |plan| ==> "$" + plan[i].name !in seed.vals
    requires RunPlan(plan, out, Start(seed), ledger).failure.None?
    ensures var t := RunPlan(plan, out, Start(seed), ledger).table;
      && |Summary(t)| == |seed.keys| + |plan|
      && (forall i :: 0 <= i < |seed.keys| ==>
            Summary(t)[i] == Unmarked(seed.keys[i]) + ": " + Display(seed.Get(seed.keys[i])))
      && (forall i :: 0 <= i < |plan| ==>
            Summary(t)[|seed.keys| + i] == plan[i].name + ": " + Display(t.Get("$" + plan[i].name)))
  {
    var t := RunPlan(plan, out, Start(seed), ledger).table;
    FreshSymbolsAppendInOrder(plan, out, Start(seed), ledger);
    RunKeepsSymbolKeys(plan, out, Start(seed), ledger);
    RunPlanGrowsTable(plan, out, Start(seed), ledger);
    SummaryListsEveryEntry(t);
    SummaryStartsWithSeed(plan, seed, t);
    SummaryEndsWithItems(plan, seed, t);
  }

  /** The lines of a table extending `seed` begin with the seed's lines, whose values are unchanged. */
  lemma SummaryStartsWithSeed(plan: seq<PlanItem>, seed: Table, t: Table)
    requires seed.Valid() && t.keys == seed.keys + Symbols(plan)
    requires forall i :: 0 <= i < |plan| ==> "$" + plan[i].name !in seed.vals
    requires forall k :: k !in Symbols(plan) ==> t.Get(k) == seed.Get(k)
    requires |Summary(t)| == |t.keys|
    requires forall i :: 0 <= i < |t.keys| ==> Summary(t)[i] == Unmarked(t.keys[i]) + ": " + Display(t.Get(t.keys[i]))
    ensures forall i :: 0 <= i < |seed.keys| ==>
      Summary(t)[i] == Unmarked(seed.keys[i]) + ": " + Display(seed.Get(seed.keys[i]))
  {
    forall i | 0 <= i < |seed.keys|
      ensures Summary(t)[i] == Unmarked(seed.keys[i]) + ": " + Display(seed.Get(seed.keys[i]))
    {
      assert t.keys[i] == seed.keys[i];
      assert seed.keys[i] in seed.vals;
      assert seed.keys[i] !in Symbols(plan) by {
        forall j | 0 <= j < |plan| ensures Symbols(plan)[j] != seed.keys[i] {
          assert Symbols(plan)[j] == "$" + plan[j].name;
        }
      }
    }
  }

  /** After the seed's lines come the items' lines, in plan order. */
  lemma SummaryEndsWithItems(plan: seq<PlanItem>, seed: Table, t: Table)
    requires t.keys == seed.keys + Symbols(plan)
    requires |Summary(t)| == |t.keys|
    requires forall i :: 0 <= i < |t.keys| ==> Summary(t)[i] == Unmarked(t.keys[i]) + ": " + Display(t.Get(t.keys[i]))
    ensures forall i :: 0 <= i < |plan| ==>
      Summary(t)[|seed.keys| + i] == plan[i].name + ": " + Display(t.Get("$" + plan[i].name))
  {
    forall i | 0 <= i < |plan|
      ensures Summary(t)[|seed.keys| + i] == plan[i].name + ": " + Display(t.Get("$" + plan[i].name))
    {
      assert t.keys[|seed.keys| + i] == "$" + plan[i].name;
      assert Unmarked("$" + plan[i].name) == plan[i].name;
    }
  }

  /** The symbols the seed binds. */
  const SeedSymbols: set<string> := {"$Admin", "$Sensor", "$SensorEOA", "$ShipperEOA"}

  /**
   * Given both addresses on the command line, a plan well ordered over the
   * seed never passes undefined to the ledger, whatever the ledger answers.
   */
  lemma SeededRunIsDefined(plan: seq<PlanItem>, out: Output, admin: string, sensor: string, ledger: nat -> Receipt)
    requires WellOrdered(plan, SeedSymbols) && NoUndefinedLiterals(plan)
    ensures forall q :: q in RunPlan(plan, out, Start(Seed(Str(admin), Str(sensor))), ledger).sent ==> Defined(q)
  {
    var seed := Seed(Str(admin), Str(sensor));
    assert BindsStrings(seed);
    WellOrderedRunIsDefined(plan, out, Start(seed), ledger, SeedSymbols);
  }

  /** The seed table: valid, every key a symbol, bound exactly at the seed symbols. */
  lemma SeedShape(admin: Json, sensor: Json)
    ensures Seed(admin, sensor).Valid() && SymbolKeys(Seed(admin, sensor))
    ensures Seed(admin, sensor).vals.Keys == SeedSymbols
    ensures Unmarked(SeedKeys[0]) == "Admin" && Unmarked(SeedKeys[1]) == "Sensor"
    ensures Unmarked(SeedKeys[2]) == "SensorEOA" && Unmarked(SeedKeys[3]) == "ShipperEOA"
  {
  }

  /** The first summary lines of a successful run are the summary of the starting table itself. */
  lemma SeedLines(plan: seq<PlanItem>, seed: Table, out: Output, ledger: nat -> Receipt)
    requires seed.Valid() && SymbolKeys(seed)
    requires forall i, j :: 0 <= i < j < |plan| ==> plan[i].name != plan[j].name
    requires forall i :: 0 <= i < |plan| ==> "$" + plan[i].name !in seed.vals
    requires RunPlan(plan, out, Start(seed), ledger).failure.None?
    ensures var lines := Summary(RunPlan(plan, out, Start(seed), ledger).table);
      |lines| == |seed.keys| + |plan| && lines[..|seed.keys|] == Summary(seed)
  {
    SuccessfulRunSummary(plan, out, seed, ledger);
    SummaryListsEveryEntry(seed);
  }

  /** The summary of the seed alone: the four seed lines, in table order. */
  lemma SeedSummary(admin: Json, sensor: Json)
    ensures Summary(Seed(admin, sensor))
         == ["Admin: " + Display(admin), "Sensor: " + Display(sensor),
             "SensorEOA: " + Display(sensor), "ShipperEOA: " + Display(admin)]
  {
    var seed := Seed(admin, sensor);
    SeedShape(admin, sensor);
    SummaryListsEveryEntry(seed);
    assert SeedKeys[0] == "$Admin" && SeedKeys[1] == "$Sensor";
    assert SeedKeys[2] == "$SensorEOA" && SeedKeys[3] == "$ShipperEOA";
    assert "Admin" + ": " == "Admin: " && "Sensor" + ": " == "Sensor: ";
    assert "SensorEOA" + ": " == "SensorEOA: " && "ShipperEOA" + ": " == "ShipperEOA: ";
  }

  lemma PrefixStartsWith(head: string, rest: string)
    ensures StartsWith(head + rest, head)
  {
    assert (head + rest)[..|head|] == head;
  }

  /** After the starting entries, each summary line of a successful run starts with its item's name. */
  lemma ItemLines(plan: seq<PlanItem>, seed: Table, out: Output, ledger: nat -> Receipt)
    requires seed.Valid() && SymbolKeys(seed)
    requires forall i, j :: 0 <= i < j < |plan| ==> plan[i].name != plan[j].name
    requires forall i :: 0 <= i < |plan| ==> "$" + plan[i].name !in seed.vals
    requires RunPlan(plan, out, Start(seed), ledger).failure.None?
    ensures var lines := Summary(RunPlan(plan, out, Start(seed), ledger).table);
      && |lines| == |seed.keys| + |plan|
      && forall i :: 0 <= i < |plan| ==> StartsWith(lines[|seed.keys| + i], plan[i].name + ": ")
  {
    var t := RunPlan(plan, out, Start(seed), ledger).table;
    SuccessfulRunSummary(plan, out, seed, ledger);
    forall i | 0 <= i < |plan| ensures StartsWith(Summary(t)[|seed.keys| + i], plan[i].name + ": ") {
      PrefixStartsWith(plan[i].name + ": ", Display(t.Get("$" + plan[i].name)));
    }
  }

  /**
   * The summary after a successful run from the seed, for a plan whose
   * symbols are new and distinct: the four seeds, then one line per item in
   * plan order, each starting with the item's name.
   */
  lemma SeededSummary(plan: seq<PlanItem>, admin: Json, sensor: Json, out: Output, ledger: nat -> Receipt)
    requires forall i, j :: 0 <= i < j < |plan| ==> plan[i].name != plan[j].name
    requires forall i :: 0 <= i < |plan| ==> "$" + plan[i].name !in SeedSymbols
    requires RunPlan(plan, out, Start(Seed(admin, sensor)), ledger).failure.None?
    ensures var lines := Summary(RunPlan(plan, out, Start(Seed(admin, sensor)), ledger).table);
      && |lines| == 4 + |plan|
      && lines[..4] == ["Admin: " + Display(admin), "Sensor: " + Display(sensor),
                        "SensorEOA: " + Display(sensor), "ShipperEOA: " + Display(admin)]
      && forall i :: 0 <= i < |plan| ==> StartsWith(lines[4 + i], plan[i].name + ": ")
  {
    SeedShape(admin, sensor);
    SeedLines(plan, Seed(admin, sensor), out, ledger);
    SeedSummary(admin, sensor);
    ItemLines(plan, Seed(admin, sensor), out, ledger);
  }

  /**
   * What a run from the seed guarantees for any plan that is well ordered
   * over the seed, has no undefined literal and whose names are distinct and
   * new: the contracts deployed are a prefix of the plan, all of it on
   * success, when the summary is the four seeds and then one line per item;
   * given both addresses, nothing undefined reaches the ledger.
   */
  lemma PlanRunGuarantees(plan: seq<PlanItem>, out: Output, admin: Json, sensor: Json, ledger: nat -> Receipt)
    requires WellOrdered(plan, SeedSymbols) && NoUndefinedLiterals(plan)
    requires forall i, j :: 0 <= i < j < |plan| ==> plan[i].name != plan[j].name
    requires forall i :: 0 <= i < |plan| ==> "$" + plan[i].name !in SeedSymbols
    ensures var r := RunPlan(plan, out, Start(Seed(admin, sensor)), ledger);
      && DeployedNames(r.sent) <= Names(plan)
      && (r.failure.None? ==> DeployedNames(r.sent) == Names(plan))
      && (r.failure.None? ==>
            var lines := Summary(r.table);
            && |lines| == 4 + |plan|
            && lines[..4] == ["Admin: " + Display(admin), "Sensor: " + Display(sensor),
                              "SensorEOA: " + Display(sensor), "ShipperEOA: " + Display(admin)]
            && forall i :: 0 <= i < |plan| ==> StartsWith(lines[4 + i], plan[i].name + ": "))
      && (admin.Str? && sensor.Str? ==> forall q :: q in r.sent ==> Defined(q))
  {
    var r := RunPlan(plan, out, Start(Seed(admin, sensor)), ledger);
    PartialRunIsPlanPrefix(plan, out, Seed(admin, sensor), ledger);
    if admin.Str? && sensor.Str? {
      SeededRunIsDefined(plan, out, admin.s, sensor.s, ledger);
    }
    if r.failure.None? {
      SeededSummary(plan, admin, sensor, out, ledger);
    }
  }
}
