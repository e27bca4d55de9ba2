/**
 * The deployment-plan executor shared by `backend/src/deployAll.ts` and
 * `src/deployAll.ts`: a symbol table `addr` seeded from the command line, a
 * plan walked in list order, `$`-placeholder substitution, the loose artifact
 * lookup, one ledger request per deployment and per wiring call, and
 * abort-on-first-failure with nothing rolled back.
 *
 * The ledger is an input: `ledger(n)` is its answer to the n-th request the
 * run sends (counting from 0).
 */
module DeployExecutor {
  import opened Wrappers
  import opened Js
  import opened Artifacts
  import opened Accounts

  /**
   * The `addr` record. `keys` is the property order of the object (a new key
   * goes last, an overwritten one keeps its place; keys beginning with `$` are
   * never integer-like, so this is insertion order); `vals` the bindings.
   */
  datatype Table = Table(keys: seq<string>, vals: map<string, Json>) {

    ghost predicate Valid() {
      && (forall i, j :: 0 <= i < j < |keys| ==> keys[i] != keys[j])
      && (forall k :: k in vals <==> k in keys)
    }

    /** Reading a symbol: the bound value, or undefined for a key never written. */
    function Get(k: string): Json {
      if k in vals then vals[k] else Undefined
    }

    /** Writing a symbol: the value changes for `k` only, and a new key is appended to the order. */
    function Set(k: string, v: Json): (t: Table)
      ensures t.Get(k) == v
      ensures forall k' :: k' != k ==> t.Get(k') == Get(k')
      ensures t.vals.Keys == vals.Keys + {k}
      ensures keys <= t.keys
      ensures Valid() ==> t.Valid()
    {
      Table(if k in vals then keys else keys + [k], vals[k := v])
    }
  }

  /** The symbols the seed binds, in the order `main` writes them. */
  const SeedKeys: seq<string> := ["$Admin", "$Sensor", "$SensorEOA", "$ShipperEOA"]

  /** `main`'s initial table: the admin and sensor addresses from the command line under four symbols. */
  function Seed(adminAddr: Json, sensorAddr: Json): (t: Table)
    ensures t.Valid() && t.keys == SeedKeys
    ensures t.Get("$Admin") == adminAddr && t.Get("$ShipperEOA") == adminAddr
    ensures t.Get("$Sensor") == sensorAddr && t.Get("$SensorEOA") == sensorAddr
  {
    Table(SeedKeys, map["$Admin" := adminAddr, "$Sensor" := sensorAddr,
                        "$SensorEOA" := sensorAddr, "$ShipperEOA" := adminAddr])
  }

  /** An argument that is a string beginning with `$` names a symbol of the table. */
  predicate IsPlaceholder(a: Json) {
    a.Str? && StartsWith(a.s, "$")
  }

  /** One argument after substitution: a placeholder becomes `addr[a]`, anything else is kept. */
  function Substitute(t: Table, a: Json): Json {
    if IsPlaceholder(a) then t.Get(a.s) else a
  }

  /**
   * Substitution over an argument list. Length and order are kept; a
   * placeholder the table does not bind becomes undefined rather than an error.
   */
  function SubstituteAll(t: Table, args: seq<Json>): (r: seq<Json>)
    ensures |r| == |args|
    ensures forall i :: 0 <= i < |args| && !IsPlaceholder(args[i]) ==> r[i] == args[i]
    ensures forall i :: 0 <= i < |args| && IsPlaceholder(args[i]) && args[i].s in t.vals ==> r[i] == t.vals[args[i].s]
    ensures forall i :: 0 <= i < |args| && IsPlaceholder(args[i]) && args[i].s !in t.vals ==> r[i] == Undefined
  {
    seq(|args|, i requires 0 <= i < |args| => Substitute(t, args[i]))
  }

  /** The third member of a wiring entry: an array, or a single value. */
  datatype WireArgs = ArgList(items: seq<Json>) | Single(item: Json)

  /** The literal arguments of a wiring entry, before substitution. */
  function ArgsOf(w: WireArgs): seq<Json> {
    match w
    case ArgList(items) => items
    case Single(item) => [item]
  }

  /** The wiring call's arguments: an array is substituted element-wise, a single value becomes a one-element list. */
  function WireCallArgs(t: Table, w: WireArgs): (r: seq<Json>)
    ensures r == SubstituteAll(t, ArgsOf(w))
    ensures w.Single? ==> |r| == 1
  {
    match w
    case ArgList(items) => SubstituteAll(t, items)
    case Single(item) => [Substitute(t, item)]
  }

  /** One entry of `after`: `[targetName, fn, args]`. `fn` is checked to be a string only at run time. */
  datatype WireAction = WireAction(target: string, fn: Json, args: WireArgs)

  /** One plan entry; an absent `after` is the empty list. */
  datatype PlanItem = PlanItem(name: string, ctor: seq<Json>, after: seq<WireAction>)

  /** What the run asks of the ledger. */
  datatype Request =
    | DeployTx(contract: string, data: string, args: seq<Json>)
    | CallTx(contract: string, at: Json, fnName: string, args: seq<Json>)

  /** The ledger's answer: a confirmation (for a deployment, possibly without an address) or a rejection. */
  datatype Receipt = Confirmed(address: Option<string>) | Rejected(reason: string)

  /** What ends a run early; each one makes `main` exit with 1. */
  datatype Failure =
    | NoMatchingKey(name: string)              // no source key matches; indexing the missing entry throws
    | NoContractUnderKey(key: string, name: string) // the matching key holds no contract of that name
    | MethodNotString(given: Json)              // the explicit throw for a non-string method name
    | NoSuchMethod(target: string, fnName: string) // the contract object has no such method to call
    | LedgerError(reason: string)              // the ledger rejected a transaction

  /** The state of a run: the table, the requests sent so far, and the failure that stopped it, if any. */
  datatype Progress = Progress(table: Table, sent: seq<Request>, failure: Option<Failure>)

  /** The artifact under the first source key that matches the name; either lookup may come up empty. */
  function ResolveArtifact(out: Output, name: string): (r: Result<Artifact, Failure>)
    ensures r.Ok? <==> FirstMatchingKey(out, name).Some? && name in out[FirstMatchingKey(out, name).value].1
    ensures r.Ok? ==> r.value == out[FirstMatchingKey(out, name).value].1[name]
  {
    match FirstMatchingKey(out, name)
    case None => Err(NoMatchingKey(name))
    case Some(i) =>
      if name in out[i].1 then Ok(out[i].1[name]) else Err(NoContractUnderKey(out[i].0, name))
  }

  /** The methods a contract object built from `abi` exposes. */
  function Methods(abi: Option<Abi>): set<string> {
    abi.GetOr({})
  }

  /** Lines 93-107 (backend) / 73-87 (src): look up, substitute, deploy, record `$<name>`. */
  function DeployStep(item: PlanItem, out: Output, p: Progress, ledger: nat -> Receipt): (r: Progress)
    ensures p.sent <= r.sent && |r.sent| <= |p.sent| + 1
    ensures r.failure.None? ==> && |r.sent| == |p.sent| + 1 && ledger(|p.sent|).Confirmed?
                                && r.table.Get("$" + item.name) == Str(ledger(|p.sent|).address.GetOr(""))
                                && r.table.vals.Keys == p.table.vals.Keys + {"$" + item.name}
  {
    match ResolveArtifact(out, item.name)
    case Err(e) => p.(failure := Some(e))
    case Ok(art) =>
      var req := DeployTx(item.name, "0x" + art.bytecode, SubstituteAll(p.table, item.ctor));
      match ledger(|p.sent|)
      case Rejected(reason) => Progress(p.table, p.sent + [req], Some(LedgerError(reason)))
      case Confirmed(address) =>
        Progress(p.table.Set("$" + item.name, Str(address.GetOr(""))), p.sent + [req], None)
  }

  /** One wiring entry (backend lines 112-128, src lines 92-104). The table is only read. */
  function WireStep(w: WireAction, out: Output, p: Progress, ledger: nat -> Receipt): (r: Progress)
    ensures r.table == p.table
    ensures p.sent <= r.sent && |r.sent| <= |p.sent| + 1
    ensures |r.sent| == |p.sent| + 1 ==> r.sent[|p.sent|].CallTx? && r.sent[|p.sent|].contract == w.target
  {
    var at := p.table.Get("$" + w.target);
    match ResolveArtifact(out, w.target)
    case Err(e) => p.(failure := Some(e))
    case Ok(art) =>
      var args := WireCallArgs(p.table, w.args);
      if !w.fn.Str? then p.(failure := Some(MethodNotString(w.fn)))
      else if w.fn.s !in Methods(art.abi) then p.(failure := Some(NoSuchMethod(w.target, w.fn.s)))
      else
        var req := CallTx(w.target, at, w.fn.s, args);
        match ledger(|p.sent|)
        case Rejected(reason) => Progress(p.table, p.sent + [req], Some(LedgerError(reason)))
        case Confirmed(_) => p.(sent := p.sent + [req])
  }

  /** The wiring loop: entries in order, stopping at the first failure. */
  function WireAll(ws: seq<WireAction>, out: Output, p: Progress, ledger: nat -> Receipt): (r: Progress)
    ensures r.table == p.table
    ensures p.sent <= r.sent && |r.sent| <= |p.sent| + |ws|
    ensures p.failure.Some? ==> r == p
    decreases |ws|
  {
    if ws == [] || p.failure.Some? then p
    else WireAll(ws[1..], out, WireStep(ws[0], out, p, ledger), ledger)
  }

  /** One plan item: the deployment, then its wiring. */
  function RunItem(item: PlanItem, out: Output, p: Progress, ledger: nat -> Receipt): (r: Progress)
    ensures p.sent <= r.sent && |r.sent| <= |p.sent| + 1 + |item.after|
    ensures r.failure.None? ==> && ledger(|p.sent|).Confirmed?
                                && r.table.Get("$" + item.name) == Str(ledger(|p.sent|).address.GetOr(""))
                                && r.table.vals.Keys == p.table.vals.Keys + {"$" + item.name}
  {
    WireAll(item.after, out, DeployStep(item, out, p, ledger), ledger)
  }

  /** The plan loop: items in order, stopping at the first failure. */
  function RunPlan(plan: seq<PlanItem>, out: Output, p: Progress, ledger: nat -> Receipt): (r: Progress)
    ensures p.sent <= r.sent
    ensures p.failure.Some? ==> r == p
    decreases |plan|
  {
    if plan == [] || p.failure.Some? then p
    else RunPlan(plan[1..], out, RunItem(plan[0], out, p, ledger), ledger)
  }

  /** The state a run starts from. */
  function Start(seed: Table): Progress {
    Progress(seed, [], None)
  }

  /**
   * The plan loop of `main` as the scripts run it, updating `addr` in place.
   * It computes exactly `RunPlan`; the lemmas of `DeployProperties` say what that is.
   */
  method ExecutePlan(plan: seq<PlanItem>, out: Output, seed: Table, ledger: nat -> Receipt)
    returns (addr: Table, sent: seq<Request>, failure: Option<Failure>)
    ensures Progress(addr, sent, failure) == RunPlan(plan, out, Start(seed), ledger)
  {
    addr, sent, failure := seed, [], None;
    ghost var goal := RunPlan(plan, out, Start(seed), ledger);
    for i := 0 to |plan|
      invariant goal == RunPlan(plan[i..], out, Progress(addr, sent, None), ledger)
    {
      var item := plan[i];
      assert plan[i..][1..] == plan[i + 1..];
      ghost var before := Progress(addr, sent, None);
      var found := ResolveArtifact(out, item.name);
      if found.Err? {
        failure := Some(found.error);
        return;
      }
      var art := found.value;
      var ctorArgs := SubstituteAll(addr, item.ctor);
      var receipt := ledger(|sent|);
      sent := sent + [DeployTx(item.name, "0x" + art.bytecode, ctorArgs)];
      if receipt.Rejected? {
        failure := Some(LedgerError(receipt.reason));
        return;
      }
      addr := addr.Set("$" + item.name, Str(receipt.address.GetOr("")));
      assert DeployStep(item, out, before, ledger) == Progress(addr, sent, None);

      for k := 0 to |item.after|
        invariant goal == RunPlan(plan[i + 1..], out, WireAll(item.after[k..], out, Progress(addr, sent, None), ledger), ledger)
      {
        var w := item.after[k];
        assert item.after[k..][1..] == item.after[k + 1..];
        ghost var here := Progress(addr, sent, None);
        var targetAddr := addr.Get("$" + w.target);
        var target := ResolveArtifact(out, w.target);
        if target.Err? {
          failure := Some(target.error);
          return;
        }
        var wireArgs := WireCallArgs(addr, w.args);
        if !w.fn.Str? {
          failure := Some(MethodNotString(w.fn));
          return;
        }
        if w.fn.s !in Methods(target.value.abi) {
          failure := Some(NoSuchMethod(w.target, w.fn.s));
          return;
        }
        var reply := ledger(|sent|);
        sent := sent + [CallTx(w.target, targetAddr, w.fn.s, wireArgs)];
        if reply.Rejected? {
          failure := Some(LedgerError(reply.reason));
          return;
        }
        assert WireStep(w, out, here, ledger) == Progress(addr, sent, None);
      }
    }
  }

  /** The key without its leading `$`. */
  function Unmarked(k: string): string {
    if k == [] then [] else k[1..]
  }

  /** The summary lines for the keys `ks`: each `$`-key printed without its `$`, with its value. */
  function SummaryOf(t: Table, ks: seq<string>): (r: seq<string>)
    ensures |r| <= |ks|
    decreases |ks|
  {
    if ks == [] then []
    else (if StartsWith(ks[0], "$") then [Unmarked(ks[0]) + ": " + Display(t.Get(ks[0]))] else [])
         + SummaryOf(t, ks[1..])
  }

  /** The closing summary: one line per `$`-key of the table, in the table's key order. */
  function Summary(t: Table): (r: seq<string>)
    ensures |r| <= |t.keys|
  {
    SummaryOf(t, t.keys)
  }

  /**
   * How one script invocation ends: exit code, whether the compiler ran, the account every ledger
   * request is sent from (none when no account was derived), the requests, and the summary printed.
   */
  datatype ScriptResult =
    ScriptResult(exitCode: int, compilerRun: bool, sender: Option<string>, sent: seq<Request>, summary: seq<string>)

  /** The i-th command-line argument after the program name, or undefined when absent. */
  function Arg(argv: seq<string>, i: nat): Json {
    if i < |argv| then Str(argv[i]) else Undefined
  }

  /**
   * One run of a deployment script for a given plan, where any throw exits with 1. `compiled` is what
   * `compileSols` yields (`None` when it throws or has no `contracts`); `accounts` is the accounts
   * file and `addressOf` the key derivation, which may throw. Every deployment and wiring call is
   * sent from the derived account.
   */
  method RunScript(plan: seq<PlanItem>, argv: seq<string>, compiled: Option<Output>, accounts: AccountFile,
                   addressOf: string -> Result<string, string>, ledger: nat -> Receipt) returns (r: ScriptResult)
    ensures Arg(argv, 0) != Str("deploy") ==> r == ScriptResult(1, false, None, [], [])
    ensures Arg(argv, 0) == Str("deploy") && compiled.None? ==> r == ScriptResult(1, true, None, [], [])
    ensures Arg(argv, 0) == Str("deploy") && compiled.Some? && DeriveAccount(accounts, Display(Arg(argv, 1)), addressOf).Err?
            ==> r == ScriptResult(1, true, None, [], [])
    ensures Arg(argv, 0) == Str("deploy") && compiled.Some? && DeriveAccount(accounts, Display(Arg(argv, 1)), addressOf).Ok? ==>
            var run := RunPlan(plan, compiled.value, Start(Seed(Arg(argv, 2), Arg(argv, 3))), ledger);
            r == ScriptResult(if run.failure.None? then 0 else 1, true,
                              Some(DeriveAccount(accounts, Display(Arg(argv, 1)), addressOf).value), run.sent,
                              if run.failure.None? then Summary(run.table) else [])
  {
    if Arg(argv, 0) != Str("deploy") {
      return ScriptResult(1, false, None, [], []);
    }
    if compiled.None? {
      return ScriptResult(1, true, None, [], []);
    }
    var key := CheckAccount(accounts, Display(Arg(argv, 1)));
    if key.Err? {
      return ScriptResult(1, true, None, [], []);
    }
    var account := addressOf(key.value);
    if account.Err? {
      return ScriptResult(1, true, None, [], []);
    }
    var addr, sent, failure := ExecutePlan(plan, compiled.value, Seed(Arg(argv, 2), Arg(argv, 3)), ledger);
    if failure.Some? {
      return ScriptResult(1, true, Some(account.value), sent, []);
    }
    r := ScriptResult(0, true, Some(account.value), sent, Summary(addr));
  }
}
