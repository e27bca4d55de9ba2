/**
 * `src/deployAll.ts`: the shared executor run on the top-level plan, which
 * deploys the factory before the registry and gives the warehouse the role
 * manager.
 */
module SrcDeployAll {
  import opened Wrappers
  import opened Js
  import opened Artifacts
  import opened Accounts
  import opened DeployExecutor
  import opened DeployProperties

  /** The top-level `deployPlan`, in its order. */
  const DeployPlan: seq<PlanItem> := [
    PlanItem("RoleManager", [Str("$Admin")], []),
    PlanItem("CakeFactory", [Str("$Admin")], []),
    PlanItem("CakeLifecycleRegistry", [Str("$CakeFactory")], []),
    PlanItem("Shipper", [Str("$ShipperEOA"), Str("$CakeLifecycleRegistry")], []),
    PlanItem("Warehouse", [Str("$RoleManager")], []),
    PlanItem("SensorOracle", [Str("$Admin"), Str("$SensorEOA")],
             [WireAction("SensorOracle", Str("setShipment"), ArgList([Str("$Shipper")]))]),
    PlanItem("Auditor", [Str("$Admin"), Str("$RoleManager"), Str("$CakeLifecycleRegistry")], [])
  ]

  /** Item i uses only symbols bound before it runs (its wiring may also use its own). */
  lemma ItemIsBound(i: nat)
    requires i < |DeployPlan|
    ensures CtorBound(DeployPlan[i], KnownBefore(DeployPlan, SeedSymbols, i))
    ensures forall w :: w in DeployPlan[i].after ==> ActionBound(w, KnownBefore(DeployPlan, SeedSymbols, i + 1))
  {
    KnownBeforeGrows(DeployPlan, SeedSymbols, i);
    if i == 0 {
      Item0IsBound(KnownBefore(DeployPlan, SeedSymbols, 0));
    } else if i == 1 {
      Item1IsBound(KnownBefore(DeployPlan, SeedSymbols, 1));
    } else if i == 2 {
      Item2IsBound(KnownBefore(DeployPlan, SeedSymbols, 2));
    } else if i == 3 {
      Item3IsBound(KnownBefore(DeployPlan, SeedSymbols, 3));
    } else if i == 4 {
      Item4IsBound(KnownBefore(DeployPlan, SeedSymbols, 4));
    } else if i == 5 {
      KnownBeforeGrows(DeployPlan, SeedSymbols, 6);
      Item5IsBound(KnownBefore(DeployPlan, SeedSymbols, 5));
    } else {
      Item6IsBound(KnownBefore(DeployPlan, SeedSymbols, 6));
    }
  }

  lemma Item0IsBound(known: set<string>)
    requires SeedSymbols <= known
    ensures CtorBound(DeployPlan[0], known)
  {
  }

  lemma Item1IsBound(known: set<string>)
    requires SeedSymbols <= known
    ensures CtorBound(DeployPlan[1], known)
  {
  }

  lemma Item2IsBound(known: set<string>)
    requires SeedSymbols <= known
    requires "$" + DeployPlan[1].name in known
    ensures CtorBound(DeployPlan[2], known)
  {
    assert "$" + DeployPlan[1].name == "$CakeFactory";
  }

  lemma Item3IsBound(known: set<string>)
    requires SeedSymbols <= known
    requires "$" + DeployPlan[2].name in known
    ensures CtorBound(DeployPlan[3], known)
  {
    assert "$" + DeployPlan[2].name == "$CakeLifecycleRegistry";
  }

  lemma Item4IsBound(known: set<string>)
    requires SeedSymbols <= known
    requires "$" + DeployPlan[0].name in known
    ensures CtorBound(DeployPlan[4], known)
  {
    assert "$" + DeployPlan[0].name == "$RoleManager";
  }

  lemma Item5IsBound(known: set<string>)
    requires SeedSymbols <= known
    requires "$" + DeployPlan[3].name in known
    ensures CtorBound(DeployPlan[5], known)
    ensures forall w :: w in DeployPlan[5].after ==> ActionBound(w, known + {"$" + DeployPlan[5].name})
  {
    assert "$" + DeployPlan[3].name == "$Shipper";
    assert "$" + DeployPlan[5].name == "$SensorOracle";
  }

  lemma Item6IsBound(known: set<string>)
    requires SeedSymbols <= known
    requires "$" + DeployPlan[2].name in known
    requires "$" + DeployPlan[0].name in known
    ensures CtorBound(DeployPlan[6], known)
  {
    assert "$" + DeployPlan[2].name == "$CakeLifecycleRegistry";
    assert "$" + DeployPlan[0].name == "$RoleManager";
  }

  /** Every placeholder of item i is a seed symbol or the symbol of an earlier item (or, in wiring, its own). */
  lemma PlanIsWellOrdered()
    ensures WellOrdered(DeployPlan, SeedSymbols)
  {
    forall i | 0 <= i < |DeployPlan|
      ensures CtorBound(DeployPlan[i], KnownBefore(DeployPlan, SeedSymbols, i))
      ensures forall w :: w in DeployPlan[i].after ==> ActionBound(w, KnownBefore(DeployPlan, SeedSymbols, i + 1))
    {
      ItemIsBound(i);
    }
    WellOrderedByItems(DeployPlan, SeedSymbols);
  }

  /** No argument of the plan is literally undefined. */
  lemma PlanHasNoUndefinedLiterals()
    ensures NoUndefinedLiterals(DeployPlan)
  {
    assert PlanDefined(DeployPlan);
    PlanDefinedSound(DeployPlan);
  }

  /** The plan deploys each contract once, and none under a seed symbol. */
  lemma NamesAreFresh()
    ensures forall i, j :: 0 <= i < j < |DeployPlan| ==> DeployPlan[i].name != DeployPlan[j].name
    ensures forall i :: 0 <= i < |DeployPlan| ==> "$" + DeployPlan[i].name !in SeedSymbols
  {
    assert DeployPlan[0].name[0] != DeployPlan[1].name[0];
    assert DeployPlan[3].name[0] != DeployPlan[6].name[0];
    forall i | 0 <= i < |DeployPlan| ensures "$" + DeployPlan[i].name !in SeedSymbols {
      var sym := "$" + DeployPlan[i].name;
      assert sym[1] == DeployPlan[i].name[0];
      assert |sym| == 1 + |DeployPlan[i].name|;
    }
  }

  /**
   * The plan's one wiring entry: once `SensorOracle` is deployed with the
   * admin and sensor addresses, its `setShipment` is called at the address
   * just recorded for it, with the address recorded for `Shipper`.
   */
  lemma SetShipmentWiring(out: Output, p: Progress, ledger: nat -> Receipt)
    requires p.failure.None?
    ensures var q := RunItem(DeployPlan[5], out, p, ledger);
      var found := ResolveArtifact(out, "SensorOracle");
      found.Ok? && "setShipment" in Methods(found.value.abi) && ledger(|p.sent|).Confirmed? ==>
        && q.sent == p.sent + [DeployTx("SensorOracle", "0x" + found.value.bytecode,
                                        [p.table.Get("$Admin"), p.table.Get("$SensorEOA")]),
                               CallTx("SensorOracle", Str(ledger(|p.sent|).address.GetOr("")), "setShipment",
                                      [p.table.Get("$Shipper")])]
        && (q.failure.None? <==> ledger(|p.sent| + 1).Confirmed?)
  {
    DeployThenCallSelf("SensorOracle", "$Admin", "$SensorEOA", "setShipment", "$Shipper", out, p, ledger);
  }

  /**
   * `deployAll.ts deploy <tag> <admin> <sensor>` with this plan: a successful
   * run deploys the seven contracts in plan order and prints the four seeds
   * and then one line per contract; every request is sent from the account
   * derived for the tag; with all four arguments given, nothing undefined
   * reaches the ledger.
   */
  method Deploy(argv: seq<string>, compiled: Option<Output>, accounts: AccountFile,
                addressOf: string -> Result<string, string>, ledger: nat -> Receipt)
    returns (r: ScriptResult)
    ensures Arg(argv, 0) != Str("deploy") ==> r == ScriptResult(1, false, None, [], [])
    ensures r.sent != [] ==> DeriveAccount(accounts, Display(Arg(argv, 1)), addressOf).Ok?
                             && r.sender == Some(DeriveAccount(accounts, Display(Arg(argv, 1)), addressOf).value)
    ensures DeployedNames(r.sent) <= Names(DeployPlan)
    ensures r.exitCode == 0 ==> DeployedNames(r.sent) == Names(DeployPlan)
    ensures r.exitCode == 0 ==>
      && |r.summary| == 4 + |DeployPlan|
      && r.summary[..4] == ["Admin: " + Display(Arg(argv, 2)), "Sensor: " + Display(Arg(argv, 3)),
                            "SensorEOA: " + Display(Arg(argv, 3)), "ShipperEOA: " + Display(Arg(argv, 2))]
      && forall i :: 0 <= i < |DeployPlan| ==> StartsWith(r.summary[4 + i], DeployPlan[i].name + ": ")
    ensures |argv| >= 4 ==> forall q :: q in r.sent ==> Defined(q)
  {
    r := RunScript(DeployPlan, argv, compiled, accounts, addressOf, ledger);
    if Arg(argv, 0) == Str("deploy") && compiled.Some? && DeriveAccount(accounts, Display(Arg(argv, 1)), addressOf).Ok? {
      PlanIsWellOrdered();
      PlanHasNoUndefinedLiterals();
      NamesAreFresh();
      PlanRunGuarantees(DeployPlan, compiled.value, Arg(argv, 2), Arg(argv, 3), ledger);
    } else {
      assert DeployedNames([]) == [];
    }
  }
}
