/**
 * Concrete runs of the deployment-plan executor: the two-item chain, a
 * placeholder nothing binds, and the loose first-match artifact lookup.
 */
module DeployScenarios {
  import opened Wrappers
  import opened Js
  import opened Artifacts
  import opened DeployExecutor
  import opened DeployProperties

  const ArtA: Artifact := Artifact(Some({}), "aa")
  const ArtB: Artifact := Artifact(Some({}), "bb")

  /** Compiler output with one source per contract. */
  const ChainOutput: Output := [("A.sol", map["A" := ArtA]), ("B.sol", map["B" := ArtB])]

  /** A ledger that confirms the first two requests, giving addresses 0xA1 and then 0xB1. */
  ghost predicate ChainLedger(ledger: nat -> Receipt) {
    ledger(0) == Confirmed(Some("0xA1")) && ledger(1) == Confirmed(Some("0xB1"))
  }

  /** `A` takes the admin address; `B` takes the address recorded for `A`. */
  const ChainPlan: seq<PlanItem> := [PlanItem("A", [Str("$Admin")], []), PlanItem("B", [Str("$A")], [])]

  /** Each contract of the chain resolves to its own source, even though "A" is looked up first. */
  lemma LookupChain()
    ensures ResolveArtifact(ChainOutput, "A") == Ok(ArtA)
    ensures ResolveArtifact(ChainOutput, "B") == Ok(ArtB)
  {
    assert Lower("A.sol") == "a.sol" && Lower("B.sol") == "b.sol";
    assert Lower("A") == ['a'] && Lower("B") == ['b'];
    IncludesChar("a.sol", 'a');
    assert "a.sol"[0] == 'a';
    IncludesChar("a.sol", 'b');
    assert 'b' !in "a.sol" by {
      forall i | 0 <= i < |"a.sol"| ensures "a.sol"[i] != 'b' {
      }
    }
    IncludesChar("b.sol", 'b');
    assert "b.sol"[0] == 'b';
    assert !IncludesIgnoringCase(ChainOutput[0].0, "B");
    assert IncludesIgnoringCase(ChainOutput[1].0, "B");
    assert FirstMatchFrom(ChainOutput, "B", 1) == Some(1);
    assert FirstMatchingKey(ChainOutput, "B") == Some(1);
  }

  /** A deploys with the admin address and records 0xA1. */
  lemma ChainFirstItem(seed: Table, out: Output, ledger: nat -> Receipt)
    requires seed == Seed(Str("0xAAA"), Undefined)
    requires ResolveArtifact(out, "A") == Ok(ArtA) && ChainLedger(ledger)
    ensures var q := RunItem(ChainPlan[0], out, Start(seed), ledger);
      && q.failure.None?
      && q.sent == [DeployTx("A", "0xaa", [Str("0xAAA")])]
      && q.table.Get("$A") == Str("0xA1")
  {
    assert IsPlaceholder(Str("$Admin"));
    assert SubstituteAll(seed, [Str("$Admin")]) == [Str("0xAAA")];
    assert "0x" + ArtA.bytecode == "0xaa";
    assert "$" + ChainPlan[0].name == "$A";
  }

  /** B, deployed as the second request, receives the address recorded for A and records 0xB1. */
  lemma ChainSecondItem(p: Progress, out: Output, ledger: nat -> Receipt)
    requires p.failure.None? && |p.sent| == 1 && p.table.Get("$A") == Str("0xA1")
    requires ResolveArtifact(out, "B") == Ok(ArtB) && ChainLedger(ledger)
    ensures var q := RunItem(ChainPlan[1], out, p, ledger);
      && q.failure.None?
      && q.sent == p.sent + [DeployTx("B", "0xbb", [Str("0xA1")])]
      && q.table.Get("$A") == Str("0xA1")
      && q.table.Get("$B") == Str("0xB1")
  {
    assert IsPlaceholder(Str("$A"));
    assert SubstituteAll(p.table, [Str("$A")]) == [Str("0xA1")];
    assert "0x" + ArtB.bytecode == "0xbb";
    assert "$" + ChainPlan[1].name == "$B";
    assert "$A"[1] != "$B"[1];
  }

  /** A two-item plan whose first item succeeds runs both items in order. */
  lemma TwoItemRun(plan: seq<PlanItem>, out: Output, p: Progress, ledger: nat -> Receipt)
    requires |plan| == 2 && p.failure.None? && RunItem(plan[0], out, p, ledger).failure.None?
    ensures RunPlan(plan, out, p, ledger) == RunItem(plan[1], out, RunItem(plan[0], out, p, ledger), ledger)
  {
    var q := RunItem(plan[0], out, p, ledger);
    assert RunPlan(plan, out, p, ledger) == RunPlan(plan[1..], out, q, ledger);
    assert RunPlan(plan[1..], out, q, ledger) == RunPlan(plan[2..], out, RunItem(plan[1], out, q, ledger), ledger);
  }

  // ---------------------------------------------------------------- unbound placeholder

  /** A plan whose only argument names a symbol nothing binds. */
  const MissingPlan: seq<PlanItem> := [PlanItem("A", [Str("$Missing")], [])]

  /**
   * An unbound placeholder is not an error: the deployment is still sent,
   * with undefined in its place, and the run goes on.
   */
  lemma UnboundPlaceholderIsSentAsUndefined(admin: Json, sensor: Json, out: Output, ledger: nat -> Receipt)
    requires ResolveArtifact(out, "A") == Ok(ArtA) && ledger(0).Confirmed?
    ensures var r := RunPlan(MissingPlan, out, Start(Seed(admin, sensor)), ledger);
      && r.failure.None?
      && r.sent == [DeployTx("A", "0xaa", [Undefined])]
  {
    var seed := Seed(admin, sensor);
    assert "$Missing" !in seed.vals by {
      assert seed.vals.Keys == {"$Admin", "$Sensor", "$SensorEOA", "$ShipperEOA"};
      assert |"$Missing"| == 8;
    }
    assert IsPlaceholder(Str("$Missing"));
    assert SubstituteAll(seed, [Str("$Missing")]) == [Undefined];
    assert "0x" + ArtA.bytecode == "0xaa";
    var q := RunItem(MissingPlan[0], out, Start(seed), ledger);
    assert RunPlan(MissingPlan, out, Start(seed), ledger) == RunPlan(MissingPlan[1..], out, q, ledger);
    assert MissingPlan[1..] == [];
  }

  // ---------------------------------------------------------------- loose lookup

  /** A source key that contains the contract name, in any letter case, resolves it: `Shipper.sol` for `Shipper`. */
  lemma KeyContainingNameResolves(pre: string, name: string, post: string, art: Artifact)
    ensures ResolveArtifact([(pre + name + post, map[name := art])], name) == Ok(art)
  {
    IncludesInfixIgnoringCase(pre, name, post);
  }

  /**
   * The first key containing the name is the only one consulted: when it does
   * not hold a contract of that name, resolution fails even though a later
   * key holds one.
   */
  lemma EarlierKeyShadows(key: string, name: string, other: map<string, Artifact>, art: Artifact)
    requires IncludesIgnoringCase(key, name) && name !in other
    ensures ResolveArtifact([(key, other), (name, map[name := art])], name) == Err(NoContractUnderKey(key, name))
  {
  }

  /** `SensorOracle` shadows `Oracle` when it comes first. */
  lemma OracleShadowedBySensorOracle(a: Artifact, b: Artifact)
    ensures ResolveArtifact([("SensorOracle", map["SensorOracle" := a]), ("Oracle", map["Oracle" := b])], "Oracle")
         == Err(NoContractUnderKey("SensorOracle", "Oracle"))
  {
    IncludesInfixIgnoringCase("Sensor", "Oracle", "");
    assert "Sensor" + "Oracle" + "" == "SensorOracle";
    assert "Oracle" !in map["SensorOracle" := a] by {
      assert |"Oracle"| != |"SensorOracle"|;
    }
    EarlierKeyShadows("SensorOracle", "Oracle", map["SensorOracle" := a], b);
  }
}
