/**
 * The Solidity compiler's output as the deployment scripts and the web3 library
 * read it: the `contracts` object, keyed by source key in iteration order, each
 * holding the compiled contracts of that source by contract name.
 */
module Artifacts {
  import opened Wrappers
  import opened Js

  /** An interface (ABI), abstracted to the names of the functions it declares. */
  type Abi = set<string>

  /** One compiled contract; `abi` is `None` when the entry has no `abi` member. */
  datatype Artifact = Artifact(abi: Option<Abi>, bytecode: string)

  /** The compiler output's contracts object, entries in key-iteration order. */
  type Output = seq<(string, map<string, Artifact>)>

  /**
   * The key search of the scripts: the index of the first source key that
   * contains `name` ignoring case, searching from `from`.
   */
  function FirstMatchFrom(out: Output, name: string, from: nat): (r: Option<nat>)
    requires from <= |out|
    ensures r.Some? ==> from <= r.value < |out| && IncludesIgnoringCase(out[r.value].0, name)
    ensures r.Some? ==> forall j :: from <= j < r.value ==> !IncludesIgnoringCase(out[j].0, name)
    ensures r.None? ==> forall j :: from <= j < |out| ==> !IncludesIgnoringCase(out[j].0, name)
    decreases |out| - from
  {
    if from == |out| then None
    else if IncludesIgnoringCase(out[from].0, name) then Some(from)
    else FirstMatchFrom(out, name, from + 1)
  }

  /** The first compiler-output key matching `name` ignoring case; the first match wins. */
  function FirstMatchingKey(out: Output, name: string): (r: Option<nat>)
    ensures r.Some? ==> r.value < |out| && IncludesIgnoringCase(out[r.value].0, name)
    ensures r.Some? ==> forall j :: 0 <= j < r.value ==> !IncludesIgnoringCase(out[j].0, name)
    ensures r.None? ==> forall j :: 0 <= j < |out| ==> !IncludesIgnoringCase(out[j].0, name)
  {
    FirstMatchFrom(out, name, 0)
  }
}
