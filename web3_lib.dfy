/**
 * The server's web3 helper library: the node connection and default account,
 * the registry of loaded contract objects, and the wrappers that turn the
 * outcome of a transaction or a view call into a result record instead of
 * throwing.
 */
module Web3Lib {
  import opened Wrappers
  import opened Js
  import opened Artifacts
  import opened Accounts

  /** A contract object bound to an address. */
  datatype Instance = Instance(abi: Abi, address: string)

  /** One registry entry. */
  datatype ContractEntry = ContractEntry(address: string, abi: Abi, instance: Instance)

  /** Why loading a contract threw. */
  datatype LoadError =
    | BuildUnreadable(contractName: string) // the build file is missing or is not JSON
    | AbiNotFound(contractName: string)     // no ABI under the contract's name
    | NoProvider                            // the node connection was never created
    | InvalidAddress(message: string)       // the contract object rejects the address, with web3's message
  {
    function Message(): string {
      match this
      case BuildUnreadable(n) => "cannot read build/" + n + ".json"
      case AbiNotFound(n) => "ABI not found for contract " + n
      case NoProvider => "Cannot read properties of undefined (reading 'eth')"
      case InvalidAddress(m) => m
    }
  }

  /**
   * The index of the first file entry, at or after `from`, that declares a
   * contract called exactly `name`.
   */
  function FirstDeclaring(data: Output, name: string, from: nat): (r: Option<nat>)
    requires from <= |data|
    ensures r.Some? ==> from <= r.value < |data| && name in data[r.value].1
    ensures r.Some? ==> forall j :: from <= j < r.value ==> name !in data[j].1
    ensures r.None? ==> forall j :: from <= j < |data| ==> name !in data[j].1
    decreases |data| - from
  {
    if from == |data| then None
    else if name in data[from].1 then Some(from)
    else FirstDeclaring(data, name, from + 1)
  }

  /**
   * The ABI the loader settles on: the one of the first file entry declaring
   * the contract. The search stops there even when that entry has no ABI.
   */
  function AbiIn(data: Output, name: string): (abi: Option<Abi>)
    ensures abi.Some? ==> exists i :: 0 <= i < |data| && name in data[i].1 && data[i].1[name].abi == abi
    ensures (forall i :: 0 <= i < |data| ==> name !in data[i].1) ==> abi.None?
  {
    match FirstDeclaring(data, name, 0)
    case None => None
    case Some(i) => data[i].1[name].abi
  }

  /** The file-entry search of the loader, a loop that breaks at the first entry declaring the contract. */
  method FindAbi(data: Output, contractName: string) returns (abi: Option<Abi>)
    ensures abi == AbiIn(data, contractName)
  {
    abi := None;
    var i := 0;
    while i < |data|
      invariant 0 <= i <= |data|
      invariant FirstDeclaring(data, contractName, 0) == FirstDeclaring(data, contractName, i)
      invariant abi.None?
    {
      if contractName in data[i].1 {
        abi := data[i].1[contractName].abi;
        return;
      }
      i := i + 1;
    }
  }

  /** A method call on a contract object, as handed to the transaction helpers. */
  datatype MethodCall = MethodCall(contract: Instance, methodName: string, args: seq<Json>)

  /** A transaction as sent to the node: the call and the sender, if any. */
  datatype TxRequest = TxRequest(call: MethodCall, from: Option<string>)

  /** What the node answers to a transaction: a receipt, or the error thrown (`""` for no message). */
  datatype TxReply = Mined(transactionHash: string, blockNumber: int, gasUsed: int) | TxThrew(message: string)

  /** The record `sendTransaction` resolves to. */
  datatype TxResult =
    | TxSucceeded(transactionHash: string, blockNumber: int, gasUsed: int)
    | TxFailed(error: string)

  /** What the node answers to a view call: the data, or the error thrown (`""` for no message). */
  datatype ViewReply<T> = Returned(data: T) | ViewThrew(message: string)

  /** The record `callView` resolves to. */
  datatype ViewResult<T> = ViewOk(data: T) | ViewFailed(error: string)

  /**
   * `callView`: the outcome of the call becomes a record; it never throws and a
   * failure always carries a message.
   */
  function CallView<T>(reply: ViewReply<T>): (r: ViewResult<T>)
    ensures r.ViewOk? <==> reply.Returned?
    ensures r.ViewOk? ==> r.data == reply.data
    ensures r.ViewFailed? ==> r.error != ""
    ensures r.ViewFailed? && reply.message != "" ==> r.error == reply.message
    ensures r.ViewFailed? && reply.message == "" ==> r.error == "View call failed"
  {
    match reply
    case Returned(d) => ViewOk(d)
    case ViewThrew(m) => ViewFailed(if m != "" then m else "View call failed")
  }

  /** The connection and the contract registry, which the library keeps in module-level variables. */
  class Session {
    /** The node connection has been created. */
    var connected: bool
    /** The account transactions are sent from by default; unset until an account is accepted. */
    var defaultAccount: Option<string>
    /** The loaded contracts, by name. */
    var contracts: map<string, ContractEntry>

    constructor()
      ensures !connected && defaultAccount.None? && contracts == map[]
    {
      connected := false;
      defaultAccount := None;
      contracts := map[];
    }

    /**
     * `initWeb3`: connects, then derives the account from the tag's private
     * key. The connection is created before the account is checked, so it
     * exists even when the check or the derivation throws; the default
     * account changes only when both succeed.
     */
    method InitWeb3(accounts: AccountFile, accountTag: string, addressOf: string -> Result<string, string>)
      returns (r: Result<string, string>)
      modifies this
      ensures connected && contracts == old(contracts)
      ensures r == DeriveAccount(accounts, accountTag, addressOf)
      ensures defaultAccount == if r.Ok? then Some(r.value) else old(defaultAccount)
    {
      connected := true;
      var key := CheckAccount(accounts, accountTag);
      if key.Err? {
        return Err(key.error);
      }
      var address := addressOf(key.value);
      if address.Err? {
        return Err(address.error);
      }
      defaultAccount := Some(address.value);
      r := Ok(address.value);
    }

    /**
     * `loadContract`: reads the contract's build file (`builds` holds the build
     * files that can be read, by contract name), takes the ABI of the first
     * entry declaring the contract, and registers a contract object for it at
     * `address`, replacing any earlier entry. `checkAddress` is web3's address
     * validation in the contract constructor: nothing for an address it
     * accepts, else the message it throws. When it throws, the registry is
     * unchanged.
     */
    method LoadContract(builds: map<string, Output>, contractName: string, address: string,
                        checkAddress: string -> Option<string>)
      returns (r: Result<Instance, LoadError>)
      modifies this
      ensures connected == old(connected) && defaultAccount == old(defaultAccount)
      ensures r.Ok? <==> && connected && contractName in builds && AbiIn(builds[contractName], contractName).Some?
                         && checkAddress(address).None?
      ensures r.Ok? ==> r.value == Instance(AbiIn(builds[contractName], contractName).value, address)
      ensures r.Ok? ==> contracts == old(contracts)[contractName := ContractEntry(address, r.value.abi, r.value)]
      ensures r.Err? ==> contracts == old(contracts)
      ensures r.Err? && contractName !in builds ==> r.error == BuildUnreadable(contractName)
      ensures r.Err? && contractName in builds && AbiIn(builds[contractName], contractName).None?
        ==> r.error == AbiNotFound(contractName)
      ensures r.Err? && contractName in builds && AbiIn(builds[contractName], contractName).Some? && !connected
        ==> r.error == NoProvider
      ensures r.Err? && contractName in builds && AbiIn(builds[contractName], contractName).Some? && connected
        ==> r.error == InvalidAddress(checkAddress(address).value)
    {
      if contractName !in builds {
        return Err(BuildUnreadable(contractName));
      }
      var abi := FindAbi(builds[contractName], contractName);
      if abi.None? {
        return Err(AbiNotFound(contractName));
      }
      if !connected {
        return Err(NoProvider);
      }
      var rejected := checkAddress(address);
      if rejected.Some? {
        return Err(InvalidAddress(rejected.value));
      }
      var instance := Instance(abi.value, address);
      contracts := contracts[contractName := ContractEntry(address, abi.value, instance)];
      r := Ok(instance);
    }

    /** `getContract`: the registered contract object, or the not-loaded error. */
    function GetContract(contractName: string): (r: Result<Instance, string>)
      reads this
      ensures r.Ok? <==> contractName in contracts
      ensures r.Ok? ==> r.value == contracts[contractName].instance
      ensures r.Err? ==> r.error == "Contract " + contractName + " not loaded. Call loadContract first."
    {
      if contractName in contracts then Ok(contracts[contractName].instance)
      else Err("Contract " + contractName + " not loaded. Call loadContract first.")
    }

    /** The sender of a transaction: the given address unless it is absent or empty, else the default account. */
    function Sender(fromAddress: Option<string>): (from: Option<string>)
      reads this
      ensures fromAddress.Some? && fromAddress.value != "" ==> from == fromAddress
      ensures fromAddress.None? || fromAddress == Some("") ==> from == defaultAccount
    {
      if fromAddress.Some? && fromAddress.value != "" then fromAddress else defaultAccount
    }

    /**
     * `sendTransaction`: sends `call` through `node` and turns the outcome into a
     * record; it never throws and a failure always carries a message.
     */
    function SendTransaction(call: MethodCall, fromAddress: Option<string>, node: TxRequest -> TxReply): (r: TxResult)
      reads this
      ensures var reply := node(TxRequest(call, Sender(fromAddress)));
        && (r.TxSucceeded? <==> reply.Mined?)
        && (r.TxSucceeded? ==> r == TxSucceeded(reply.transactionHash, reply.blockNumber, reply.gasUsed))
        && (r.TxFailed? ==> r.error != "")
        && (r.TxFailed? && reply.message != "" ==> r.error == reply.message)
        && (r.TxFailed? && reply.message == "" ==> r.error == "Transaction failed")
    {
      match node(TxRequest(call, Sender(fromAddress)))
      case Mined(h, b, g) => TxSucceeded(h, b, g)
      case TxThrew(m) => TxFailed(if m != "" then m else "Transaction failed")
    }
  }

  /** A contract loaded under one name is what `getContract` returns for it, and other names are unaffected. */
  lemma LoadThenGet(before: map<string, ContractEntry>, after: map<string, ContractEntry>,
                    name: string, instance: Instance, address: string, other: string)
    requires after == before[name := ContractEntry(address, instance.abi, instance)]
    requires other != name
    ensures name in after && after[name].instance == instance
    ensures (other in after <==> other in before) && (other in before ==> after[other] == before[other])
  {
  }

  /** The loader takes the first declaring entry's ABI, whatever later entries hold. */
  lemma FirstDeclarationWins(data: Output, name: string, i: nat)
    requires i < |data| && name in data[i].1
    requires forall j :: 0 <= j < i ==> name !in data[j].1
    ensures AbiIn(data, name) == data[i].1[name].abi
  {
  }
}
