/**
 * The account-tag check shared by both deployment scripts and `initWeb3`:
 * the tag must name an entry of the accounts file whose `pvtKey` is a string.
 */
module Accounts {
  import opened Wrappers
  import opened Js

  /** One entry of the accounts file. */
  datatype AccountEntry = AccountEntry(pvtKey: Json)

  /** The accounts file, by tag. */
  type AccountFile = map<string, AccountEntry>

  /**
   * The account lookup: the entry for the tag must exist and carry its private
   * key as a string. The result is the private key, or the message of the error thrown.
   */
  function CheckAccount(accounts: AccountFile, tag: string): (r: Result<string, string>)
    ensures r.Ok? <==> tag in accounts && accounts[tag].pvtKey.Str?
    ensures r.Ok? ==> r.value == accounts[tag].pvtKey.s
    ensures r.Err? ==> r.error == "Account tag '" + tag + "' not found or invalid in accounts.json"
  {
    if tag in accounts && accounts[tag].pvtKey.Str? then Ok(accounts[tag].pvtKey.s)
    else Err("Account tag '" + tag + "' not found or invalid in accounts.json")
  }

  /**
   * The account a script or the library acts as: the tag's private key,
   * turned into an address by `addressOf`, which stands for the library's
   * key derivation and gives the message it throws for a key it rejects.
   */
  function DeriveAccount(accounts: AccountFile, tag: string, addressOf: string -> Result<string, string>)
    : (r: Result<string, string>)
    ensures r.Ok? <==> CheckAccount(accounts, tag).Ok? && addressOf(CheckAccount(accounts, tag).value).Ok?
    ensures r.Ok? ==> r.value == addressOf(CheckAccount(accounts, tag).value).value
    ensures CheckAccount(accounts, tag).Err? ==> r == Err(CheckAccount(accounts, tag).error)
    ensures CheckAccount(accounts, tag).Ok? && addressOf(CheckAccount(accounts, tag).value).Err?
      ==> r == Err(addressOf(CheckAccount(accounts, tag).value).error)
  {
    match CheckAccount(accounts, tag)
    case Err(m) => Err(m)
    case Ok(key) => addressOf(key)
  }
}
