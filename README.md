# Cake supply chain: deployment executor, sensor validator, API decisions and web3 registry

This project models in Dafny the core logic of a cake supply-chain system built around a
set of Ethereum contracts (role manager, lifecycle registry, cake factory, shipper,
warehouse, sensor oracle, auditor). It covers four parts.

- **The deployment-plan executor** (`DeployExecutor`, with its properties in
  `DeployProperties` and concrete runs in `DeployScenarios`). This is the `main` routine
  that both deployment scripts share. It does the following:
  - seeds a symbol table `addr` from the command line;
  - walks the plan in list order and substitutes `$`-placeholders in constructor arguments;
  - finds each contract's compiled artifact by a case-insensitive first-match on the
    compiler-output keys;
  - deploys through the ledger and records `$<name>` with the address returned;
  - runs the post-deploy wiring calls;
  - stops at the first failure with exit code 1, rolling nothing back;
  - on success, prints a summary of every table entry.

  `ExecutePlan` is the loop as the scripts run it, updating the table in place. It is
  proved to compute the recursive specification `RunPlan`, and the lemmas are stated
  about `RunPlan`. The two scripts run the same executor with different plans: they are
  `BackendDeployAll` and `SrcDeployAll`. For each plan the model proves:
  - every placeholder is bound before it is used;
  - no argument is literally undefined;
  - names are distinct;
  - the plan's one wiring entry calls `SensorOracle.setShipment` with the address just
    recorded for `Shipper`;
  - the `Deploy` entry point deploys in plan order from the tag's account, prints the
    seeds and then one line per contract, and passes nothing undefined to the ledger when
    all four command-line arguments are given.
- **The sensor-threshold validator** (`ValidateReadings`). It classifies a reading
  against fixed inclusive bounds. It reports at most one violation, and checks them in a
  fixed priority order.
- **The decisions of the HTTP API** (`Server`), which covers:
  - the all-violations alert list of the sensor-data endpoint, and its rule that only
    out-of-range readings are logged and reach the chain;
  - the create-batch parameter check and its database-sync gate;
  - the status whitelist;
  - the compliance analysis of the audit report;
  - the admin contract-address update loop.

  The `Api` class holds the server's address table and the web3 session it uses.
- **The web3 helper library** (`Web3Lib`):
  - `initWeb3`'s account check and key derivation;
  - the registry of loaded contracts, with `loadContract`'s first-match ABI search and
    `getContract`'s not-loaded error;
  - `sendTransaction` and `callView`, which turn outcomes into result records and never
    throw.

Everything outside the program is a parameter:
- The ledger seen by the deployment scripts is `ledger: nat -> Receipt`, its answer to
  the n-th request.
- The node seen by the server is `node: TxRequest -> TxReply`.
- The database is `db: Effect -> Option<string>`, which gives `None` for a write that
  succeeds and the thrown message otherwise.
- The compiler output is `Output`, a sequence of (source key, contracts by name) pairs.
- The readable build files are `builds`, and the accounts file is `accounts`.
- Deriving an address from a private key is the `addressOf` parameter. It gives the
  address, or the message the derivation throws for a key it rejects.
- web3's validation of a contract address is the `checkAddress` parameter. It gives
  nothing for an address it accepts, or the message it throws.
- web3's validation of a call's arguments, done when a handler builds the call and
  before anything is sent, is the `checkArgs` parameter. It gives nothing for arguments
  it accepts, or the message it throws.

Handlers return their reply together with the database writes and transactions they
attempt, in order.

JavaScript scalar values are the datatype `Js.Json`: undefined, null, booleans, integers
and strings (arrays and objects are left out). Two behaviours of the code that a reader
may not expect are modelled as written:
- a placeholder that the table does not bind is not an error: it becomes `undefined` and
  is passed to the ledger (`DeployScenarios.UnboundPlaceholderIsSentAsUndefined`);
- the closing summary prints every entry of the table, including the four seed entries,
  before the deployed contracts (`DeployProperties.SeededSummary`).

## Model

| member | source | states |
|---|---|---|
| Js.IncludesAt | backend/src/deployAll.ts:113 | substring containment holds exactly when the needle occurs at some position of the string |
| Js.IncludesInfixIgnoringCase | backend/src/deployAll.ts:94 | a key that contains the name in any letter case matches it case-insensitively |
| Accounts.CheckAccount | backend/src/web3-lib.ts:25-28 | the tag is accepted exactly when it names an entry whose private key is a string; otherwise the error carries the tag in the script's message |
| Accounts.DeriveAccount | backend/src/deployAll.ts:76-80 | an account is derived exactly when the tag passes the account check and its private key derives; the error is the check's message, else the derivation's |
| Artifacts.FirstMatchFrom | backend/src/deployAll.ts:93-94 | the index found is the first key, from the start position on, that contains the name ignoring case; none is found only when no such key exists |
| Artifacts.FirstMatchingKey | src/deployAll.ts:73-74 | the artifact key is the first key of the compiler output that contains the name ignoring case; no earlier key matches |
| DeployExecutor.Table.Set | backend/src/deployAll.ts:106 | recording a symbol binds it to the value, leaves every other binding unchanged, never removes a key, keeps the existing key order as a prefix, and preserves table validity |
| DeployExecutor.Seed | backend/src/deployAll.ts:85-90 | the initial table binds Admin and ShipperEOA to the admin address and Sensor and SensorEOA to the sensor address, in that key order |
| DeployExecutor.SubstituteAll | backend/src/deployAll.ts:99-100 | substitution keeps length and order; non-placeholders pass through unchanged, bound placeholders become their table value, unbound ones become undefined |
| DeployExecutor.WireCallArgs | backend/src/deployAll.ts:119-121 | wiring arguments are substituted like constructor arguments; a single non-array argument becomes a one-element list |
| DeployExecutor.ResolveArtifact | backend/src/deployAll.ts:93-95 | the artifact is found exactly when the first matching key exists and holds a contract of that name, and it is that contract |
| DeployExecutor.DeployStep | backend/src/deployAll.ts:93-107 | at most one request is appended; a completed step sent exactly one, the ledger confirmed it, and the item's symbol is bound to the address returned (or "") as the one new key |
| DeployExecutor.WireStep | backend/src/deployAll.ts:111-128 | the table is never written; at most one request is appended, and it is a call to the entry's target |
| DeployExecutor.WireAll | backend/src/deployAll.ts:110-130 | the wiring loop never writes the table, appends at most one request per entry, and does nothing after a failure |
| DeployExecutor.RunItem | backend/src/deployAll.ts:92-130 | an item appends at most its deployment and one call per wiring entry; when it completes, the ledger confirmed its deployment and its symbol is bound to the address returned as the one new key |
| DeployExecutor.RunPlan | backend/src/deployAll.ts:92-131 | requests are only ever appended, and once the run has failed no further item runs |
| DeployExecutor.SummaryOf | backend/src/deployAll.ts:134 | at most one line per key |
| DeployExecutor.Summary | backend/src/deployAll.ts:133-134 | at most one summary line per table entry |
| DeployExecutor.ExecutePlan | backend/src/deployAll.ts:92-131 | the in-place plan loop with its nested wiring loop yields exactly the table, requests and failure of the plan specification |
| DeployExecutor.RunScript | backend/src/deployAll.ts:51-137 | a mode other than deploy exits with 1 before compiling; a failed compile, a bad account tag or a private key the derivation rejects exits with 1 before any ledger request; every request is sent from the derived account; otherwise the exit code, requests and summary are those of the plan run from the seed |
| DeployProperties.DeployStepShape | backend/src/deployAll.ts:93-107 | a failed lookup stops without contacting the ledger; otherwise exactly one deployment with the substituted arguments is sent, and the symbol is recorded exactly when the ledger confirms, with the address or "" |
| DeployProperties.WiringKeepsTable | backend/src/deployAll.ts:110-130 | wiring never changes the table, only appends requests, and deploys nothing; after a failure it does nothing |
| DeployProperties.WireStepShape | backend/src/deployAll.ts:111-128 | one wiring entry keeps the table and only appends a call, never a deployment |
| DeployProperties.WireStepSends | backend/src/deployAll.ts:111-128 | with a resolved target and a declared method, exactly one call goes to the address recorded for the target, naming the method, with the substituted arguments, and succeeds exactly when the ledger confirms it; a failed lookup, a non-string method name or an undeclared method fails with that error and contacts no ledger |
| DeployProperties.RunItemWithOneCall | backend/src/deployAll.ts:92-128 | an item with one resolvable wiring entry sends its deployment and then that call, made with the table as the deployment left it, and completes exactly when the ledger confirms the call |
| DeployProperties.DeployThenCallSelf | backend/src/deployAll.ts:96-124 | an item that calls a method of its own contract sends that call to the address just recorded for it, with the other symbol's current value |
| DeployProperties.WiringAbortIsFinal | backend/src/deployAll.ts:123-127 | once a wiring entry fails, no later wiring entry of the item runs |
| DeployProperties.RunItemRecordsAddress | backend/src/deployAll.ts:106 | after a completed item, its symbol is bound to the address the ledger returned for its deployment (or ""), and nothing else changed |
| DeployProperties.RunPlanAppend | backend/src/deployAll.ts:92 | running two plan parts in sequence is running the first, then the second from where the first stopped |
| DeployProperties.AbortIsFinal | backend/src/deployAll.ts:137 | after a failure no later item runs and nothing already done is undone |
| DeployProperties.LookupFailureStopsBeforeLedger | backend/src/deployAll.ts:93-95 | when the lookup of item k fails, the run ends with exactly the requests and table of the items before k |
| DeployProperties.RunPlanGrowsTable | backend/src/deployAll.ts:106 | the table only grows: key order extended, no binding removed, keys other than the plan's symbols unchanged, requests only appended |
| DeployProperties.RunItemDeploysOnce | backend/src/deployAll.ts:102-130 | one item deploys at most one contract, its own, and exactly that one when it completes |
| DeployProperties.DeploysInPlanOrder | backend/src/deployAll.ts:92-107 | the contracts deployed are always a prefix of the plan's names in order, and all of them when the run succeeds |
| DeployProperties.SuccessBindsEverySymbol | backend/src/deployAll.ts:106 | after a successful run every item's symbol is bound |
| DeployProperties.PartialRunIsPlanPrefix | src/deployAll.ts:72-87 | from the start, a failed run has deployed a prefix of the plan and a successful one the whole plan |
| DeployProperties.WiringDefined | backend/src/deployAll.ts:111-124 | wiring entries whose targets and placeholders are bound to strings send no undefined target or argument |
| DeployProperties.KnownBeforeGrows | backend/src/deployAll.ts:92-106 | the symbols bound before an item runs include the starting ones and the `$` symbol of every earlier item, as the loop records each address under `$` plus the item's name |
| DeployProperties.WellOrderedByItems | backend/src/deployAll.ts:92-131 | a plan whose every item uses only symbols bound before it (its wiring also its own) is well ordered, for any plan and starting symbols |
| DeployProperties.WellOrderedRunIsDefined | backend/src/deployAll.ts:92-131 | a well-ordered plan without undefined literals, run on a table binding its known symbols to strings, never passes undefined to the ledger |
| DeployProperties.SummaryOfSymbols | backend/src/deployAll.ts:134 | for keys that all start with "$", the summary has one line per key, the key without "$" followed by its value |
| DeployProperties.SummaryListsEveryEntry | backend/src/deployAll.ts:134 | the summary prints every entry of the table, in table order, without the leading "$" |
| DeployProperties.FreshSymbolsAppendInOrder | backend/src/deployAll.ts:106 | with new and distinct names, a successful run leaves the starting keys followed by one symbol per item in plan order |
| DeployProperties.RunKeepsSymbolKeys | backend/src/deployAll.ts:106 | every key the run adds begins with "$" |
| DeployProperties.SuccessfulRunSummary | backend/src/deployAll.ts:133-134 | after a successful run the summary lists the starting entries with their unchanged values, then one line per item in plan order with the address recorded for it |
| DeployProperties.SummaryStartsWithSeed | backend/src/deployAll.ts:134 | the first summary lines of an extended table are the starting entries with their unchanged values |
| DeployProperties.SummaryEndsWithItems | backend/src/deployAll.ts:134 | after the starting entries come the items' lines, in plan order |
| DeployProperties.SeededRunIsDefined | backend/src/deployAll.ts:85-105 | with both addresses given, a plan well ordered over the seed never passes undefined, whatever the ledger answers |
| DeployProperties.SeedShape | backend/src/deployAll.ts:85-90 | the seed table is valid, binds exactly the four seed symbols, and prints them as Admin, Sensor, SensorEOA, ShipperEOA |
| DeployProperties.SeedLines | backend/src/deployAll.ts:134 | a successful run's summary begins with the summary of its starting table |
| DeployProperties.SeedSummary | backend/src/deployAll.ts:134 | the seed's own summary is the four lines Admin, Sensor, SensorEOA, ShipperEOA with the command-line addresses |
| DeployProperties.ItemLines | backend/src/deployAll.ts:134 | after the starting entries, each summary line starts with its item's name, in plan order |
| DeployProperties.SeededSummary | backend/src/deployAll.ts:133-134 | a successful run from the seed prints the four seed lines, then one line per item in plan order |
| DeployProperties.PlanRunGuarantees | backend/src/deployAll.ts:85-134 | for any plan well ordered over the seed, without undefined literals and with distinct new names: a prefix of the plan is deployed in order (all of it on success), a successful run prints the four seeds then one line per item, and with both addresses given nothing undefined is sent |
| DeployScenarios.LookupChain | src/deployAll.ts:73-75 | with one source per contract, each contract resolves to its own source |
| DeployScenarios.ChainFirstItem | src/deployAll.ts:79-86 | a first item taking $Admin is deployed with the admin address and records the returned address |
| DeployScenarios.ChainSecondItem | src/deployAll.ts:79-86 | a later item taking an earlier item's symbol receives the address recorded for it |
| DeployScenarios.TwoItemRun | src/deployAll.ts:72 | a two-item plan whose first item completes runs the second item from the state the first left |
| DeployScenarios.UnboundPlaceholderIsSentAsUndefined | backend/src/deployAll.ts:99-100 | a placeholder nothing binds is sent to the ledger as undefined and the run goes on |
| DeployScenarios.KeyContainingNameResolves | backend/src/deployAll.ts:93-95 | a source key containing the name in any case resolves it |
| DeployScenarios.EarlierKeyShadows | backend/src/deployAll.ts:93-95 | the first matching key is the only one consulted, so a later key holding the contract is never reached |
| DeployScenarios.OracleShadowedBySensorOracle | backend/src/deployAll.ts:93-95 | a SensorOracle key listed first shadows an Oracle key for the name Oracle |
| BackendDeployAll.ItemIsBound | backend/src/deployAll.ts:16-40 | each item's constructor placeholders are seed symbols or earlier items' symbols; its wiring may also use its own |
| BackendDeployAll.PlanIsWellOrdered | backend/src/deployAll.ts:16-40 | the backend plan is well ordered over the seed |
| BackendDeployAll.PlanHasNoUndefinedLiterals | backend/src/deployAll.ts:16-40 | no argument of the backend plan is literally undefined |
| BackendDeployAll.NamesAreFresh | backend/src/deployAll.ts:16-40 | the backend plan deploys each contract once and none under a seed symbol |
| BackendDeployAll.SetShipmentWiring | backend/src/deployAll.ts:30-34 | SensorOracle is deployed with the admin and sensor addresses and its setShipment is then called at its new address with the address recorded for Shipper; the item completes exactly when that call is confirmed |
| BackendDeployAll.Deploy | backend/src/deployAll.ts:46-137 | the backend script deploys a prefix of its plan in order from the account derived for the tag (the whole plan on exit 0), prints the seeds then one line per contract, and with four arguments sends nothing undefined |
| SrcDeployAll.ItemIsBound | src/deployAll.ts:17-26 | each item's placeholders are bound before use (the registry takes the earlier factory, the warehouse the earlier role manager) |
| SrcDeployAll.PlanIsWellOrdered | src/deployAll.ts:17-26 | the top-level plan is well ordered over the seed |
| SrcDeployAll.PlanHasNoUndefinedLiterals | src/deployAll.ts:17-26 | no argument of the top-level plan is literally undefined |
| SrcDeployAll.NamesAreFresh | src/deployAll.ts:17-26 | the top-level plan deploys each contract once and none under a seed symbol |
| SrcDeployAll.SetShipmentWiring | src/deployAll.ts:23-24 | SensorOracle is deployed with the admin and sensor addresses and its setShipment is then called at its new address with the address recorded for Shipper; the item completes exactly when that call is confirmed |
| SrcDeployAll.Deploy | src/deployAll.ts:31-113 | the top-level script deploys a prefix of its plan in order from the account derived for the tag (the whole plan on exit 0), prints the seeds then one line per contract, and with four arguments sends nothing undefined |
| ValidateReadings.Violates | backend/src/validateReadings.ts:9-15 | null exactly within all inclusive bounds; each violation exactly under its own condition, temperature before humidity and upper before lower |
| ValidateReadings.ViolationCode | backend/src/validateReadings.ts:9-15 | the result is null exactly within bounds and otherwise one of the four codes |
| ValidateReadings.BoundsAreInclusive | backend/src/validateReadings.ts:4-13 | the four corner readings pass and one step beyond each bound reports that bound |
| ValidateReadings.TemperatureTakesPriority | backend/src/validateReadings.ts:10-13 | a temperature violation is reported whatever the humidity |
| ValidateReadings.OnlyClimateMatters | backend/src/validateReadings.ts:9-15 | the verdict depends on temperature and humidity only, never on the batch |
| Web3Lib.FirstDeclaring | backend/src/web3-lib.ts:47-52 | the entry found is the first, from the start position on, that declares the contract; none only when no entry does |
| Web3Lib.AbiIn | backend/src/web3-lib.ts:47-52 | an ABI found belongs to an entry declaring the contract; with no declaring entry there is none |
| Web3Lib.FindAbi | backend/src/web3-lib.ts:46-52 | the search loop with its early exit yields the first declaring entry's ABI |
| Web3Lib.CallView | backend/src/web3-lib.ts:107-121 | success exactly when the call returned, with its data; a failure always carries a message, "View call failed" when none was thrown |
| Web3Lib.Session.constructor | backend/src/web3-lib.ts:8-19 | the library starts unconnected, with no default account and an empty registry |
| Web3Lib.Session.InitWeb3 | backend/src/web3-lib.ts:22-37 | the connection is created even when the account check or the key derivation throws; the answer is the derived account or the first error, and the default account changes exactly when both succeed |
| Web3Lib.Session.LoadContract | backend/src/web3-lib.ts:40-72 | success exactly when the build file is readable, declares an ABI, the node is connected and web3 accepts the address; then the entry replaces any earlier one under the name; on any error the registry is unchanged and the error is the first failing check's |
| Web3Lib.Session.GetContract | backend/src/web3-lib.ts:75-81 | returns the stored instance exactly for a loaded name, else the not-loaded error |
| Web3Lib.Session.Sender | backend/src/web3-lib.ts:89 | the given sender unless absent or empty, else the default account |
| Web3Lib.Session.SendTransaction | backend/src/web3-lib.ts:84-104 | success exactly when the node mined the transaction, with hash, block and gas; a failure always carries a message, "Transaction failed" when none was thrown |
| Web3Lib.LoadThenGet | backend/src/web3-lib.ts:60-64 | a contract loaded under a name is what the registry returns for it; other names are unaffected |
| Web3Lib.FirstDeclarationWins | backend/src/web3-lib.ts:47-52 | the first declaring entry's ABI is taken whatever later entries hold |
| Server.BrokenBoundsMeaning | backend/src/server.ts:496-508 | the broken bounds are exactly the bounds the reading breaks, each once, in check order |
| Server.Alerts | backend/src/server.ts:496-508 | at most four alerts; every alert is for a bound the reading breaks, and every broken bound has its alert |
| Server.AlertPerBrokenBound | backend/src/server.ts:496-508 | the alert list holds one alert per broken bound, position by position |
| Server.CollectAlerts | backend/src/server.ts:496-508 | the four sequential checks append exactly the alert list of the reading |
| Server.AtMostTwoAlerts | backend/src/server.ts:496-508 | with consistent limits a reading raises at most one temperature and one humidity alert |
| Server.AlertsAgreeWithValidator | backend/src/server.ts:917-927 | with the sample batch's limits, which equal the validator's, a reading raises no alert exactly when the validator accepts it, and otherwise the first alert is for the validator's verdict |
| Server.AlertLogs | backend/src/server.ts:515-518 | one alert write per alert, in alert order, with the alert's text |
| Server.WriteAll | backend/src/server.ts:515-518 | the writes attempted are a prefix of the logs, all of them when none threw; a failure follows at least one attempted write |
| Server.WriteAllMeaning | backend/src/server.ts:515-518 | the writes attempted are a prefix of the logs, all but the last succeeded, the failure reported is the last one's, and with no failure all were written |
| Server.WriteAllStops | backend/src/server.ts:515-518 | once a write throws, later writes are never attempted |
| Server.LogEachAlert | backend/src/server.ts:515-518 | the alert loop writes in order and stops at the first write that throws |
| Server.Api.SensorOutcome | backend/src/server.ts:485-541 | a clean reply has no effect and comes only for a complete request for a known batch within its limits; any effect needs a complete request for a known batch whose reading raises an alert; a submission's last effect is its transaction |
| Server.SensorEffects | backend/src/server.ts:485-513 | an incomplete request is refused with 400 with no effect; the reply is clean exactly for a known batch within its limits; any effect implies a known batch whose reading broke a bound |
| Server.SensorEffectsOfAlerts | backend/src/server.ts:511-536 | an out-of-range reading is submitted exactly when every alert write succeeded, the oracle is loaded and declares the method, and web3 accepts the call's arguments; the submission is the single last effect; when web3 rejects the arguments the reply is 500 with its message after all the writes; otherwise the effects are a prefix of the alert writes; success is reported exactly when the node mined the submission |
| Server.Api.SensorData | backend/src/server.ts:485-541 | the handler computes the reply and the effects the endpoint specification gives |
| Server.CreateBatchEffects | backend/src/server.ts:82-134 | a missing field is refused with 400 and no transaction; once past the contract and method lookup, a transaction is sent exactly when web3 accepts the createBatch arguments, and a rejection is 500 with web3's message and no effect; a sent transaction is one createBatch call with the six fields in order, and the database copy follows exactly when it was mined; error replies have no effect |
| Server.CreateBatchIgnoresDatabase | backend/src/server.ts:99-118 | a failing database copy never changes the reply |
| Server.Api.CreateBatch | backend/src/server.ts:82-134 | at most two effects, and some exactly for a result reply: the transaction first, then the database copy of the same batch exactly when the transaction succeeded |
| Server.StatusUpdate | backend/src/server.ts:885-904 | a status outside the six listed is refused with 400 and nothing written; a listed one is written once and confirmed exactly when the write succeeds |
| Server.StatusIsCaseSensitive | backend/src/server.ts:890-891 | statuses are compared exactly: a differently cased status is refused |
| Server.SensorSummaryOf | backend/src/server.ts:695-705 | the count is kept only when positive and fetched, the last reading only when it was fetched as well |
| Server.ComplianceOf | backend/src/server.ts:743-752 | each compliance flag is null exactly without a last reading and true exactly within the inclusive limits; completed exactly from status 3 on |
| Server.AuditOf | backend/src/server.ts:671-760 | 404 exactly when the record cannot be read; otherwise the sensor summary and the compliance analysis of its last reading |
| Server.ComplianceAgreesWithAlerts | backend/src/server.ts:744-749 | a reading is compliant exactly when it raises no alert of that kind |
| Server.CompletedFromDelivered | backend/src/server.ts:751 | if the registry numbers statuses in the order of the accepted status list, the completed statuses (3 and above) are Delivered, Spoiled and Audited |
| Server.AcceptedEntries | backend/src/server.ts:771-772 | exactly the entries with a non-empty string value are stored |
| Server.StoredKeepsOthers | backend/src/server.ts:771-776 | names the request does not give keep their address, or their absence |
| Server.StoredKeepsLast | backend/src/server.ts:771-776 | a name given several times ends with the last address given for it |
| Server.FirstUnloadable | backend/src/server.ts:771-776 | the index found is the first accepted entry whose contract cannot be loaded |
| Server.AdminUpdateOf | backend/src/server.ts:767-787 | no stored name is ever removed, and a successful update answers with the resulting address table |
| Server.AdminUpdateAllLoad | backend/src/server.ts:767-787 | when every accepted entry loads, all are stored and registered in order and the answer is the resulting table |
| Server.AdminUpdateStopsAt | backend/src/server.ts:767-787 | when the k-th accepted entry is the first that fails to load, entries up to and including it are stored, only earlier ones are registered, and the answer is the load error |
| Server.AdminUpdateRejectsAddress | backend/src/web3-lib.ts:58 | an entry whose address web3 rejects fails the admin update even with a readable build file, an ABI and a connected node: the address is stored, nothing is registered and the answer is web3's message |
| Server.Api.constructor | backend/src/server.ts:30 | the address table starts empty |
| Server.Api.UpdateContracts | backend/src/server.ts:767-787 | the in-place loop leaves the address table, the registry and the answer that the update specification gives, nothing rolled back |

## Left out

- Input and output are outside the model: process exit, console output, file reading,
  `writeOutput`, the Solidity compiler (`compileSols`), and the HTTP plumbing (routing,
  CORS, JSON bodies, the error and 404 middleware, the listen call). The compiler output,
  build files, accounts file, ledger, node and database are parameters.
- `backend/src/database.ts` is not part of this model. Database calls are effects whose
  outcome is the `db` parameter.
- Lines 1003 onwards of `backend/src/server.ts` are a stale duplicate of the file and are
  not modelled.
- The other endpoints in lines 1–1002 of `backend/src/server.ts` are not modelled. Each
  forwards request fields to a contract call or database query. Their own decisions are
  not modelled either: the 400 parameter checks at lines 141, 172, 271, 299, 329, 359,
  394, 424, 459 and 614, the empty-count branch at line 556, and the confirmation gate
  of the clear-data endpoint at line 803.
- The startup routine `initializeContracts` is not modelled. It reads environment
  variables, and its loading loop matches the admin update loop except that errors are
  only logged.
- `getBalance` and `getGasPrice` are not modelled: they are thin wrappers around node
  queries and a unit conversion.
- The key derivation itself (`privateKeyToAccount`) is the `addressOf` parameter: its
  address and the message it throws are given, not computed. Adding the account to the
  wallet and signing with it are not modelled; the account a request is sent from is.
- Floating point is not modelled: temperatures, humidities and limits are integers.
  `parseInt` on chain values is the identity on integers.
- Regular expressions are not modelled in general. The deploy-time artifact match, which
  builds a case-insensitive pattern from the contract name, is modelled as a
  case-insensitive substring match. That is exact for names made of letters and digits,
  as all plan names are. Only ASCII letters are case-folded.
- Property names inherited from the JavaScript object prototype are not modelled. Symbol
  and registry lookups consider only keys that were written.
- Js.Json: request fields are limited to undefined, null, booleans, integers and
  strings. Array and object values, which the JSON and URL-encoded body parsers can
  produce, are not modelled, so neither is their conversion in comparisons (an array
  `[30]` compares as 30).
- Server.Api.SensorOutcome, Server.Api.CreateBatch: which arguments web3 rejects when it
  builds a call (its type and encoding rules depend on the web3 version) is not
  modelled: it is the `checkArgs` parameter.
- Server.CollectAlerts: a temperature or humidity sent as a numeric string compares as
  NaN in this model, so it raises no alert. JavaScript would convert the string to a
  number first.
- Web3Lib.Session.LoadContract: when the build file cannot be read, the error message is
  a stand-in for the file system's own message. Only the kind of error is faithful. Which
  addresses web3 accepts (their format and checksum rules depend on the web3 version) is
  not modelled: it is the `checkAddress` parameter.
- DeployExecutor.DeployStep: an artifact without an ABI is deployed, and a wiring target
  without one fails as a missing method, where web3 would throw while building the
  contract object. This cannot arise from the compiler as it is configured: it is asked
  for every output of every contract, so each artifact carries an ABI.
- Server.AdminUpdateOf: the address table is a map, so the insertion order in which the
  admin endpoint's JSON reply lists the names is not modelled.
- Server.AuditOf: the 500 replies of the audit endpoint are not modelled. They occur when
  the registry, oracle or auditor contract was never loaded. The status history and the
  audit record are also left out: they are copied through unchanged.
