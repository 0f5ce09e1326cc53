# BlockchainService, modelled in Dafny

A model of the browser-side facade `BlockchainService` of the redeemeum
client. The facade submits transactions to the Cashier and VoucherKernel
contracts and reads one named event's fields out of each mined receipt.
The model works under one abstraction. A receipt is a transaction hash plus
a sequence of events. Each event has a name and a map of named argument
values, already rendered as strings.

Modules:

- `Wrappers` (wrappers.dfy): `Option` (with `None` standing for `undefined`) and `Result` (with `Failure` standing for a thrown error).
- `Events` (events.dfy): receipts, events and `findEventByName`. The method `FindEventByName` is the imperative scan with its early return and inner field loop. It is proved equal to the functional specification `FindEvent`, which is built from `FirstMatch` and `BuildRecord`. The lemmas state first-match-wins, silent miss, the exact key set and failure on a missing field.
- `Contracts` (contracts.dfy): the closed set of contracts, the factory table `this.contracts` and the `getContractInstance` guard.
- `Operations` (operations.dfy): `processTx` and the table of the six domain operations. Each operation has one contract, one method, one event name and one field list. Sending a transaction and `tx.wait()` become a function parameter `send` from a contract call to the mined transaction.
- `Messages` (messages.dfy): the string `signMessage` builds. It is the EIP-191 "personal_sign" prefix (version byte 0x45), `"\x19Ethereum Signed Message:\n"`, followed directly by the nonce. EIP-191 puts the message length between the two; this code does not, and the model follows the code.
- `Service` (service.dfy): the `BlockchainService` class, the module-level `instance` variable as the class `ModuleScope`, the lazy `getInstance` and the module's default export.

How `getContractInstance` and the operations behind it fail:

- Only a missing or empty name gets the explicit error "No Contract Name has been provided" (BlockchainService.js:66). For an unknown name, `this.contracts[name]` is undefined and calling it throws a TypeError (BlockchainService.js:67). The model keeps the two apart: `NoContractName` and `UnknownContract`.
- Every call runs the factory again, so a new contract handle is built each time (BlockchainService.js:25-27); nothing is cached. The model returns only which contract was resolved.
- When `window.ethereum` is absent, `this.provider` stays undefined (BlockchainService.js:20-22). Each factory then asks `this.getSigner()` for the signer, which reads `getSigner` of undefined (BlockchainService.js:36) and throws. So every domain operation fails; the model records this as `NoProvider`.

`CONTRACT_NAMES` is defined in ContractNames.js, which is not part of this model. Its three values are the parameter `NameTable`. `WellFormed` names the case where they are non-empty and pairwise distinct. The lemmas about the operations assume this case. Without it, the model still says what happens: equal names make the later table entry win, and an empty name makes every operation on that contract fail with `NoContractName`.

## Model

| member | source | states |
|---|---|---|
| `Events.Matches` | BlockchainService.js:50 | an event matches only if it has a decoded name, and that name is the requested one |
| `Events.FirstMatch` | BlockchainService.js:49-51 | the index returned is of an event with the requested name and no earlier event has it; `None` exactly when no event has it; undecoded logs never match |
| `Events.FillFields` | BlockchainService.js:57-59 | assigning the fields left to right succeeds iff every field is an argument; on failure it names the first missing field; on success the keys are the old keys plus the fields, each field holding its argument and every other key its old value |
| `Events.BuildRecord` | BlockchainService.js:53-59 | the record's keys are exactly `txHash` plus the requested fields; each field holds the event's argument; `txHash` holds the receipt hash unless `txHash` is itself requested, in which case the event's value overwrites it; it fails only at a requested field the event lacks |
| `Events.FindEvent` | BlockchainService.js:48-63 | the specification of the extraction: `undefined` exactly when no event matches; a returned record holds `txHash` and every requested field; an error names a requested field |
| `Events.FindEventByName` | BlockchainService.js:48-63 | the loop with early return and the inner field loop compute exactly the specification `FindEvent` |
| `Events.SilentMiss` | BlockchainService.js:48-63 | the result is `undefined` (`Success(None)`) iff no event in the receipt has the requested name |
| `Events.FirstMatchWins` | BlockchainService.js:49-61 | when an event with the name follows only non-matching events, the result is the record built from it, whatever events come after it |
| `Events.FoundRecordShape` | BlockchainService.js:53-60 | a returned record comes from the first matching event and has exactly the keys `txHash` plus the fields, with that event's values and the `txHash` override rule |
| `Events.MissingFieldFails` | BlockchainService.js:57-59 | the call throws iff some event matches and the first such event lacks a requested field; the error names the first missing field and no partial record is returned |
| `Contracts.KeyOf` | BlockchainService.js:25-27 | each `CONTRACT_NAMES` value is a key of the factory table; with well-formed names it is non-empty and its entry builds that contract |
| `Contracts.Registry` | BlockchainService.js:24-28 | the factory table has exactly the three contract names as keys; a later entry wins when names coincide |
| `Contracts.GetContractInstance` | BlockchainService.js:65-67 | a missing or empty name fails with `NoContractName` before the table is consulted; otherwise it succeeds iff the name is a key and a wallet provider is present, and yields that key's contract; an unknown non-empty name fails with `UnknownContract`, and a known one without a provider with `NoProvider` |
| `Contracts.LookupResolves` | BlockchainService.js:24-28 | with well-formed names and a wallet provider, lookup yields contract `c` iff the name given is `c`'s name |
| `Operations.Target` | BlockchainService.js:71-110 | the two payable requests use the Cashier contract and the four voucher operations the VoucherKernel; no operation uses the token contract |
| `Operations.MethodName` | BlockchainService.js:72-111 | the methods called on the Cashier are exactly `requestCreateOrder` and `requestVoucher` |
| `Operations.Invocation` | BlockchainService.js:72-111 | the call goes to the resolved contract and method with exactly the caller's arguments, followed by `{ value }` only for the two payable operations |
| `Operations.ExpectedEvent` | BlockchainService.js:76-113 | every operation expects a `Log` event |
| `Operations.EventIdentifiesMethod` | BlockchainService.js:70-114 | two operations expect the same event iff they call the same contract method |
| `Operations.EventFields` | BlockchainService.js:76-113 | no operation's field list contains `txHash` or repeats a field |
| `Operations.ProcessTx` | BlockchainService.js:116-119 | the result is `findEventByName` applied to the mined receipt with the same event name and field list |
| `Operations.Outcome` | BlockchainService.js:70-119 | the specification of a domain operation: without a wallet provider it fails in the contract lookup; an extraction error names one of the operation's fields; a returned record holds `txHash` |
| `Operations.OperationDelegates` | BlockchainService.js:70-114 | with well-formed names, an operation fails with `NoProvider` when no wallet provider was injected; otherwise its result is the extraction of its fixed event and fields from the receipt of its call on its own contract |
| `Operations.OperationRecord` | BlockchainService.js:70-114 | a record returned by an operation has exactly one entry more than its field list, `txHash` plus its fields, and `txHash` is the mined receipt's hash |
| `Operations.OperationSilentMiss` | BlockchainService.js:70-114 | an operation returns `undefined` iff a wallet provider is present and the mined receipt has no event of the operation's name |
| `Messages.PersonalMessage` | BlockchainService.js:44 | the message is the 26-character prefix followed by the nonce, with nothing between |
| `Messages.NonceOf` | BlockchainService.js:44 | a nonce is read back exactly from strings that start with the prefix |
| `Messages.PrefixLayout` | BlockchainService.js:44 | the prefix is the byte 0x19, `Ethereum Signed Message:` and a newline, 26 characters in all |
| `Messages.NonceRoundTrip` | BlockchainService.js:44 | reading the nonce back from its message gives the nonce |
| `Messages.MessageRoundTrip` | BlockchainService.js:44 | every string with the prefix is the message of the nonce read from it |
| `Messages.MessageInjective` | BlockchainService.js:44 | distinct nonces give distinct messages |
| `Messages.NonceFollowsPrefix` | BlockchainService.js:44 | no length field: the nonce's first character is the message's 27th |
| `Service.BlockchainService.constructor` | BlockchainService.js:19-28 | the service records whether a wallet provider is injected and builds the factory table from the contract names |
| `Service.BlockchainService.Perform` | BlockchainService.js:70-119 | a domain operation resolves its contract, makes its call and extracts its event, as the specification `Outcome` says; lookup errors, including the missing provider, and extraction errors propagate |
| `Service.ModuleScope.constructor` | BlockchainService.js:7 | the module-level instance starts unset |
| `Service.ModuleScope.GetInstance` | BlockchainService.js:11-17 | constructs a fresh service only when the instance is unset; otherwise it returns the stored object and leaves it unchanged; afterwards the instance is set to the object returned |
| `Service.LoadModule` | BlockchainService.js:123 | the default export is a fresh service and is the stored instance |
| `Service.GetInstanceTwice` | BlockchainService.js:11-17 | two consecutive calls return the same object, the one already stored if there was one |

## Left out

- `ethers` objects: `Web3Provider`, `getSigner`, `getUserAddress`, `getNetworkId` and `new ethers.Contract` (BlockchainService.js:20-41) are foreign library calls over browser-injected state and environment addresses. The service keeps only a flag for `window.ethereum`, and a contract handle is represented by its `ContractName`.
- Transaction submission and `tx.wait()` are network I/O. They are the parameter `send`. A reverted transaction or an unreachable network, which the source lets propagate, is not modelled: `send` always answers.
- The smart contracts and their interface files are external. Whether the resolved contract actually has the method called is not modelled.
- The cryptographic signing in `signMessage` and `toUtf8Bytes` are foreign calls. Only the message string is modelled, with the nonce taken as already converted to a string.
- Rendering argument values (`BigNumber` and address `toString()`) is library formatting; argument values are strings in the model. A `null` argument value, whose `toString()` would also throw, is not modelled.
- Async behaviour and the interleaving of overlapping calls are not modelled; nothing in the source orders them.
- Events.FindEventByName: JavaScript object semantics are not modelled. The record is a map, so property order is lost. The special key `__proto__`, which does not become an own property when assigned, is treated like any other key. `for...in` is taken to visit only the array's indices, in order, and a receipt without `events` is a receipt with no events.
- Service.BlockchainService.Perform: the caller's `contractArgs` is always a sequence. In the source, a missing `contractArgs` makes the spread at BlockchainService.js:72 and :81 throw, and the model does not have that failure. When `window.ethereum` is present but the `web3` global is not, the constructor throws at BlockchainService.js:21; the model does not have that failure either.
- Messages.PersonalMessage: JavaScript strings are sequences of UTF-16 code units, while Dafny strings are sequences of Unicode characters. Lengths and indices therefore differ for a nonce with characters outside the Basic Multilingual Plane. The prefix is ASCII, so the layout and round-trip lemmas hold under either reading.
- Contracts.GetContractInstance: names inherited from `Object.prototype` ("toString", "constructor", ...) are treated as unknown. In the source, looking one of them up finds an inherited function and calls it. Falsy non-string names (`0`, `false`, `null`) are folded into the missing case `None`.
