/**
 * `processTx` and the six domain operations. Each operation is a fixed
 * pairing of one contract, one contract method, one expected event name and
 * one ordered field list; sending the transaction and `tx.wait()` are
 * abstracted into a function from the contract call to the mined transaction.
 */
module Operations {
  import opened Wrappers
  import opened Events
  import opened Contracts

  /** A domain operation with its caller-supplied arguments. */
  datatype OpCall =
    | RequestCreateOrder(contractArgs: seq<string>, value: Option<string>)
    | CommitToBuy(contractArgs: seq<string>, value: Option<string>)
    | Redeem(voucherId: string)
    | Refund(voucherId: string)
    | Complain(voucherId: string)
    | CancelOrFault(voucherId: string)

  /** The trailing overrides object: the payable calls pass `{ value }`, even
      when `value` is undefined; the others pass none. */
  datatype Overrides = NoOverrides | WithValue(value: Option<string>)

  /** One call of a contract method, as the contract handle receives it. */
  datatype ContractCall = ContractCall(contract: ContractName, methodName: string, args: seq<string>, overrides: Overrides)

  /** A sent transaction; `minedReceipt` is what `tx.wait()` resolves to. */
  datatype SentTx = SentTx(minedReceipt: Receipt)

  /** What a domain operation throws. */
  datatype ServiceError = ContractLookup(lookup: ContractError) | Extraction(extract: ExtractError)

  /** Which `CONTRACT_NAMES` entry the operation asks the factory for: the two
      payable requests go to the Cashier, the voucher operations to the
      VoucherKernel; none uses the token contract. */
  function Target(op: OpCall): (c: ContractName)
    ensures c != Token
    ensures c == Cashier <==> Payable(op)
  {
    match op
    case RequestCreateOrder(_, _) => Cashier
    case CommitToBuy(_, _) => Cashier
    case _ => VoucherKernel
  }

  /** The operations that send `{ value }` with their call. */
  predicate Payable(op: OpCall)
  {
    op.RequestCreateOrder? || op.CommitToBuy?
  }

  /** The contract method the operation invokes; the methods invoked on the
      Cashier are exactly its two request methods. */
  function MethodName(op: OpCall): (m: string)
    ensures Target(op) == Cashier <==> m in {"requestCreateOrder", "requestVoucher"}
  {
    match op
    case RequestCreateOrder(_, _) => "requestCreateOrder"
    case CommitToBuy(_, _) => "requestVoucher"
    case Redeem(_) => "redeem"
    case Refund(_) => "refund"
    case Complain(_) => "complain"
    case CancelOrFault(_) => "cancelOrFault"
  }

  /** The call the operation makes on the contract handle `c`: the caller's
      positional arguments, spread, plus `{ value }` for the payable two. */
  function Invocation(c: ContractName, op: OpCall): (call: ContractCall)
    ensures call.contract == c && call.methodName == MethodName(op)
    ensures call.args == if Payable(op) then op.contractArgs else [op.voucherId]
    ensures call.overrides == if Payable(op) then WithValue(op.value) else NoOverrides
  {
    match op
    case RequestCreateOrder(args, value) => ContractCall(c, MethodName(op), args, WithValue(value))
    case CommitToBuy(args, value) => ContractCall(c, MethodName(op), args, WithValue(value))
    case Redeem(id) => ContractCall(c, MethodName(op), [id], NoOverrides)
    case Refund(id) => ContractCall(c, MethodName(op), [id], NoOverrides)
    case Complain(id) => ContractCall(c, MethodName(op), [id], NoOverrides)
    case CancelOrFault(id) => ContractCall(c, MethodName(op), [id], NoOverrides)
  }

  /** The event name handed to `processTx`: a `Log` event. */
  function ExpectedEvent(op: OpCall): (name: string)
    ensures |name| > 3 && name[..3] == "Log"
  {
    match op
    case RequestCreateOrder(_, _) => "LogOrderCreated"
    case CommitToBuy(_, _) => "LogVoucherDelivered"
    case Redeem(_) => "LogVoucherRedeemed"
    case Refund(_) => "LogVoucherRefunded"
    case Complain(_) => "LogVoucherComplain"
    case CancelOrFault(_) => "LogVoucherFaultCancel"
  }

  /** The field list handed to `processTx`, in order. None of them is `txHash`
      and none is repeated, so the record never loses the receipt's hash. */
  function EventFields(op: OpCall): (fields: seq<string>)
    ensures TxHashKey !in fields
    ensures forall i, j :: 0 <= i < j < |fields| ==> fields[i] != fields[j]
  {
    match op
    case RequestCreateOrder(_, _) => ["_tokenIdSupply", "_seller", "_promiseId", "_quantity"]
    case CommitToBuy(_, _) => ["_tokenIdSupply", "_tokenIdVoucher", "_issuer", "_holder", "_promiseId"]
    case Redeem(_) => ["_tokenIdVoucher", "_holder", "_promiseId"]
    case Refund(_) => ["_tokenIdVoucher"]
    case Complain(_) => ["_tokenIdVoucher"]
    case CancelOrFault(_) => ["_tokenIdVoucher"]
  }

  /** `processTx(tx, eventName, ...args)`: wait for the receipt, then hand it,
      the event name and the fields unchanged to `findEventByName`. */
  method ProcessTx(tx: SentTx, eventName: string, fields: seq<string>)
    returns (r: Result<Option<Record>, ExtractError>)
    ensures r == FindEvent(tx.minedReceipt, eventName, fields)
  {
    var txReceipt := tx.minedReceipt;
    r := FindEventByName(txReceipt, eventName, fields);
  }

  /** What a domain operation yields on a service whose factory table is
      `contracts` and whose provider is set iff `hasProvider`, when `send` is
      how the network answers a contract call. */
  function Outcome(contracts: map<string, ContractName>, hasProvider: bool, names: NameTable, op: OpCall,
                   send: ContractCall -> SentTx): (r: Result<Option<Record>, ServiceError>)
    ensures !hasProvider ==> r.Failure? && r.error.ContractLookup?
    ensures r.Failure? && r.error.Extraction? ==> r.error.extract.field in EventFields(op)
    ensures r.Success? && r.value.Some? ==> TxHashKey in r.value.value
  {
    match GetContractInstance(contracts, hasProvider, Some(KeyOf(names, Target(op))))
    case Failure(e) => Failure(ContractLookup(e))
    case Success(c) =>
      match FindEvent(send(Invocation(c, op)).minedReceipt, ExpectedEvent(op), EventFields(op))
      case Success(found) => Success(found)
      case Failure(e) => Failure(Extraction(e))
  }

  /** With well-formed contract names, an operation fails without a wallet
      provider; with one, its result is the extraction of its fixed event and
      fields from the receipt of its call on its own contract. */
  lemma OperationDelegates(names: NameTable, hasProvider: bool, op: OpCall, send: ContractCall -> SentTx)
    requires WellFormed(names)
    ensures Outcome(Registry(names), hasProvider, names, op, send) ==
            if !hasProvider then Failure(ContractLookup(NoProvider))
            else match FindEvent(send(Invocation(Target(op), op)).minedReceipt, ExpectedEvent(op), EventFields(op))
              case Success(found) => Success(found)
              case Failure(e) => Failure(Extraction(e))
  {
  }

  /** The event an operation expects identifies the contract method it called. */
  lemma EventIdentifiesMethod(op1: OpCall, op2: OpCall)
    ensures ExpectedEvent(op1) == ExpectedEvent(op2) <==> MethodName(op1) == MethodName(op2)
  {
  }

  /** A record returned by a domain operation has exactly one entry per field of
      its list plus `txHash`, and `txHash` is the hash of the mined receipt. */
  lemma OperationRecord(names: NameTable, hasProvider: bool, op: OpCall, send: ContractCall -> SentTx, rec: Record)
    requires WellFormed(names)
    requires Outcome(Registry(names), hasProvider, names, op, send) == Success(Some(rec))
    ensures rec.Keys == {TxHashKey} + (set f | f in EventFields(op))
    ensures |rec| == 1 + |EventFields(op)|
    ensures rec[TxHashKey] == send(Invocation(Target(op), op)).minedReceipt.transactionHash
  {
    OperationDelegates(names, hasProvider, op, send);
    var receipt := send(Invocation(Target(op), op)).minedReceipt;
    FoundRecordShape(receipt, ExpectedEvent(op), EventFields(op), rec);
    DistinctFieldsCount(EventFields(op));
  }

  /** A list of pairwise distinct strings has as many elements as its set. */
  lemma {:induction false} DistinctFieldsCount(fields: seq<string>)
    requires forall i, j :: 0 <= i < j < |fields| ==> fields[i] != fields[j]
    ensures |set f | f in fields| == |fields|
  {
    if |fields| > 0 {
      DistinctFieldsCount(fields[1..]);
      assert (set f | f in fields) == {fields[0]} + (set f | f in fields[1..]);
      assert fields[0] !in fields[1..];
    }
  }

  /** Silent miss for a domain operation: with a wallet provider, it returns
      undefined exactly when the mined receipt has no event with the
      operation's event name. */
  lemma OperationSilentMiss(names: NameTable, hasProvider: bool, op: OpCall, send: ContractCall -> SentTx)
    requires WellFormed(names)
    ensures var receipt := send(Invocation(Target(op), op)).minedReceipt;
            Outcome(Registry(names), hasProvider, names, op, send) == Success(None) <==>
            hasProvider && forall i :: 0 <= i < |receipt.events| ==> !Matches(receipt.events[i], ExpectedEvent(op))
  {
    OperationDelegates(names, hasProvider, op, send);
    var receipt := send(Invocation(Target(op), op)).minedReceipt;
    SilentMiss(receipt, ExpectedEvent(op), EventFields(op));
  }
}
