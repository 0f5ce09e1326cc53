/**
 * Transaction receipts and `findEventByName`: the scan of a receipt's events
 * for the first one with a given name, and the flat record built from it.
 */
module Events {
  import opened Wrappers

  /** One entry of `txReceipt.events`. `name` is the decoded event name, `None`
      for a log the contract interface could not decode (its `event` property is
      then undefined). `args` maps argument names to their values, already
      rendered as strings. */
  datatype Event = Event(name: Option<string>, args: map<string, string>)

  /** A mined transaction's receipt: its hash and its events in log order. */
  datatype Receipt = Receipt(transactionHash: string, events: seq<Event>)

  /** The flat object `findEventByName` returns: property name to string value. */
  type Record = map<string, string>

  /** The only way extraction fails: calling `toString()` on an argument the
      matched event does not have. */
  datatype ExtractError = MissingField(field: string)

  /** The property under which the receipt's hash is stored in the record. */
  const TxHashKey: string := "txHash"

  /** The loop's test `event.event == eventName`: an undecoded log never matches. */
  predicate Matches(e: Event, eventName: string)
    ensures Matches(e, eventName) ==> e.name.Some?
  {
    e.name == Some(eventName)
  }

  /** The position of the first event, in receipt order, named `eventName`. */
  function FirstMatch(events: seq<Event>, eventName: string): (r: Option<nat>)
    ensures r.None? <==> forall i :: 0 <= i < |events| ==> !Matches(events[i], eventName)
    ensures r.Some? ==> r.value < |events| && Matches(events[r.value], eventName)
    ensures r.Some? ==> forall i :: 0 <= i < r.value ==> !Matches(events[i], eventName)
  {
    if |events| == 0 then None
    else if Matches(events[0], eventName) then Some(0)
    else match FirstMatch(events[1..], eventName)
      case None => None
      case Some(k) => Some(k + 1)
  }

  /** Assigns `acc[f] := args[f]` for each requested field `f` from left to
      right, and fails at the first field the arguments lack. */
  function FillFields(acc: Record, args: map<string, string>, fields: seq<string>): (r: Result<Record, ExtractError>)
    ensures r.Success? <==> forall i :: 0 <= i < |fields| ==> fields[i] in args
    ensures r.Failure? ==>
      exists i :: 0 <= i < |fields| && r.error == MissingField(fields[i]) && fields[i] !in args &&
                  forall j :: 0 <= j < i ==> fields[j] in args
    ensures r.Success? ==> r.value.Keys == acc.Keys + (set f | f in fields)
    ensures r.Success? ==> forall k :: k in r.value ==> r.value[k] == if k in fields then args[k] else acc[k]
    decreases |fields|
  {
    if |fields| == 0 then Success(acc)
    else if fields[0] !in args then Failure(MissingField(fields[0]))
    else
      var r := FillFields(acc[fields[0] := args[fields[0]]], args, fields[1..]);
      assert forall f :: f in fields <==> f == fields[0] || f in fields[1..];
      r
  }

  /** The record built from a matched event: `txHash` first, then every
      requested field; a requested `txHash` overwrites the receipt's hash. */
  function BuildRecord(txHash: string, e: Event, fields: seq<string>): (r: Result<Record, ExtractError>)
    ensures r.Success? <==> forall f :: f in fields ==> f in e.args
    ensures r.Success? ==> r.value.Keys == {TxHashKey} + (set f | f in fields)
    ensures r.Success? ==> forall f :: f in fields ==> r.value[f] == e.args[f]
    ensures r.Success? ==> r.value[TxHashKey] == if TxHashKey in fields then e.args[TxHashKey] else txHash
    ensures r.Failure? ==> r.error.field in fields && r.error.field !in e.args
  {
    FillFields(map[TxHashKey := txHash], e.args, fields)
  }

  /** What `findEventByName(txReceipt, eventName, ...eventFields)` yields:
      `Success(None)` when it returns undefined, `Success(Some(rec))` when it
      returns a record, `Failure` when it throws. */
  function FindEvent(receipt: Receipt, eventName: string, fields: seq<string>): (r: Result<Option<Record>, ExtractError>)
    ensures r == Success(None) <==> FirstMatch(receipt.events, eventName).None?
    ensures r.Success? && r.value.Some? ==> TxHashKey in r.value.value && forall f :: f in fields ==> f in r.value.value
    ensures r.Failure? ==> r.error.field in fields
  {
    match FirstMatch(receipt.events, eventName)
    case None => Success(None)
    case Some(i) =>
      match BuildRecord(receipt.transactionHash, receipt.events[i], fields)
      case Success(rec) => Success(Some(rec))
      case Failure(e) => Failure(e)
  }

  /** The method itself: the `for...in` scan with its early return, and the
      index loop that assigns the requested fields one by one. */
  method FindEventByName(receipt: Receipt, eventName: string, fields: seq<string>)
    returns (r: Result<Option<Record>, ExtractError>)
    ensures r == FindEvent(receipt, eventName, fields)
  {
    var key := 0;
    while key < |receipt.events|
      invariant 0 <= key <= |receipt.events|
      invariant forall j :: 0 <= j < key ==> !Matches(receipt.events[j], eventName)
    {
      if receipt.events[key].name == Some(eventName) {
        var event := receipt.events[key];
        assert FirstMatch(receipt.events, eventName) == Some(key);
        var resultObj: Record := map[TxHashKey := receipt.transactionHash];
        var index := 0;
        while index < |fields|
          invariant 0 <= index <= |fields|
          invariant FillFields(resultObj, event.args, fields[index..]) == BuildRecord(receipt.transactionHash, event, fields)
        {
          var field := fields[index];
          if field !in event.args {
            return Failure(MissingField(field));
          }
          resultObj := resultObj[field := event.args[field]];
          assert fields[index..][1..] == fields[index + 1..];
          index := index + 1;
        }
        assert fields[index..] == [];
        return Success(Some(resultObj));
      }
      key := key + 1;
    }
    assert FirstMatch(receipt.events, eventName).None?;
    return Success(None);
  }

  /** Silent miss: the result is undefined exactly when no event has the name. */
  lemma SilentMiss(receipt: Receipt, eventName: string, fields: seq<string>)
    ensures FindEvent(receipt, eventName, fields) == Success(None) <==>
            forall i :: 0 <= i < |receipt.events| ==> !Matches(receipt.events[i], eventName)
  {
  }

  /** First match wins: once an event named `eventName` follows events that are
      not, the events after it do not affect the result. */
  lemma FirstMatchWins(txHash: string, before: seq<Event>, e: Event, after: seq<Event>,
                       eventName: string, fields: seq<string>)
    requires Matches(e, eventName)
    requires forall i :: 0 <= i < |before| ==> !Matches(before[i], eventName)
    ensures FindEvent(Receipt(txHash, before + [e] + after), eventName, fields) ==
            match BuildRecord(txHash, e, fields)
            case Success(rec) => Success(Some(rec))
            case Failure(err) => Failure(err)
  {
    var events := before + [e] + after;
    assert events[|before|] == e;
    assert forall i :: 0 <= i < |before| ==> events[i] == before[i];
    var m := FirstMatch(events, eventName);
    assert m.Some?;
    assert m.value == |before|;
  }

  /** Exact key set: a returned record holds `txHash` and the requested fields
      and nothing else, with the values of the first matching event. */
  lemma FoundRecordShape(receipt: Receipt, eventName: string, fields: seq<string>, rec: Record)
    requires FindEvent(receipt, eventName, fields) == Success(Some(rec))
    ensures FirstMatch(receipt.events, eventName).Some?
    ensures var e := receipt.events[FirstMatch(receipt.events, eventName).value];
            && rec.Keys == {TxHashKey} + (set f | f in fields)
            && (forall f :: f in fields ==> f in e.args && rec[f] == e.args[f])
            && rec[TxHashKey] == if TxHashKey in fields then e.args[TxHashKey] else receipt.transactionHash
  {
  }

  /** Missing field fails: the call throws exactly when some event matches and
      the first one lacks a requested field; what it names is the first such
      field, and no partial record comes back. */
  lemma MissingFieldFails(receipt: Receipt, eventName: string, fields: seq<string>)
    ensures FindEvent(receipt, eventName, fields).Failure? <==>
            FirstMatch(receipt.events, eventName).Some? &&
            exists f :: f in fields && f !in receipt.events[FirstMatch(receipt.events, eventName).value].args
    ensures FindEvent(receipt, eventName, fields).Failure? ==>
            var args := receipt.events[FirstMatch(receipt.events, eventName).value].args;
            exists i :: 0 <= i < |fields| && FindEvent(receipt, eventName, fields).error == MissingField(fields[i]) &&
                        fields[i] !in args && forall j :: 0 <= j < i ==> fields[j] in args
  {
  }
}
