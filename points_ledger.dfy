/** The customer points ledger: a customer's balance is the value of the
    first metafield in namespace `carbon` with key `points`, held by the
    remote commerce platform. The platform is modelled as an in-memory store
    whose read and write calls report an HTTP status (or fail to connect);
    the client reads the balance, and credits it by read-add-write. */
module PointsLedger {
  import opened Wrappers
  import opened JsNumbers

  /** One metadata entry attached to a customer record. */
  datatype Metafield = Metafield(namespace: string, key: string, value: string)

  const PointsNamespace: string := "carbon"
  const PointsKey: string := "points"
  /** The metafield type the client declares when it writes a balance. */
  const PointsType: string := "integer"

  predicate IsPointsEntry(f: Metafield) {
    f.namespace == PointsNamespace && f.key == PointsKey
  }

  /** Entry `i` is a points entry and no earlier entry is one. */
  predicate IsFirstPointsEntry(fs: seq<Metafield>, i: nat) {
    i < |fs| && IsPointsEntry(fs[i]) && forall j :: 0 <= j < i ==> !IsPointsEntry(fs[j])
  }

  /** The position of the first points entry, if there is one. */
  function FirstPointsIndex(fs: seq<Metafield>): (r: Option<nat>)
    ensures r.Some? ==> r.value < |fs| && IsPointsEntry(fs[r.value])
    ensures r.Some? ==> forall j :: 0 <= j < r.value ==> !IsPointsEntry(fs[j])
    ensures r.None? <==> forall j :: 0 <= j < |fs| ==> !IsPointsEntry(fs[j])
  {
    if fs == [] then None
    else if IsPointsEntry(fs[0]) then Some(0)
    else match FirstPointsIndex(fs[1..])
      case None => None
      case Some(i) => Some(i + 1)
  }

  /** The balance a list of metafields records: the first points entry's
      value through `parseInt(...) || 0`, or 0 when there is none. */
  function PointsIn(fs: seq<Metafield>): (balance: int)
    ensures (forall j :: 0 <= j < |fs| ==> !IsPointsEntry(fs[j])) ==> balance == 0
    ensures forall i: nat :: IsFirstPointsEntry(fs, i) ==> balance == ParseIntOrZero(fs[i].value)
  {
    match FirstPointsIndex(fs)
    case None => 0
    case Some(k) =>
      assert forall i: nat :: IsFirstPointsEntry(fs, i) ==> i == k by {
        forall i: nat | IsFirstPointsEntry(fs, i) ensures i == k {
        }
      }
      ParseIntOrZero(fs[k].value)
  }

  /** The entry the client posts for a new balance: a points entry whose
      text reads back as that balance. */
  function PointsEntry(balance: int): (f: Metafield)
    ensures IsPointsEntry(f) && ParseIntOrZero(f.value) == balance
  {
    ParseIntOrZeroOfIntToString(balance, []);
    assert IntToString(balance) + [] == IntToString(balance);
    Metafield(PointsNamespace, PointsKey, IntToString(balance))
  }

  /** An entry that matches, with no match before it, is the one the scan
      finds. */
  lemma FirstPointsIndexAt(fs: seq<Metafield>, i: nat)
    requires i < |fs| && IsPointsEntry(fs[i])
    requires forall j :: 0 <= j < i ==> !IsPointsEntry(fs[j])
    ensures FirstPointsIndex(fs) == Some(i)
  {
  }

  /** The balance is read from the first points entry; every later one,
      whatever it holds, is ignored. */
  lemma FirstEntryDecides(fs: seq<Metafield>, i: nat, tail: seq<Metafield>)
    requires i < |fs| && IsPointsEntry(fs[i])
    requires forall j :: 0 <= j < i ==> !IsPointsEntry(fs[j])
    ensures PointsIn(fs) == ParseIntOrZero(fs[i].value)
    ensures PointsIn(fs[..i + 1] + tail) == PointsIn(fs)
  {
    var gs := fs[..i + 1] + tail;
    assert gs[i] == fs[i];
    assert forall j :: 0 <= j < i ==> gs[j] == fs[j];
    assert IsFirstPointsEntry(fs, i) && IsFirstPointsEntry(gs, i);
  }

  /** The three ways a lookup yields 0: no points entry (an empty or missing
      list included), or a first points entry whose value parses to `NaN`
      or to zero. */
  lemma PointsZeroCases(fs: seq<Metafield>)
    ensures PointsIn(fs) == 0 <==>
      (forall j :: 0 <= j < |fs| ==> !IsPointsEntry(fs[j])) ||
      (exists i :: 0 <= i < |fs| && IsPointsEntry(fs[i]) &&
         (forall j :: 0 <= j < i ==> !IsPointsEntry(fs[j])) &&
         ParseInt(fs[i].value) in {NaN, Num(0)})
  {
    match FirstPointsIndex(fs)
    case None =>
    case Some(i) =>
      FirstEntryDecides(fs, i, []);
      if PointsIn(fs) == 0 {
        assert IsPointsEntry(fs[i]) && ParseInt(fs[i].value) in {NaN, Num(0)};
      }
  }

  /** A balance written with `toString` is read back exactly, as long as the
      platform keeps the posted entry as the customer's first points entry
      (how it merges the post into the customer's records is the platform's
      business). */
  lemma ReadBackAfterWrite(fs: seq<Metafield>, i: nat, balance: int)
    requires i < |fs| && fs[i] == PointsEntry(balance)
    requires forall j :: 0 <= j < i ==> !IsPointsEntry(fs[j])
    ensures PointsIn(fs) == balance
  {
    FirstEntryDecides(fs, i, []);
    ParseIntOrZeroOfIntToString(balance, []);
    assert IntToString(balance) + [] == IntToString(balance);
  }

  /** How a remote call ended: an HTTP status, or no response at all. */
  datatype Outcome = Status(code: int) | Unreachable

  /** `response.ok`: a status in the range 200-299. */
  predicate IsOk(o: Outcome) {
    o.Status? && 200 <= o.code <= 299
  }

  /** The errors the client raises (and re-throws to its caller). */
  datatype StoreError =
    | ReadFailed(status: int)   // metafield read answered with a non-ok status
    | WriteFailed(status: int)  // metafield write answered with a non-ok status
    | NetworkError              // the call never got a response

  function ReadError(o: Outcome): StoreError {
    if o.Unreachable? then NetworkError else ReadFailed(o.code)
  }

  function WriteError(o: Outcome): StoreError {
    if o.Unreachable? then NetworkError else WriteFailed(o.code)
  }

  /** One write call as it was sent: the customer and the posted metafield
      with its declared type. */
  datatype Post = Post(customerId: string, metafield: Metafield, valueType: string)

  /** The remote customer store. `records` is what a metafield read returns
      (a customer absent from it reads as a response without a `metafields`
      list); `readOutcome` and `writeOutcome` say how the store answers read
      and write calls; `writes` logs every write call in order. What a write
      does to the customer's own entry in `records` is left to the platform:
      the client's contract leaves it open. */
  class RemoteCustomerStore {
    var records: map<string, seq<Metafield>>
    var readOutcome: Outcome
    var writeOutcome: Outcome
    var writes: seq<Post>

    constructor (records: map<string, seq<Metafield>>, readOutcome: Outcome, writeOutcome: Outcome)
      ensures this.records == records && this.readOutcome == readOutcome
      ensures this.writeOutcome == writeOutcome && writes == []
    {
      this.records := records;
      this.readOutcome := readOutcome;
      this.writeOutcome := writeOutcome;
      writes := [];
    }

    /** The metafield list of a read response, a missing list taken as empty. */
    function Listed(customerId: string): seq<Metafield>
      reads this`records
    {
      if customerId in records then records[customerId] else []
    }

    /** The balance the store currently records for a customer. */
    function Balance(customerId: string): int
      reads this`records
    {
      PointsIn(Listed(customerId))
    }
  }

  /** The scan of a read's metafield list: the loop returns as soon as it
      meets a `carbon`/`points` entry, and 0 when it meets none. */
  method ScanPoints(fields: seq<Metafield>) returns (balance: int)
    ensures balance == PointsIn(fields)
  {
    var i := 0;
    while i < |fields|
      invariant 0 <= i <= |fields|
      invariant forall j :: 0 <= j < i ==> !IsPointsEntry(fields[j])
    {
      if fields[i].namespace == PointsNamespace && fields[i].key == PointsKey {
        assert IsFirstPointsEntry(fields, i);
        return ParseIntOrZero(fields[i].value);
      }
      i := i + 1;
    }
    return 0;
  }

  /** Reads a customer's balance: a non-ok read raises an error; otherwise
      the first `carbon`/`points` entry's value through `parseInt(...) || 0`,
      or 0 when there is none or the response has no metafield list. */
  method GetCustomerPoints(store: RemoteCustomerStore, customerId: string)
    returns (r: Result<int, StoreError>)
    ensures !IsOk(store.readOutcome) ==> r == Failure(ReadError(store.readOutcome))
    ensures IsOk(store.readOutcome) ==> r == Success(store.Balance(customerId))
    ensures IsOk(store.readOutcome) && customerId !in store.records ==> r == Success(0)
  {
    if !IsOk(store.readOutcome) {
      return Failure(ReadError(store.readOutcome));
    }
    var fields := if customerId in store.records then store.records[customerId] else [];
    var balance := ScanPoints(fields);
    return Success(balance);
  }

  /** Credits `points` (any integer, unchecked) to a customer: reads the
      balance, then posts the sum as the new absolute value. A failed read
      raises before any write; a non-ok write raises after the post. After
      a write call the customer's own records are whatever the platform
      made of the post; every other customer's are untouched. */
  method UpdateCustomerPoints(store: RemoteCustomerStore, customerId: string, points: int)
    returns (r: Result<(), StoreError>)
    modifies store`records, store`writes
    ensures !IsOk(store.readOutcome) ==>
      r == Failure(ReadError(store.readOutcome)) && store.writes == old(store.writes)
    ensures !IsOk(store.readOutcome) ==> store.records == old(store.records)
    ensures forall c :: c != customerId ==> (c in store.records <==> c in old(store.records))
    ensures forall c :: c != customerId && c in store.records ==>
      store.records[c] == old(store.records)[c]
    ensures IsOk(store.readOutcome) ==>
      store.writes == old(store.writes) +
        [Post(customerId, PointsEntry(old(store.Balance(customerId)) + points), PointsType)]
    ensures IsOk(store.readOutcome) ==>
      ParseIntOrZero(store.writes[|store.writes| - 1].metafield.value)
        == old(store.Balance(customerId)) + points
    ensures IsOk(store.readOutcome) ==>
      r == if IsOk(store.writeOutcome) then Success(()) else Failure(WriteError(store.writeOutcome))
  {
    var current := GetCustomerPoints(store, customerId);
    if current.Failure? {
      return Failure(current.error);
    }
    var newPoints := current.value + points;
    store.writes := store.writes + [Post(customerId, PointsEntry(newPoints), PointsType)];
    ParseIntOrZeroOfIntToString(newPoints, []);
    assert IntToString(newPoints) + [] == IntToString(newPoints);
    if !IsOk(store.writeOutcome) {
      return Failure(WriteError(store.writeOutcome));
    }
    return Success(());
  }
}
