/**
 * The event recorder: three handlers, one per contract event (BetProposed,
 * BetAccepted, BetSettled), each turn a delivered event into a record and
 * try to create it in the event store, keyed by the hash of the delivered
 * log entry.  A failed create is caught and logged, and the handler returns
 * normally.
 *
 * The store is a map from hash to record.  That it rejects a second record
 * with a hash it already holds comes from the store's schema, which is not
 * part of this model: it is assumed here.
 */
module EventListener {
  import opened Wrappers

  type Hash = string
  type Address = string

  /** A value inside a record's JSON `data` column. */
  datatype Json = JNum(num: int) | JStr(str: string)

  /** The decoded arguments of the three events, in the order of the
      handlers' parameters. */
  datatype Payload =
    | BetProposed(betId: nat, proposer: Address, betAmount: nat)
    | BetAccepted(betId: nat, acceptor: Address, betAmount: nat)
    | BetSettled(betId: nat, winner: Address, winnings: nat)

  /** The raw log reference delivered with an event (`event.log`). */
  datatype LogRef = LogRef(hash: Hash, address: Address)

  /** One delivery of an event to its handler. */
  datatype Delivery = Delivery(payload: Payload, log: LogRef)

  /** The row the handler asks the store to create. */
  datatype EventRecord = EventRecord(hash: Hash, name: string, address: Address, data: map<string, Json>)

  /** The name each handler writes into its records: that of the event it is
      registered for. */
  function EventName(p: Payload): (n: string)
    ensures n == "BetProposed" <==> p.BetProposed?
    ensures n == "BetAccepted" <==> p.BetAccepted?
    ensures n == "BetSettled" <==> p.BetSettled?
  {
    match p
    case BetProposed(_, _, _) => "BetProposed"
    case BetAccepted(_, _, _) => "BetAccepted"
    case BetSettled(_, _, _) => "BetSettled"
  }

  /** The field names of each event's `data` object. */
  function FieldNames(p: Payload): set<string>
  {
    match p
    case BetProposed(_, _, _) => {"betId", "proposer", "betAmount"}
    case BetAccepted(_, _, _) => {"betId", "acceptor", "betAmount"}
    case BetSettled(_, _, _) => {"betId", "winner", "winnings"}
  }

  /** The `data` object literal of each handler. */
  function PayloadData(p: Payload): map<string, Json>
  {
    match p
    case BetProposed(betId, proposer, betAmount) =>
      map["betId" := JNum(betId), "proposer" := JStr(proposer), "betAmount" := JNum(betAmount)]
    case BetAccepted(betId, acceptor, betAmount) =>
      map["betId" := JNum(betId), "acceptor" := JStr(acceptor), "betAmount" := JNum(betAmount)]
    case BetSettled(betId, winner, winnings) =>
      map["betId" := JNum(betId), "winner" := JStr(winner), "winnings" := JNum(winnings)]
  }

  /** The record a handler builds: keyed by the delivered log's hash, named
      after its event, addressed with the configured contract address (never
      the log's own address), and carrying exactly the event's fields. */
  function BuildRecord(d: Delivery, contractAddress: Address): (r: EventRecord)
    ensures r.hash == d.log.hash
    ensures r.address == contractAddress
  {
    EventRecord(d.log.hash, EventName(d.payload), contractAddress, PayloadData(d.payload))
  }

  /** The name and the `data` keys of a record depend only on its event's kind. */
  lemma RecordShape(d: Delivery, contractAddress: Address)
    ensures BuildRecord(d, contractAddress).name in {"BetProposed", "BetAccepted", "BetSettled"}
    ensures BuildRecord(d, contractAddress).data.Keys == FieldNames(d.payload)
    ensures BuildRecord(d, contractAddress).data["betId"] == JNum(d.payload.betId)
  {
  }

  // ---------------------------------------------------------------------
  // Reading a record back
  // ---------------------------------------------------------------------

  function NatField(data: map<string, Json>, key: string): Option<nat>
  {
    if key in data && data[key].JNum? && data[key].num >= 0 then Some(data[key].num) else None
  }

  function StrField(data: map<string, Json>, key: string): Option<string>
  {
    if key in data && data[key].JStr? then Some(data[key].str) else None
  }

  /** The event a stored name and `data` object describe, if they describe one. */
  function DecodePayload(name: string, data: map<string, Json>): Option<Payload>
  {
    var betId := NatField(data, "betId");
    if name == "BetProposed" then
      var proposer, amount := StrField(data, "proposer"), NatField(data, "betAmount");
      if data.Keys == {"betId", "proposer", "betAmount"} && betId.Some? && proposer.Some? && amount.Some?
      then Some(BetProposed(betId.value, proposer.value, amount.value)) else None
    else if name == "BetAccepted" then
      var acceptor, amount := StrField(data, "acceptor"), NatField(data, "betAmount");
      if data.Keys == {"betId", "acceptor", "betAmount"} && betId.Some? && acceptor.Some? && amount.Some?
      then Some(BetAccepted(betId.value, acceptor.value, amount.value)) else None
    else if name == "BetSettled" then
      var winner, winnings := StrField(data, "winner"), NatField(data, "winnings");
      if data.Keys == {"betId", "winner", "winnings"} && betId.Some? && winner.Some? && winnings.Some?
      then Some(BetSettled(betId.value, winner.value, winnings.value)) else None
    else None
  }

  /** A record carries its event exactly: reading it back gives the event's
      payload. */
  lemma RecordRoundTrip(d: Delivery, contractAddress: Address)
    ensures DecodePayload(BuildRecord(d, contractAddress).name, BuildRecord(d, contractAddress).data) == Some(d.payload)
  {
  }

  /** Any name and data that read back as a payload are the ones that
      payload's handler writes. */
  lemma RecordDecodesUniquely(name: string, data: map<string, Json>, p: Payload)
    requires DecodePayload(name, data) == Some(p)
    ensures name == EventName(p) && data == PayloadData(p)
  {
  }

  /** Two deliveries give the same record iff they carry the same event and
      the same log hash; the log's own address plays no part. */
  lemma BuildRecordInjective(d1: Delivery, d2: Delivery, contractAddress: Address)
    ensures BuildRecord(d1, contractAddress) == BuildRecord(d2, contractAddress) <==>
              d1.payload == d2.payload && d1.log.hash == d2.log.hash
  {
    if BuildRecord(d1, contractAddress) == BuildRecord(d2, contractAddress) {
      RecordRoundTrip(d1, contractAddress);
      RecordRoundTrip(d2, contractAddress);
    }
  }

  // ---------------------------------------------------------------------
  // The store
  // ---------------------------------------------------------------------

  /** Why a create fails: the hash is already stored, or any other failure
      of the store call (the store cannot be reached, the row is refused by
      validation, the `data` value cannot be serialised, ...). */
  datatype CreateError = DuplicateHash | OtherFailure

  /** The store after a create, and the error the create raised, if any. */
  datatype Created = Created(store: map<Hash, EventRecord>, error: Option<CreateError>)

  /** Every record is stored under its own hash. */
  ghost predicate KeyedByHash(m: map<Hash, EventRecord>)
  {
    forall h :: h in m ==> m[h].hash == h
  }

  /** The store's create, with the unique key on `hash` assumed: it succeeds
      iff the call does not fail for another reason and the hash is new, and then adds exactly
      that one record; otherwise the store is unchanged. */
  function TryCreate(m: map<Hash, EventRecord>, rec: EventRecord, createFails: bool): (r: Created)
    ensures r.error == None <==> !createFails && rec.hash !in m
    ensures r.error == Some(DuplicateHash) <==> !createFails && rec.hash in m
    ensures r.error == None ==>
              r.store.Keys == m.Keys + {rec.hash} && |r.store| == |m| + 1 && r.store[rec.hash] == rec &&
              forall h :: h in m ==> r.store[h] == m[h]
    ensures r.error != None ==> r.store == m
    ensures KeyedByHash(m) && r.error == None ==> KeyedByHash(r.store)
  {
    if createFails then Created(m, Some(OtherFailure))
    else if rec.hash in m then Created(m, Some(DuplicateHash))
    else Created(m[rec.hash := rec], None)
  }

  /** The event table, updated in place by the handlers. */
  class EventStore {
    var records: map<Hash, EventRecord>

    ghost predicate Valid()
      reads this
    {
      KeyedByHash(records)
    }

    constructor ()
      ensures Valid() && records == map[]
    {
      records := map[];
    }

    /** `event.create`: `createFails` says whether this call fails for a
        reason other than a duplicate hash. */
    method Create(rec: EventRecord, createFails: bool) returns (error: Option<CreateError>)
      requires Valid()
      modifies this
      ensures Valid()
      ensures Created(records, error) == TryCreate(old(records), rec, createFails)
    {
      if createFails {
        error := Some(OtherFailure);
      } else if rec.hash in records {
        error := Some(DuplicateHash);
      } else {
        records := records[rec.hash := rec];
        error := None;
      }
    }
  }

  // ---------------------------------------------------------------------
  // The handlers
  // ---------------------------------------------------------------------

  /** What one delivery does to the store: build the record, try to create
      it, keep whatever store the create leaves. */
  function Deliver(m: map<Hash, EventRecord>, d: Delivery, contractAddress: Address, createFails: bool): (r: map<Hash, EventRecord>)
    ensures KeyedByHash(m) ==> KeyedByHash(r)
    ensures r == m || (d.log.hash !in m && r == m[d.log.hash := BuildRecord(d, contractAddress)])
    ensures r.Keys == if createFails then m.Keys else m.Keys + {d.log.hash}
  {
    TryCreate(m, BuildRecord(d, contractAddress), createFails).store
  }

  /** The body shared by the three handlers: create the record inside a
      try/catch; an error is logged and swallowed. */
  method OnEvent(store: EventStore, d: Delivery, contractAddress: Address, createFails: bool)
    requires store.Valid()
    modifies store
    ensures store.Valid()
    ensures store.records == Deliver(old(store.records), d, contractAddress, createFails)
  {
    var error := store.Create(BuildRecord(d, contractAddress), createFails);
    // an error is only logged ("Error storing ... event")
  }

  method OnBetProposed(store: EventStore, betId: nat, proposer: Address, betAmount: nat, log: LogRef,
                       contractAddress: Address, createFails: bool)
    requires store.Valid()
    modifies store
    ensures store.Valid()
    ensures store.records ==
              Deliver(old(store.records), Delivery(BetProposed(betId, proposer, betAmount), log), contractAddress, createFails)
    ensures !createFails && log.hash !in old(store.records) ==>
              store.records == old(store.records)[log.hash := EventRecord(log.hash, "BetProposed", contractAddress,
                map["betId" := JNum(betId), "proposer" := JStr(proposer), "betAmount" := JNum(betAmount)])]
    ensures createFails || log.hash in old(store.records) ==> store.records == old(store.records)
  {
    OnEvent(store, Delivery(BetProposed(betId, proposer, betAmount), log), contractAddress, createFails);
  }

  method OnBetAccepted(store: EventStore, betId: nat, acceptor: Address, betAmount: nat, log: LogRef,
                       contractAddress: Address, createFails: bool)
    requires store.Valid()
    modifies store
    ensures store.Valid()
    ensures store.records ==
              Deliver(old(store.records), Delivery(BetAccepted(betId, acceptor, betAmount), log), contractAddress, createFails)
    ensures !createFails && log.hash !in old(store.records) ==>
              store.records == old(store.records)[log.hash := EventRecord(log.hash, "BetAccepted", contractAddress,
                map["betId" := JNum(betId), "acceptor" := JStr(acceptor), "betAmount" := JNum(betAmount)])]
    ensures createFails || log.hash in old(store.records) ==> store.records == old(store.records)
  {
    OnEvent(store, Delivery(BetAccepted(betId, acceptor, betAmount), log), contractAddress, createFails);
  }

  method OnBetSettled(store: EventStore, betId: nat, winner: Address, winnings: nat, log: LogRef,
                      contractAddress: Address, createFails: bool)
    requires store.Valid()
    modifies store
    ensures store.Valid()
    ensures store.records ==
              Deliver(old(store.records), Delivery(BetSettled(betId, winner, winnings), log), contractAddress, createFails)
    ensures !createFails && log.hash !in old(store.records) ==>
              store.records == old(store.records)[log.hash := EventRecord(log.hash, "BetSettled", contractAddress,
                map["betId" := JNum(betId), "winner" := JStr(winner), "winnings" := JNum(winnings)])]
    ensures createFails || log.hash in old(store.records) ==> store.records == old(store.records)
  {
    OnEvent(store, Delivery(BetSettled(betId, winner, winnings), log), contractAddress, createFails);
  }

  // ---------------------------------------------------------------------
  // A sequence of deliveries
  // ---------------------------------------------------------------------

  /** One delivery together with whether its create fails for a reason other
      than a duplicate hash. */
  datatype Attempt = Attempt(delivery: Delivery, createFails: bool)

  function HashOf(a: Attempt): Hash
  {
    a.delivery.log.hash
  }

  /** The store after the attempts, handled one at a time in order. */
  function Replay(m: map<Hash, EventRecord>, contractAddress: Address, attempts: seq<Attempt>): (r: map<Hash, EventRecord>)
    ensures KeyedByHash(m) ==> KeyedByHash(r)
    ensures m.Keys <= r.Keys
    decreases |attempts|
  {
    if attempts == [] then m
    else Replay(Deliver(m, attempts[0].delivery, contractAddress, attempts[0].createFails),
                contractAddress, attempts[1..])
  }

  /** The hashes of the attempts whose create does not fail for a reason
      other than a duplicate hash. */
  ghost function NonFailingHashes(attempts: seq<Attempt>): set<Hash>
  {
    set i | 0 <= i < |attempts| && !attempts[i].createFails :: HashOf(attempts[i])
  }

  /** Replaying two sequences one after the other is replaying their
      concatenation. */
  lemma {:induction false} ReplayAppend(m: map<Hash, EventRecord>, a: Address, p: seq<Attempt>, q: seq<Attempt>)
    ensures Replay(m, a, p + q) == Replay(Replay(m, a, p), a, q)
    decreases |p|
  {
    if p == [] {
      assert p + q == q;
    } else {
      assert (p + q)[0] == p[0] && (p + q)[1..] == p[1..] + q;
      ReplayAppend(Deliver(m, p[0].delivery, a, p[0].createFails), a, p[1..], q);
    }
  }

  /** A stored record is never replaced by a later delivery. */
  lemma {:induction false} ReplayKeepsStored(m: map<Hash, EventRecord>, a: Address, attempts: seq<Attempt>, h: Hash)
    requires h in m
    ensures Replay(m, a, attempts)[h] == m[h]
    decreases |attempts|
  {
    if attempts != [] {
      ReplayKeepsStored(Deliver(m, attempts[0].delivery, a, attempts[0].createFails), a, attempts[1..], h);
    }
  }

  /** The hashes stored after a sequence of deliveries are the ones stored
      before and those of every delivery whose create did not fail otherwise: a failure on
      one delivery does not keep later ones out. */
  lemma {:induction false} ReplayKeys(m: map<Hash, EventRecord>, a: Address, attempts: seq<Attempt>)
    ensures Replay(m, a, attempts).Keys == m.Keys + NonFailingHashes(attempts)
    decreases |attempts|
  {
    if attempts == [] {
      assert NonFailingHashes(attempts) == {};
    } else {
      var x, rest := attempts[0], attempts[1..];
      var m' := Deliver(m, x.delivery, a, x.createFails);
      var hx: set<Hash> := if x.createFails then {} else {HashOf(x)};
      assert m'.Keys == m.Keys + hx;
      assert Replay(m, a, attempts) == Replay(m', a, rest);
      ReplayKeys(m', a, rest);
      NonFailingHashesCons(attempts);
      assert NonFailingHashes(attempts) == hx + NonFailingHashes(rest);
      assert Replay(m, a, attempts).Keys == m.Keys + hx + NonFailingHashes(rest);
      UnionAssoc(m.Keys, hx, NonFailingHashes(rest));
    }
  }

  /** Set union regroups freely. */
  lemma UnionAssoc<T>(a: set<T>, b: set<T>, c: set<T>)
    ensures a + b + c == a + (b + c)
  {
  }

  /** The non-failing hashes of a sequence: those of its first attempt and of
      the rest. */
  lemma NonFailingHashesCons(attempts: seq<Attempt>)
    requires attempts != []
    ensures NonFailingHashes(attempts) ==
              (if attempts[0].createFails then {} else {HashOf(attempts[0])}) + NonFailingHashes(attempts[1..])
  {
  }

  /** The record stored for a new hash is the one built from the first
      delivery of that hash whose create did not fail otherwise; later deliveries of the
      same hash change nothing. */
  lemma {:induction false} FirstDeliveryWins(m: map<Hash, EventRecord>, a: Address, attempts: seq<Attempt>, i: nat)
    requires i < |attempts| && !attempts[i].createFails && HashOf(attempts[i]) !in m
    requires forall j :: 0 <= j < i ==> attempts[j].createFails || HashOf(attempts[j]) != HashOf(attempts[i])
    ensures HashOf(attempts[i]) in Replay(m, a, attempts)
    ensures Replay(m, a, attempts)[HashOf(attempts[i])] == BuildRecord(attempts[i].delivery, a)
    decreases |attempts|
  {
    var x := attempts[0];
    var m' := Deliver(m, x.delivery, a, x.createFails);
    if i == 0 {
      ReplayKeepsStored(m', a, attempts[1..], HashOf(x));
    } else {
      assert HashOf(attempts[i]) !in m';
      FirstDeliveryWins(m', a, attempts[1..], i - 1);
    }
  }

  /** A delivery whose create failed for a reason other than a duplicate has no effect on the outcome of a
      sequence of deliveries: the rest are recorded as if it never came. */
  lemma FailedDeliveryIsNoop(m: map<Hash, EventRecord>, a: Address, p: seq<Attempt>, x: Attempt, q: seq<Attempt>)
    requires x.createFails
    ensures Replay(m, a, p + [x] + q) == Replay(m, a, p + q)
  {
    ReplayAppend(m, a, p + [x], q);
    ReplayAppend(m, a, p, [x]);
    ReplayAppend(m, a, p, q);
  }

  /** Delivering the same event twice leaves one record for its hash, the
      first one. */
  lemma RedeliveryIgnored(m: map<Hash, EventRecord>, a: Address, x: Attempt, y: Attempt)
    requires HashOf(x) !in m && !x.createFails && HashOf(y) == HashOf(x)
    ensures Replay(m, a, [x, y]) == m[HashOf(x) := BuildRecord(x.delivery, a)]
  {
    var m' := Deliver(m, x.delivery, a, x.createFails);
    assert [x, y][1..] == [y];
    assert Replay(m', a, [y]) == Deliver(m', y.delivery, a, y.createFails);
  }

  /** A BetProposed event for bet 7 by "0xAA" over 100, with log hash "0x123",
      delivered twice to an empty store, leaves exactly its one record. */
  lemma RedeliveredProposal(contractAddress: Address, logAddress: Address)
    ensures var x := Attempt(Delivery(BetProposed(7, "0xAA", 100), LogRef("0x123", logAddress)), false);
      Replay(map[], contractAddress, [x, x]) ==
        map["0x123" := EventRecord("0x123", "BetProposed", contractAddress,
          map["betId" := JNum(7), "proposer" := JStr("0xAA"), "betAmount" := JNum(100)])]
  {
    var x := Attempt(Delivery(BetProposed(7, "0xAA", 100), LogRef("0x123", logAddress)), false);
    RedeliveryIgnored(map[], contractAddress, x, x);
  }

  /** Deliveries with distinct new hashes, all taken by the store, each leave
      exactly one record, the one built from that delivery. */
  lemma {:induction false} DistinctDeliveriesRecorded(m: map<Hash, EventRecord>, a: Address, attempts: seq<Attempt>)
    requires forall i :: 0 <= i < |attempts| ==> !attempts[i].createFails && HashOf(attempts[i]) !in m
    requires forall i, j :: 0 <= i < j < |attempts| ==> HashOf(attempts[i]) != HashOf(attempts[j])
    ensures |Replay(m, a, attempts)| == |m| + |attempts|
    ensures forall i :: 0 <= i < |attempts| ==>
              HashOf(attempts[i]) in Replay(m, a, attempts) &&
              Replay(m, a, attempts)[HashOf(attempts[i])] == BuildRecord(attempts[i].delivery, a)
    decreases |attempts|
  {
    if attempts != [] {
      var x := attempts[0];
      var m' := Deliver(m, x.delivery, a, x.createFails);
      var rest := attempts[1..];
      forall i | 0 <= i < |rest| ensures !rest[i].createFails && HashOf(rest[i]) !in m' {
        assert rest[i] == attempts[i + 1];
      }
      forall i, j | 0 <= i < j < |rest| ensures HashOf(rest[i]) != HashOf(rest[j]) {
        assert rest[i] == attempts[i + 1] && rest[j] == attempts[j + 1];
      }
      DistinctDeliveriesRecorded(m', a, rest);
      forall i | 0 <= i < |attempts|
        ensures HashOf(attempts[i]) in Replay(m, a, attempts) &&
                Replay(m, a, attempts)[HashOf(attempts[i])] == BuildRecord(attempts[i].delivery, a)
      {
        if i == 0 {
          ReplayKeepsStored(m', a, rest, HashOf(x));
        } else {
          assert attempts[i] == rest[i - 1];
        }
      }
    }
  }
}
