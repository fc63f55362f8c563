/**
 * The settlement scanner: on every new block it reads the number of bets,
 * walks the bet ids in increasing order, and submits a settlement for every
 * bet whose closing time has passed while it is still active.
 *
 * The betting contract is abstract state passed in as a `Chain` value: what
 * each remote call answers during one scan, and which calls fail.  The scan
 * is described by the calls it makes, in order (its trace), and by the error
 * that ended it, if any.
 */
module SettleBetBot {
  import opened Wrappers

  /** The view of one bet that the contract's `bets(betId)` accessor returns;
      `closingTime` is in unix seconds. */
  datatype Bet = Bet(closingTime: int, isActive: bool)

  /**
   * The contract as one scan sees it.
   * - `totalBets`: the answer of `totalBets()`;
   * - `bets[id]`: the answer of `bets(id)` when the scan reads bet `id`
   *   (reading an id outside `bets` fails, as the remote call reverts);
   * - `countFails`, `readFails`, `settleFails`: the remote calls that fail
   *   (a node or network error, a reverted or unconfirmed transaction).
   */
  datatype Chain = Chain(
    totalBets: nat,
    bets: seq<Bet>,
    countFails: bool,
    readFails: set<nat>,
    settleFails: set<nat>
  )

  /** One remote call of a scan: reading a bet, or settling it (submitting the
      transaction and waiting for its confirmation). */
  datatype Call = Read(id: nat) | Settle(id: nat)

  /** The failure that ends a scan early. */
  datatype ScanError = CountFailed | ReadFailed(id: nat) | SettleFailed(id: nat)

  /** What one scan did: its calls in order, and the error that stopped it. */
  datatype ScanResult = ScanResult(trace: seq<Call>, error: Option<ScanError>)

  /** `Math.floor(ms / 1000)`: the wall clock in whole unix seconds.  Dafny's
      division by a positive divisor rounds down, as `Math.floor` does. */
  function UnixSeconds(ms: int): (s: int)
    ensures s * 1000 <= ms < s * 1000 + 1000
  {
    ms / 1000
  }

  /** The answer of `bets(id)`, or `None` when that call fails. */
  function ReadBet(c: Chain, id: nat): Option<Bet>
  {
    if id < |c.bets| && id !in c.readFails then Some(c.bets[id]) else None
  }

  /** The selection rule: closing time reached and still active. */
  predicate Due(b: Bet, now: int)
  {
    b.closingTime <= now && b.isActive
  }

  /** Bet `id` was read successfully and, against the clock read in the same
      iteration, was due.  `clock(id)` is what `Date.now()` returns then. */
  predicate Selected(c: Chain, clock: nat -> int, id: nat)
  {
    match ReadBet(c, id)
    case Some(b) => Due(b, UnixSeconds(clock(id)))
    case None => false
  }

  /** Bet `id` is handled without error: its read succeeds and, if it is
      selected, so does its settlement. */
  predicate StepOk(c: Chain, clock: nat -> int, id: nat)
  {
    ReadBet(c, id).Some? && (Selected(c, clock, id) ==> id !in c.settleFails)
  }

  /** Every id in `[lo, i)` was handled without error. */
  ghost predicate ReachedFrom(c: Chain, clock: nat -> int, lo: nat, i: nat)
  {
    forall j :: lo <= j < i ==> StepOk(c, clock, j)
  }

  /** The scan gets as far as bet `i`: no earlier id failed. */
  ghost predicate Reached(c: Chain, clock: nat -> int, i: nat)
  {
    ReachedFrom(c, clock, 0, i)
  }

  /** The calls `prefix` followed by what the rest of the scan does. */
  function Then(prefix: seq<Call>, rest: ScanResult): ScanResult
  {
    ScanResult(prefix + rest.trace, rest.error)
  }

  /** Prefixing calls in two steps or at once is the same. */
  lemma ThenAssoc(a: seq<Call>, b: seq<Call>, r: ScanResult)
    ensures Then(a, Then(b, r)) == Then(a + b, r)
  {
  }

  /** The loop of `checkBets` from bet `id` on. */
  function ScanFrom(c: Chain, clock: nat -> int, id: nat): ScanResult
    decreases c.totalBets - id
  {
    if id >= c.totalBets then ScanResult([], None)
    else
      match ReadBet(c, id)
      case None => ScanResult([Read(id)], Some(ReadFailed(id)))
      case Some(b) =>
        if !Due(b, UnixSeconds(clock(id))) then Then([Read(id)], ScanFrom(c, clock, id + 1))
        else if id in c.settleFails then ScanResult([Read(id), Settle(id)], Some(SettleFailed(id)))
        else Then([Read(id), Settle(id)], ScanFrom(c, clock, id + 1))
  }

  /** One whole `checkBets` call: read the count, return at once when it is
      zero, otherwise run the loop from bet 0. */
  function Scan(c: Chain, clock: nat -> int): ScanResult
  {
    if c.countFails then ScanResult([], Some(CountFailed))
    else if c.totalBets == 0 then ScanResult([], None)
    else ScanFrom(c, clock, 0)
  }

  /** `checkBets`: the sequential scan over the bet ids, ending early on the
      first failing remote call. */
  method CheckBets(c: Chain, clock: nat -> int) returns (r: ScanResult)
    ensures r == Scan(c, clock)
    ensures c.totalBets == 0 ==> r.trace == []
  {
    if c.countFails {
      return ScanResult([], Some(CountFailed));
    }
    var totalBets := c.totalBets;
    if totalBets == 0 {
      // "No bets to check"
      return ScanResult([], None);
    }
    var trace: seq<Call> := [];
    var betId: nat := 0;
    while betId < totalBets
      invariant betId <= totalBets
      invariant Scan(c, clock) == Then(trace, ScanFrom(c, clock, betId))
    {
      ghost var before := trace;
      trace := trace + [Read(betId)];
      var bet := ReadBet(c, betId);
      if bet.None? {
        return ScanResult(trace, Some(ReadFailed(betId)));
      }
      if Due(bet.value, UnixSeconds(clock(betId))) {
        // settleBet: submit the transaction, then wait for it to be mined
        trace := trace + [Settle(betId)];
        if betId in c.settleFails {
          return ScanResult(trace, Some(SettleFailed(betId)));
        }
        ThenAssoc(before, [Read(betId), Settle(betId)], ScanFrom(c, clock, betId + 1));
        assert trace == before + [Read(betId), Settle(betId)];
      } else {
        ThenAssoc(before, [Read(betId)], ScanFrom(c, clock, betId + 1));
      }
      betId := betId + 1;
    }
    assert ScanFrom(c, clock, betId) == ScanResult([], None);
    return ScanResult(trace, None);
  }

  /** The block handler: run a scan and catch whatever error ends it.  The
      handler itself always returns normally; the error only reaches the log. */
  method OnBlock(c: Chain, clock: nat -> int) returns (trace: seq<Call>, logged: Option<ScanError>)
    ensures trace == Scan(c, clock).trace
    ensures logged == Scan(c, clock).error
    ensures logged == None <==> !c.countFails && Reached(c, clock, c.totalBets)
  {
    var r := CheckBets(c, clock);
    ScanSucceedsIff(c, clock);
    trace, logged := r.trace, r.error;
  }

  // ---------------------------------------------------------------------
  // Properties of one scan
  // ---------------------------------------------------------------------

  /** Every call of the loop from `id` on concerns an id in `[id, totalBets)`. */
  lemma {:induction false} ScanFromBounds(c: Chain, clock: nat -> int, id: nat)
    ensures forall k :: 0 <= k < |ScanFrom(c, clock, id).trace| ==>
              id <= ScanFrom(c, clock, id).trace[k].id < c.totalBets
    decreases c.totalBets - id
  {
    if id < c.totalBets {
      ScanFromBounds(c, clock, id + 1);
    }
  }

  /** Ids never go down, and the only two calls with the same id are
      `Read(i)` followed by `Settle(i)`. */
  ghost predicate Ordered(t: seq<Call>)
  {
    forall p, q :: 0 <= p < q < |t| ==>
      t[p].id < t[q].id || (t[p].Read? && t[q].Settle? && t[p].id == t[q].id)
  }

  /** Each call is followed either by the settlement of the bet just read, or
      by the read of the next id. */
  predicate Follows(a: Call, b: Call)
  {
    match a
    case Read(i) => b == Settle(i) || b == Read(i + 1)
    case Settle(i) => b == Read(i + 1)
  }

  /** The trace starts with the read of `start` and each call follows its
      predecessor. */
  ghost predicate Sequential(t: seq<Call>, start: nat)
  {
    (|t| > 0 ==> t[0] == Read(start)) &&
    forall k :: 0 <= k < |t| - 1 ==> Follows(t[k], t[k + 1])
  }

  /** The calls of one iteration: the read of `id`, and its settlement when
      the bet was selected. */
  ghost predicate Iteration(h: seq<Call>, id: nat)
  {
    h == [Read(id)] || h == [Read(id), Settle(id)]
  }

  /** One iteration's calls before an ordered rest with greater ids stay ordered. */
  lemma OrderedCons(h: seq<Call>, rest: seq<Call>, id: nat)
    requires Iteration(h, id) && Ordered(rest)
    requires forall k :: 0 <= k < |rest| ==> id < rest[k].id
    ensures Ordered(h + rest)
  {
  }

  /** One iteration's calls before a sequential rest starting at the next id
      stay sequential. */
  lemma SequentialCons(h: seq<Call>, rest: seq<Call>, id: nat)
    requires Iteration(h, id) && Sequential(rest, id + 1)
    ensures Sequential(h + rest, id)
  {
  }

  /** The loop's trace from bet `id` on is ordered and sequential. */
  lemma {:induction false} ScanFromShape(c: Chain, clock: nat -> int, id: nat)
    ensures Ordered(ScanFrom(c, clock, id).trace)
    ensures Sequential(ScanFrom(c, clock, id).trace, id)
    decreases c.totalBets - id
  {
    if id < c.totalBets && ReadBet(c, id).Some? {
      var b := ReadBet(c, id).value;
      var rest := ScanFrom(c, clock, id + 1).trace;
      if !Due(b, UnixSeconds(clock(id))) || id !in c.settleFails {
        var h := if Due(b, UnixSeconds(clock(id))) then [Read(id), Settle(id)] else [Read(id)];
        assert ScanFrom(c, clock, id).trace == h + rest;
        ScanFromShape(c, clock, id + 1);
        ScanFromBounds(c, clock, id + 1);
        OrderedCons(h, rest, id);
        SequentialCons(h, rest, id);
      }
    }
  }

  /** Every call of a scan concerns an id in `[0, totalBets)`; settled ids
      appear in strictly increasing order (so each at most once); `Read(i)`
      comes before the optional `Settle(i)`, and that comes before `Read(i+1)`. */
  lemma ScanShape(c: Chain, clock: nat -> int)
    ensures forall k :: 0 <= k < |Scan(c, clock).trace| ==> Scan(c, clock).trace[k].id < c.totalBets
    ensures Ordered(Scan(c, clock).trace)
    ensures Sequential(Scan(c, clock).trace, 0)
    ensures forall p, q ::
              (0 <= p < q < |Scan(c, clock).trace| &&
               Scan(c, clock).trace[p].Settle? && Scan(c, clock).trace[q].Settle?) ==>
              Scan(c, clock).trace[p].id < Scan(c, clock).trace[q].id
  {
    if !c.countFails && c.totalBets != 0 {
      ScanFromBounds(c, clock, 0);
      ScanFromShape(c, clock, 0);
    }
  }

  /** For `i > lo`, reaching `i` from `lo` is handling `lo` and reaching `i`
      from `lo + 1`. */
  lemma ReachedFromStep(c: Chain, clock: nat -> int, lo: nat, i: nat)
    requires lo < i
    ensures ReachedFrom(c, clock, lo, i) <==> StepOk(c, clock, lo) && ReachedFrom(c, clock, lo + 1, i)
  {
  }

  /** Which reads and settlements the loop from `id` makes, stated without
      reference to the loop. */
  lemma {:induction false} ScanFromCalls(c: Chain, clock: nat -> int, id: nat, i: nat)
    requires id <= i
    ensures Read(i) in ScanFrom(c, clock, id).trace <==>
              i < c.totalBets && ReachedFrom(c, clock, id, i)
    ensures Settle(i) in ScanFrom(c, clock, id).trace <==>
              i < c.totalBets && ReachedFrom(c, clock, id, i) && Selected(c, clock, i)
    decreases c.totalBets - id
  {
    if id < c.totalBets {
      var t := ScanFrom(c, clock, id).trace;
      var rest := ScanFrom(c, clock, id + 1).trace;
      ScanFromBounds(c, clock, id + 1);
      assert Read(id) !in rest && Settle(id) !in rest;
      if i > id {
        ScanFromCalls(c, clock, id + 1, i);
        ReachedFromStep(c, clock, id, i);
      }
    }
  }

  /** A bet is read in a scan iff the count was read and no smaller id failed. */
  lemma ReadIff(c: Chain, clock: nat -> int, i: nat)
    ensures Read(i) in Scan(c, clock).trace <==>
              !c.countFails && i < c.totalBets && Reached(c, clock, i)
  {
    ScanFromCalls(c, clock, 0, i);
  }

  /** A selected bet whose settlement succeeds is settled exactly once, right
      after it is read and before the next bet is read. */
  lemma SettleBeforeNextRead(c: Chain, clock: nat -> int, i: nat)
    requires !c.countFails && i + 1 < c.totalBets && Reached(c, clock, i + 1) && Selected(c, clock, i)
    ensures exists p :: 0 <= p && p + 2 < |Scan(c, clock).trace| &&
              Scan(c, clock).trace[p] == Read(i) &&
              Scan(c, clock).trace[p + 1] == Settle(i) &&
              Scan(c, clock).trace[p + 2] == Read(i + 1)
    ensures forall p, q ::
              (0 <= p < |Scan(c, clock).trace| && 0 <= q < |Scan(c, clock).trace| &&
               Scan(c, clock).trace[p] == Settle(i) && Scan(c, clock).trace[q] == Settle(i)) ==> p == q
  {
    var t := Scan(c, clock).trace;
    assert Reached(c, clock, i);
    SettledIff(c, clock, i);
    ReadIff(c, clock, i + 1);
    ScanShape(c, clock);
    var q :| 0 <= q < |t| && t[q] == Settle(i);
    var r :| 0 <= r < |t| && t[r] == Read(i + 1);
    assert q > 0 by {
      if q == 0 { assert t[0] == Read(0); }
    }
    assert Follows(t[q - 1], t[q]);
    assert q < r;
    assert Follows(t[q], t[q + 1]);
    assert t[q - 1] == Read(i) && t[q + 1] == Read(i + 1);
  }

  /** A bet is settled in a scan iff the scan reached it and, when it was read,
      its closing time was at most the current unix time and it was active. */
  lemma SettledIff(c: Chain, clock: nat -> int, i: nat)
    ensures Settle(i) in Scan(c, clock).trace <==>
              && !c.countFails && i < c.totalBets && Reached(c, clock, i)
              && ReadBet(c, i).Some?
              && ReadBet(c, i).value.closingTime <= UnixSeconds(clock(i))
              && ReadBet(c, i).value.isActive
  {
    ScanFromCalls(c, clock, 0, i);
  }

  /** A bet observed inactive, or not yet closed, is never settled by the scan
      that observed it, whatever else holds. */
  lemma NotDueNeverSettled(c: Chain, clock: nat -> int, i: nat)
    requires i < |c.bets| ==> !Due(c.bets[i], UnixSeconds(clock(i)))
    ensures Settle(i) !in Scan(c, clock).trace
  {
    SettledIff(c, clock, i);
  }

  /** How the loop from `id` ends: without error exactly when every id from
      `id` on is handled; otherwise at the first failing id, whose call is the
      last one made. */
  lemma {:induction false} ScanFromError(c: Chain, clock: nat -> int, id: nat)
    ensures var r := ScanFrom(c, clock, id);
      match r.error
      case None => ReachedFrom(c, clock, id, c.totalBets)
      case Some(e) =>
        && !e.CountFailed?
        && id <= e.id < c.totalBets
        && ReachedFrom(c, clock, id, e.id) && !StepOk(c, clock, e.id)
        && |r.trace| > 0
        && r.trace[|r.trace| - 1] == (if e.ReadFailed? then Read(e.id) else Settle(e.id))
        && (e.ReadFailed? <==> ReadBet(c, e.id).None?)
    decreases c.totalBets - id
  {
    if id < c.totalBets {
      ScanFromError(c, clock, id + 1);
      var r := ScanFrom(c, clock, id + 1);
      match r.error
      case None =>
        if ReadBet(c, id).Some? && (Selected(c, clock, id) ==> id !in c.settleFails) {
          ReachedFromStep(c, clock, id, c.totalBets);
        }
      case Some(e) =>
        if StepOk(c, clock, id) {
          ReachedFromStep(c, clock, id, e.id);
        }
    }
  }

  /** A scan ends without error iff the count was read and every bet was
      handled without error. */
  lemma ScanSucceedsIff(c: Chain, clock: nat -> int)
    ensures Scan(c, clock).error == None <==> !c.countFails && Reached(c, clock, c.totalBets)
    ensures Scan(c, clock).error == Some(CountFailed) <==> c.countFails
  {
    if !c.countFails && c.totalBets != 0 {
      ScanFromError(c, clock, 0);
    }
  }

  /** When reading or settling bet `k` fails, that is the first failing id,
      its call is the scan's last, and no greater id is read or settled. */
  lemma AbortOnFailure(c: Chain, clock: nat -> int, k: nat)
    requires Scan(c, clock).error == Some(ReadFailed(k)) || Scan(c, clock).error == Some(SettleFailed(k))
    ensures k < c.totalBets && Reached(c, clock, k) && !StepOk(c, clock, k)
    ensures Scan(c, clock).error == Some(ReadFailed(k)) <==> ReadBet(c, k).None?
    ensures forall j :: k < j ==> Read(j) !in Scan(c, clock).trace && Settle(j) !in Scan(c, clock).trace
  {
    ScanFromError(c, clock, 0);
    ScanFromBounds(c, clock, 0);
    ScanFromShape(c, clock, 0);
    var t := Scan(c, clock).trace;
    forall j | k < j ensures Read(j) !in t && Settle(j) !in t {
      forall p | 0 <= p < |t| ensures t[p].id <= k {
        if p < |t| - 1 {
          assert t[p].id <= t[|t| - 1].id;
        }
      }
    }
  }

  // ---------------------------------------------------------------------
  // Across scans
  // ---------------------------------------------------------------------

  /** Bet `j`'s settlement in the scan `r` was submitted and confirmed: the
      scan made the call, and the call did not end the scan with an error. */
  predicate SettledOk(r: ScanResult, j: nat)
  {
    Settle(j) in r.trace && r.error != Some(SettleFailed(j))
  }

  /** The bet table after the contract has applied the settlements a scan
      completed: a bet whose settlement succeeded keeps its closing time and
      is no longer active; a bet whose settlement reverted or was never
      confirmed is left as it was.  This is the contract's behaviour, assumed
      here, not the scanner's. */
  function AfterSettlement(bets: seq<Bet>, r: ScanResult): (after: seq<Bet>)
    ensures |after| == |bets|
    ensures forall j :: 0 <= j < |bets| ==>
              after[j].closingTime == bets[j].closingTime &&
              (after[j].isActive <==> bets[j].isActive && !SettledOk(r, j))
  {
    seq(|bets|, j requires 0 <= j < |bets| =>
      if SettledOk(r, j) then bets[j].(isActive := false) else bets[j])
  }

  /** Idempotence across scans: once the contract has recorded the
      settlements a scan completed, no later scan settles any of those bets
      again, whatever its clock, its count, its failures and whatever bets
      were added or changed in between.  Only the settled bets' entries in the
      later table are constrained: each is what `AfterSettlement` made of it. */
  lemma NoResettlement(c1: Chain, clock1: nat -> int, c2: Chain, clock2: nat -> int)
    requires forall j :: 0 <= j < |c1.bets| && j < |c2.bets| && SettledOk(Scan(c1, clock1), j) ==>
               c2.bets[j] == AfterSettlement(c1.bets, Scan(c1, clock1))[j]
    ensures forall j: nat :: SettledOk(Scan(c1, clock1), j) ==> Settle(j) !in Scan(c2, clock2).trace
  {
    forall j: nat | SettledOk(Scan(c1, clock1), j)
      ensures Settle(j) !in Scan(c2, clock2).trace
    {
      SettledIff(c1, clock1, j);
      NotDueNeverSettled(c2, clock2, j);
    }
  }

  /** Retry on the next block: a failed settlement does not stop a later
      scan from settling the bet.  When the settlement of bet `k` fails and
      the later table still holds bet `k` as it was read (the failed
      transaction was not applied after all), a later scan that reaches `k`
      with a clock that has not gone back, and reads it successfully, settles
      it again.  Other bets may have been added or changed in between. */
  lemma FailedSettlementRetried(c1: Chain, clock1: nat -> int, c2: Chain, clock2: nat -> int, k: nat)
    requires Scan(c1, clock1).error == Some(SettleFailed(k))
    requires k < |c1.bets| && k < |c2.bets| && c2.bets[k] == c1.bets[k]
    requires !c2.countFails && k < c2.totalBets && Reached(c2, clock2, k) && k !in c2.readFails
    requires UnixSeconds(clock1(k)) <= UnixSeconds(clock2(k))
    ensures Settle(k) in Scan(c2, clock2).trace
  {
    AbortOnFailure(c1, clock1, k);
    assert Selected(c2, clock2, k);
    SettledIff(c2, clock2, k);
  }
}
