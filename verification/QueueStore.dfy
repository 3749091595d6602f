/**
 The reference queue table in the in-place form the outbox, the delivery store and the inbound
 store are written in. Every method is one step of `QueueRuns`, and the two ways the stores
 claim are proved to be the same step.
 */
module QueueStore {
  import opened Common
  import opened Queue
  import opened QueueRuns

  // ----- what the loops need to know about batches -----

  lemma {:induction false} ClaimBatchTouchesOnlyItself(s: State, batch: seq<Id>, now: Time, lease: int)
    requires forall i :: i in batch ==> i in s.rows
    ensures forall i :: i in s.rows && i !in batch ==> ClaimBatch(s, batch, now, lease).rows[i] == s.rows[i]
  {
    if batch != [] {
      ClaimBatchTouchesOnlyItself(s, batch[..|batch| - 1], now, lease);
    }
  }

  lemma {:induction false} RecoverBatchTouchesOnlyItself(s: State, batch: seq<Id>, now: Time, maxReclaims: nat)
    requires forall i :: i in batch ==> i in s.rows
    ensures forall i :: i in s.rows && i !in batch ==> RecoverBatch(s, batch, now, maxReclaims).rows[i] == s.rows[i]
  {
    if batch != [] {
      RecoverBatchTouchesOnlyItself(s, batch[..|batch| - 1], now, maxReclaims);
    }
  }

  lemma {:induction false} KeptMembers(order: seq<Id>, keep: set<Id>)
    ensures forall i :: i in Kept(order, keep) <==> i in order && i in keep
    ensures |Kept(order, keep)| <= |order|
  {
    if order != [] {
      KeptMembers(order[..|order| - 1], keep);
      assert order == order[..|order| - 1] + [order[|order| - 1]];
    }
  }

  /** A scan that stops at its limit has chosen the first rows of the full answer. */
  lemma KeptIsAPrefix(order: seq<Id>, n: nat, keep: set<Id>)
    requires n <= |order|
    ensures Kept(order[..n], keep) <= Kept(order, keep)
  {
    assert order == order[..n] + order[n..];
    KeptConcat(order[..n], order[n..], keep);
  }

  /** One more row of the list visited. */
  lemma ScanNext(order: seq<Id>, n: nat, keep: set<Id>)
    requires Distinct(order) && n < |order|
    ensures order[n] !in Kept(order[..n], keep)
    ensures Kept(order[..n + 1], keep) == Kept(order[..n], keep) + if order[n] in keep then [order[n]] else []
  {
    KeptMembers(order[..n], keep);
    assert order[..n + 1][..n] == order[..n];
  }

  /** A walk that stopped at its limit, or at the end, has chosen the first rows of the full answer. */
  lemma ScanStops(order: seq<Id>, n: nat, keep: set<Id>, limit: nat)
    requires n <= |order|
    requires |Kept(order[..n], keep)| == limit || (n == |order| && |Kept(order[..n], keep)| <= limit)
    ensures Kept(order[..n], keep) == AtMost(Kept(order, keep), limit)
  {
    KeptIsAPrefix(order, n, keep);
    if n == |order| {
      assert order[..n] == order;
    }
  }

  lemma BatchGrows(batch: seq<Id>, n: nat)
    requires Distinct(batch) && n < |batch|
    ensures batch[n] in batch && batch[n] !in batch[..n] && batch[..n + 1] == batch[..n] + [batch[n]]
  {
  }

  lemma ClaimNext(s: State, batch: seq<Id>, id: Id, now: Time, lease: int)
    requires (forall i :: i in batch ==> i in s.rows) && id in s.rows && id !in batch
    ensures ClaimBatch(s, batch, now, lease).rows[id] == s.rows[id]
    ensures ClaimBatch(s, batch + [id], now, lease) == ClaimOne(ClaimBatch(s, batch, now, lease), id, now, lease)
  {
    ClaimBatchTouchesOnlyItself(s, batch, now, lease);
    assert (batch + [id])[..|batch|] == batch;
  }

  lemma RecoverNext(s: State, batch: seq<Id>, id: Id, now: Time, maxReclaims: nat)
    requires (forall i :: i in batch ==> i in s.rows) && id in s.rows && id !in batch
    ensures RecoverBatch(s, batch, now, maxReclaims).rows[id] == s.rows[id]
    ensures RecoverBatch(s, batch + [id], now, maxReclaims)
         == RecoverOne(RecoverBatch(s, batch, now, maxReclaims), id, now, maxReclaims)
    ensures GivenUp(s.rows, batch + [id], maxReclaims)
         == GivenUp(s.rows, batch, maxReclaims) + if ReclaimExhausted(s.rows[id].reclaims, maxReclaims) then 1 else 0
  {
    RecoverBatchTouchesOnlyItself(s, batch, now, maxReclaims);
    assert (batch + [id])[..|batch|] == batch;
  }

  datatype Lease = Lease(id: Id, row: Row)

  datatype ReclaimOutcome = ReclaimOutcome(reclaimed: nat, dead: nat)

  /** How many rows of a batch recovery gave up on. */
  function GivenUp(rows: Rows, batch: seq<Id>, maxReclaims: nat): nat
    requires forall i :: i in batch ==> i in rows
  {
    if batch == [] then 0
    else
      GivenUp(rows, batch[..|batch| - 1], maxReclaims)
      + if ReclaimExhausted(rows[batch[|batch| - 1]].reclaims, maxReclaims) then 1 else 0
  }

  /** The rows handed out are the batch, each in the form it now has in the table. */
  predicate HandsOut(rows: Rows, leases: seq<Lease>, batch: seq<Id>) {
    |leases| == |batch|
    && forall k :: 0 <= k < |batch| ==> batch[k] in rows && leases[k] == Lease(batch[k], rows[batch[k]])
  }

  lemma HandsOutMore(rows: Rows, leases: seq<Lease>, batch: seq<Id>, id: Id, row: Row)
    requires HandsOut(rows, leases, batch) && id !in batch
    ensures HandsOut(rows[id := row], leases + [Lease(id, row)], batch + [id])
  {
  }

  class LeasedQueue {
    var rows: Rows
    var nextToken: Token
    ghost var history: seq<Mark>

    constructor ()
      ensures State() == EMPTY_STATE
    {
      rows, nextToken, history := map[], 0, [];
    }

    ghost function State(): State
      reads this
    {
      QueueRuns.State(rows, nextToken, history)
    }

    method Insert(id: Id, now: Time)
      modifies this
      ensures State() == Step(old(State()), Append(id, now))
    {
      if id !in rows {
        rows := rows[id := NewRow(now)];
      }
    }

    method NewClaimToken() returns (token: Token)
      modifies this`nextToken
      ensures token == old(nextToken) && nextToken == old(nextToken) + 1
    {
      token := nextToken;
      nextToken := nextToken + 1;
    }

    /** Stamp one row with a lease and hand it to the caller. */
    method TakeRow(id: Id, now: Time, lease: int, token: Token) returns (taken: Lease)
      requires id in rows
      modifies this`rows, this`history
      ensures State().(nextToken := token) == ClaimOne(old(State()).(nextToken := token), id, now, lease)
      ensures taken.id == id && rows == old(rows)[id := taken.row]
    {
      history := history + [Claimed(id, token, rows[id].attempts)];
      rows := rows[id := ClaimedRow(rows[id], now, lease, token)];
      taken := Lease(id, rows[id]);
    }

    /** Take one expired lease away, or give the row up. */
    method RecoverRow(id: Id, now: Time, maxReclaims: nat) returns (exhausted: bool)
      requires id in rows
      modifies this`rows, this`history
      ensures State() == RecoverOne(old(State()), id, now, maxReclaims)
      ensures exhausted <==> ReclaimExhausted(old(rows)[id].reclaims, maxReclaims)
    {
      var row := rows[id];
      exhausted := ReclaimExhausted(row.reclaims, maxReclaims);
      history := history + [Recovered(id, if row.token.Some? then row.token.value else 0)];
      rows := rows[id := RecoveredRow(row, now, maxReclaims)];
    }

    /** Walk a list of rows, skip what is not due, stop after a push that reaches the limit. */
    method ClaimFrom(order: seq<Id>, now: Time, limit: int, lease: int, token: Token) returns (due: seq<Lease>)
      requires Distinct(order) && forall i :: i in order ==> i in rows
      modifies this`rows, this`history
      ensures var taken := AtMost(Kept(order, DueIds(old(rows), now)), if limit < 1 then 1 else limit);
              && (forall i :: i in taken ==> i in old(rows))
              && State().(nextToken := token) == ClaimBatch(old(State()).(nextToken := token), taken, now, lease)
              && HandsOut(rows, due, taken)
    {
      due := [];
      ghost var s, keep := State().(nextToken := token), DueIds(rows, now);
      ghost var taken: seq<Id>, seen: nat := [], 0;
      for n := 0 to |order|
        invariant seen == n && taken == Kept(order[..n], keep)
        invariant forall i :: i in taken ==> i in s.rows
        invariant rows.Keys == s.rows.Keys && State().(nextToken := token) == ClaimBatch(s, taken, now, lease)
        invariant |taken| == 0 || |taken| < limit
        invariant HandsOut(rows, due, taken)
      {
        var id := order[n];
        ScanNext(order, n, keep);
        ClaimNext(s, taken, id, now, lease);
        seen := n + 1;
        var row := rows[id];
        if row.status != Pending || row.claimedAt.Some? || row.nextAttempt > now { continue; }
        HandsOutMore(rows, due, taken, id, ClaimedRow(row, now, lease, token));
        taken := taken + [id];
        var mine := TakeRow(id, now, lease, token);
        due := due + [mine];
        if |due| >= limit { break; }
      }
      ScanStops(order, seen, keep, if limit < 1 then 1 else limit);
    }

    /** The outbox's form: the whole table in due order, then skip. */
    method ClaimDueByScan(now: Time, limit: int, lease: int) returns (due: seq<Lease>)
      modifies this
      ensures State() == Step(old(State()), Claim(now, if limit < 1 then 1 else limit, lease))
      ensures HandsOut(rows, due, ScannedBatch(old(rows), now, limit))
    {
      var token := NewClaimToken();
      DueOrderIsOrdered(rows, rows.Keys);
      SortThenSkipIsFilterThenSort(rows, rows.Keys, DueIds(rows, now));
      ScannedIsSorted(rows, now, limit);
      due := ClaimFrom(DueOrder(rows, rows.Keys), now, limit, lease, token);
    }

    /** Claim every row of a list. */
    method ClaimEach(due: seq<Id>, now: Time, lease: int, token: Token) returns (claimed: seq<Lease>)
      requires Distinct(due) && forall i :: i in due ==> i in rows
      modifies this`rows, this`history
      ensures State().(nextToken := token) == ClaimBatch(old(State()).(nextToken := token), due, now, lease)
      ensures HandsOut(rows, claimed, due)
    {
      claimed := [];
      ghost var s := State().(nextToken := token);
      for n := 0 to |due|
        invariant rows.Keys == s.rows.Keys
        invariant State().(nextToken := token) == ClaimBatch(s, due[..n], now, lease)
        invariant HandsOut(rows, claimed, due[..n])
      {
        BatchGrows(due, n);
        ClaimNext(s, due[..n], due[n], now, lease);
        HandsOutMore(rows, claimed, due[..n], due[n], ClaimedRow(rows[due[n]], now, lease, token));
        var mine := TakeRow(due[n], now, lease, token);
        claimed := claimed + [mine];
      }
      assert due[..|due|] == due;
    }

    /** The deliveries' and the inbound log's form: filter, sort, slice, then claim what is left. */
    method ClaimDueBySlice(now: Time, limit: nat, lease: int) returns (claimed: seq<Lease>)
      modifies this
      ensures State() == Step(old(State()), Claim(now, limit, lease))
      ensures HandsOut(rows, claimed, SlicedBatch(old(rows), now, limit))
    {
      DueBatchIsDue(rows, now, limit);
      var due := Slice(DueOrder(rows, DueIds(rows, now)), limit);
      var token := NewClaimToken();
      claimed := ClaimEach(due, now, lease, token);
    }

    /** Walk a list of rows and take expired leases away until the limit is reached. */
    method RecoverFrom(order: seq<Id>, now: Time, maxReclaims: nat, limit: int) returns (outcome: ReclaimOutcome)
      requires Distinct(order) && forall i :: i in order ==> i in rows
      modifies this`rows, this`history
      ensures var taken := AtMost(Kept(order, AbandonedIds(old(rows), now)), limit);
              && (forall i :: i in taken ==> i in old(rows))
              && State() == RecoverBatch(old(State()), taken, now, maxReclaims)
              && outcome.reclaimed + outcome.dead == |taken|
              && outcome.dead == GivenUp(old(rows), taken, maxReclaims)
    {
      outcome := ReclaimOutcome(0, 0);
      ghost var s, keep := State(), AbandonedIds(rows, now);
      ghost var taken: seq<Id>, seen: nat := [], 0;
      for n := 0 to |order|
        invariant seen == n && taken == Kept(order[..n], keep)
        invariant forall i :: i in taken ==> i in s.rows
        invariant rows.Keys == s.rows.Keys && State() == RecoverBatch(s, taken, now, maxReclaims)
        invariant outcome.reclaimed + outcome.dead == |taken|
        invariant |taken| == 0 || |taken| <= limit
        invariant outcome.dead == GivenUp(s.rows, taken, maxReclaims)
      {
        if outcome.reclaimed + outcome.dead >= limit { break; }
        var id := order[n];
        ScanNext(order, n, keep);
        RecoverNext(s, taken, id, now, maxReclaims);
        seen := n + 1;
        var row := rows[id];
        if row.status != Pending || row.claimedAt.None? || row.nextAttempt > now { continue; }
        taken := taken + [id];
        var exhausted := RecoverRow(id, now, maxReclaims);
        outcome :=
            if exhausted then outcome.(dead := outcome.dead + 1) else outcome.(reclaimed := outcome.reclaimed + 1);
      }
      ScanStops(order, seen, keep, if limit < 0 then 0 else limit);
    }

    /** Shared by every queue: take expired leases away in due order, at most `limit` of them. */
    method ReclaimExpired(now: Time, maxReclaims: nat, limit: int) returns (outcome: ReclaimOutcome)
      modifies this`rows, this`history
      ensures State() == Step(old(State()), Recover(now, maxReclaims, limit))
      ensures outcome.reclaimed + outcome.dead == |AbandonedBatch(old(rows), now, limit)|
      ensures outcome.dead == GivenUp(old(rows), AbandonedBatch(old(rows), now, limit), maxReclaims)
    {
      DueOrderIsOrdered(rows, rows.Keys);
      SortThenSkipIsFilterThenSort(rows, rows.Keys, AbandonedIds(rows, now));
      outcome := RecoverFrom(DueOrder(rows, rows.Keys), now, maxReclaims, limit);
    }

    /** Every acknowledgement by a worker: refused unless the row still carries its token. */
    method Settle(id: Id, token: Token, ack: Ack) returns (applied: bool)
      modifies this
      ensures State() == Step(old(State()), Acknowledge(id, token, ack))
      ensures applied <==> id in old(rows) && old(rows)[id].token == Some(token)
    {
      if id !in rows || IsFenced(rows[id].token, Some(token)) {
        return false;
      }
      rows := rows[id := AcknowledgedRow(rows[id], ack)];
      history := history + [Acknowledged(id, token, ack)];
      return true;
    }

    method Revive(id: Id, now: Time) returns (revived: bool)
      modifies this
      ensures State() == Step(old(State()), Command.Revive(id, now))
      ensures revived <==> id in old(rows) && old(rows)[id].status == Dead
    {
      if id !in rows || rows[id].status != Dead {
        return false;
      }
      history := history + [Revived(id, rows[id].attempts)];
      rows := rows[id := RevivedRow(rows[id], now)];
      return true;
    }
  }

  /**
   With a positive lease, what one worker claimed is not handed to the next at the same instant,
   and rows it left behind are still there.
   */
  lemma SuccessiveBatchesAreDisjoint(s: State, now: Time, first: int, second: int, lease: int)
    requires lease > 0
    ensures DueIds(Step(s, Claim(now, first, lease)).rows, now)
         == DueIds(s.rows, now) - Members(DueBatch(s.rows, now, first))
    ensures Members(DueBatch(Step(s, Claim(now, first, lease)).rows, now, second))
         !! Members(DueBatch(s.rows, now, first))
  {
    var batch := DueBatch(s.rows, now, first);
    var after := Step(s, Claim(now, first, lease));
    DueBatchIsDue(s.rows, now, first);
    DueBatchIsDue(after.rows, now, second);
    ClaimBatchTouchesOnlyItself(s, batch, now, lease);
    ClaimBatchLeases(s, batch, now, lease);
  }

  function Members(batch: seq<Id>): set<Id> {
    set i | i in batch
  }

  lemma {:induction false} ClaimBatchLeases(s: State, batch: seq<Id>, now: Time, lease: int)
    requires forall i :: i in batch ==> i in s.rows
    ensures forall i :: i in batch ==> ClaimBatch(s, batch, now, lease).rows[i].claimedAt == Some(now)
  {
    if batch != [] {
      var shorter := batch[..|batch| - 1];
      ClaimBatchLeases(s, shorter, now, lease);
      ClaimBatchTouchesOnlyItself(s, shorter, now, lease);
      assert batch == shorter + [batch[|batch| - 1]];
    }
  }
}
