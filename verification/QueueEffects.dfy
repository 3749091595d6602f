/**
 What the queue's operations mean in clocks: a claim gives its holder the time of its lease, a retry
 waits until its instant, and what is due is served. Everything is said of one row, before and after
 any further run of any number of workers.
 */
module QueueEffects {
  import opened Common
  import opened Queue
  import opened QueueRuns
  import opened QueueStore

  // ----- one command, seen from one row -----

  lemma {:induction false} ClaimedInBatch(s: State, batch: seq<Id>, now: Time, lease: int, id: Id)
    requires Distinct(batch) && (forall i :: i in batch ==> i in s.rows) && id in s.rows
    ensures ClaimBatch(s, batch, now, lease).rows[id]
         == if id in batch then ClaimedRow(s.rows[id], now, lease, s.nextToken) else s.rows[id]
  {
    if batch != [] {
      var shorter, last := batch[..|batch| - 1], batch[|batch| - 1];
      assert batch == shorter + [last] && last !in shorter;
      ClaimedInBatch(s, shorter, now, lease, id);
    }
  }

  lemma {:induction false} RecoveredInBatch(s: State, batch: seq<Id>, now: Time, maxReclaims: nat, id: Id)
    requires Distinct(batch) && (forall i :: i in batch ==> i in s.rows) && id in s.rows
    ensures RecoverBatch(s, batch, now, maxReclaims).rows[id]
         == if id in batch then RecoveredRow(s.rows[id], now, maxReclaims) else s.rows[id]
  {
    if batch != [] {
      var shorter, last := batch[..|batch| - 1], batch[|batch| - 1];
      assert batch == shorter + [last] && last !in shorter;
      RecoveredInBatch(s, shorter, now, maxReclaims, id);
    }
  }

  /** A row in a worker's hands under a token, until an instant. */
  predicate HeldUntil(row: Row, token: Token, until: Time) {
    row.status == Pending && row.claimedAt.Some? && row.token == Some(token) && row.nextAttempt == until
  }

  /** A row nobody holds, to be served from an instant on. */
  predicate WaitsUntil(row: Row, until: Time) {
    row.status == Pending && row.claimedAt.None? && row.token.None? && row.nextAttempt == until
  }

  // ----- a claim lasts as long as its lease -----

  /** Nobody recovers before the instant, and the holder does not acknowledge. */
  predicate Undisturbed(c: Command, id: Id, token: Token, until: Time) {
    match c
    case Recover(at, _, _) => at < until
    case Acknowledge(i, t, _) => i != id || t != token
    case _ => true
  }

  lemma HeldStays(s: State, c: Command, id: Id, token: Token, until: Time)
    requires id in s.rows && HeldUntil(s.rows[id], token, until) && Undisturbed(c, id, token, until)
    ensures id in Step(s, c).rows && Step(s, c).rows[id] == s.rows[id]
  {
    match c
    case Claim(now, count, lease) =>
      DueBatchIsDue(s.rows, now, count);
      ClaimedInBatch(s, DueBatch(s.rows, now, count), now, lease, id);
    case Recover(at, maxReclaims, limit) =>
      AbandonedBatchIsAbandoned(s.rows, at, limit);
      RecoveredInBatch(s, AbandonedBatch(s.rows, at, limit), at, maxReclaims, id);
    case _ =>
  }

  lemma {:induction false} HeldThroughout(s: State, log: seq<Command>, id: Id, token: Token, until: Time)
    requires id in s.rows && HeldUntil(s.rows[id], token, until)
    requires forall c :: c in log ==> Undisturbed(c, id, token, until)
    ensures id in Run(s, log).rows && Run(s, log).rows[id] == s.rows[id]
  {
    if log != [] {
      assert log[|log| - 1] in log;
      HeldThroughout(s, log[..|log| - 1], id, token, until);
      HeldStays(Run(s, log[..|log| - 1]), log[|log| - 1], id, token, until);
    }
  }

  /**
   A row that a claim at `now` took is its holder's until `now + lease`: through any run in which the
   holder does not acknowledge and nobody's recovery is clocked that late, the row stays as it is.
   */
  lemma ClaimLastsItsLease(s: State, now: Time, count: int, lease: int, id: Id, log: seq<Command>)
    requires id in s.rows && Step(s, Claim(now, count, lease)).rows[id] != s.rows[id]
    requires forall c :: c in log ==> Undisturbed(c, id, s.nextToken, now + lease)
    ensures var claimed := Step(s, Claim(now, count, lease));
            && claimed.rows[id].token == Some(s.nextToken) && claimed.rows[id].claimedAt == Some(now)
            && claimed.rows[id].attempts == s.rows[id].attempts && claimed.rows[id].reclaims == s.rows[id].reclaims
            && id in Run(claimed, log).rows && Run(claimed, log).rows[id] == claimed.rows[id]
  {
    DueBatchIsDue(s.rows, now, count);
    ClaimedInBatch(s, DueBatch(s.rows, now, count), now, lease, id);
    HeldThroughout(Step(s, Claim(now, count, lease)), log, id, s.nextToken, now + lease);
  }

  /** What a recovery leaves of a row it takes: one more reclaim, and the row due now, or dead for good. */
  predicate TakenBack(before: Row, after: Row, at: Time, maxReclaims: nat) {
    && after.claimedAt.None? && after.token.None? && after.reclaims == before.reclaims + 1
    && after.attempts == before.attempts && after.arrival == before.arrival
    && if before.reclaims >= maxReclaims then after.status == Dead
       else after.status == Pending && after.nextAttempt == at
  }

  lemma AllFit(rows: Rows, ids: set<Id>, limit: int, id: Id)
    requires ids <= rows.Keys && id in ids && |ids| <= limit
    ensures id in AtMost(DueOrder(rows, ids), limit)
  {
    assert |DueOrder(rows, ids)| == |ids|;
    assert ids != {};
  }

  /** Once the lease is over, a recovery with room for every abandoned row takes this one back. */
  lemma LeaseRunsOut(s: State, id: Id, token: Token, until: Time, at: Time, maxReclaims: nat, limit: int)
    requires id in s.rows && HeldUntil(s.rows[id], token, until) && until <= at
    requires |AbandonedIds(s.rows, at)| <= limit
    ensures TakenBack(s.rows[id], Step(s, Recover(at, maxReclaims, limit)).rows[id], at, maxReclaims)
  {
    AllFit(s.rows, AbandonedIds(s.rows, at), limit, id);
    AbandonedBatchIsAbandoned(s.rows, at, limit);
    RecoveredInBatch(s, AbandonedBatch(s.rows, at, limit), at, maxReclaims, id);
  }

  /** So a worker that dies holds a row up for its lease, and no longer. */
  lemma DeadHolderLosesTheRow(s: State, now: Time, count: int, lease: int, id: Id, log: seq<Command>, at: Time,
      maxReclaims: nat, limit: int)
    requires id in s.rows && Step(s, Claim(now, count, lease)).rows[id] != s.rows[id] && now + lease <= at
    requires forall c :: c in log ==> Undisturbed(c, id, s.nextToken, now + lease)
    requires |AbandonedIds(Run(Step(s, Claim(now, count, lease)), log).rows, at)| <= limit
    ensures var late := Run(Step(s, Claim(now, count, lease)), log);
            && id in late.rows
            && TakenBack(late.rows[id], Step(late, Recover(at, maxReclaims, limit)).rows[id], at, maxReclaims)
  {
    ClaimLastsItsLease(s, now, count, lease, id, log);
    DueBatchIsDue(s.rows, now, count);
    ClaimedInBatch(s, DueBatch(s.rows, now, count), now, lease, id);
    LeaseRunsOut(Run(Step(s, Claim(now, count, lease)), log), id, s.nextToken, now + lease, at, maxReclaims, limit);
  }

  // ----- a row that waits is served when it is due -----

  lemma WaitingStays(s: State, c: Command, id: Id, until: Time)
    requires id in s.rows && WaitsUntil(s.rows[id], until) && (c.Claim? ==> c.now < until)
    ensures id in Step(s, c).rows && Step(s, c).rows[id] == s.rows[id]
  {
    match c
    case Claim(now, count, lease) =>
      DueBatchIsDue(s.rows, now, count);
      ClaimedInBatch(s, DueBatch(s.rows, now, count), now, lease, id);
    case Recover(at, maxReclaims, limit) =>
      AbandonedBatchIsAbandoned(s.rows, at, limit);
      RecoveredInBatch(s, AbandonedBatch(s.rows, at, limit), at, maxReclaims, id);
    case _ =>
  }

  lemma {:induction false} WaitsThroughout(s: State, log: seq<Command>, id: Id, until: Time)
    requires id in s.rows && WaitsUntil(s.rows[id], until)
    requires forall c :: c in log && c.Claim? ==> c.now < until
    ensures id in Run(s, log).rows && Run(s, log).rows[id] == s.rows[id]
  {
    if log != [] {
      assert log[|log| - 1] in log;
      WaitsThroughout(s, log[..|log| - 1], id, until);
      WaitingStays(Run(s, log[..|log| - 1]), log[|log| - 1], id, until);
    }
  }

  /** A claim with room for every due row takes each of them, under one new token and for its lease. */
  lemma DueIsServed(s: State, id: Id, until: Time, now: Time, count: int, lease: int)
    requires id in s.rows && WaitsUntil(s.rows[id], until) && until <= now && |DueIds(s.rows, now)| <= count
    ensures HeldUntil(Step(s, Claim(now, count, lease)).rows[id], s.nextToken, now + lease)
  {
    AllFit(s.rows, DueIds(s.rows, now), count, id);
    DueBatchIsDue(s.rows, now, count);
    ClaimedInBatch(s, DueBatch(s.rows, now, count), now, lease, id);
  }

  /** An event or delivery is inserted once, due at once, with nothing charged to it. */
  lemma AppendIsExact(s: State, id: Id, now: Time)
    ensures var after := Step(s, Append(id, now));
            if id in s.rows then after == s
            else
              && after.rows.Keys == s.rows.Keys + {id} && (forall i :: i in s.rows ==> after.rows[i] == s.rows[i])
              && WaitsUntil(after.rows[id], now) && after.rows[id].arrival == now
              && after.rows[id].attempts == 0 && after.rows[id].reclaims == 0
  {
  }

  /**
   An acknowledgement under the row's token ends the claim as it says, and no other row moves; under
   any other token nothing moves at all. A retry charges an attempt and then waits for its instant,
   however many claims are made before it.
   */
  lemma AcknowledgementIsExact(s: State, id: Id, token: Token, ack: Ack)
    requires id in s.rows
    ensures var after := Step(s, Acknowledge(id, token, ack));
            if s.rows[id].token != Some(token) then after == s
            else
              && after.rows.Keys == s.rows.Keys && after.nextToken == s.nextToken
              && (forall i :: i in s.rows && i != id ==> after.rows[i] == s.rows[i])
              && var row, next := s.rows[id], after.rows[id];
                 && next.claimedAt.None? && next.token.None?
                 && next.reclaims == row.reclaims && next.arrival == row.arrival
                 && match ack
                    case Finish(charge) => next.status == Finished && next.attempts == row.attempts + charge
                    case RetryAt(at, _) =>
                      next.status == row.status && next.nextAttempt == at && next.attempts == row.attempts + 1
                    case Bury(_) => next.status == Dead && next.attempts == row.attempts + 1
                    case Suppress(_) => next.status == Dead && next.attempts == row.attempts
  {
  }

  lemma RetryWaits(s: State, id: Id, token: Token, until: Time, at: Time, error: string, log: seq<Command>)
    requires id in s.rows && HeldUntil(s.rows[id], token, until)
    requires forall c :: c in log && c.Claim? ==> c.now < at
    ensures var retried := Step(s, Acknowledge(id, token, RetryAt(at, error)));
            && WaitsUntil(retried.rows[id], at) && retried.rows[id].attempts == s.rows[id].attempts + 1
            && id in Run(retried, log).rows && Run(retried, log).rows[id] == retried.rows[id]
  {
    WaitsThroughout(Step(s, Acknowledge(id, token, RetryAt(at, error))), log, id, at);
  }

  /** A revived row waits for nothing: the next claim with room takes it, its attempts as they were. */
  lemma RevivedIsServed(s: State, id: Id, at: Time, now: Time, count: int, lease: int)
    requires id in s.rows && s.rows[id].status == Dead && at <= now
    requires |DueIds(Step(s, Revive(id, at)).rows, now)| <= count
    ensures var revived := Step(s, Revive(id, at));
            && WaitsUntil(revived.rows[id], at) && revived.rows[id].reclaims == 0
            && revived.rows[id].attempts == s.rows[id].attempts && revived.rows[id].lastError == s.rows[id].lastError
            && HeldUntil(Step(revived, Claim(now, count, lease)).rows[id], s.nextToken, now + lease)
  {
    DueIsServed(Step(s, Revive(id, at)), id, at, now, count, lease);
  }

  // ----- which rows, and how many -----

  /** Served first: due earlier, or at the same instant and arrived earlier, or in the order of the ids. */
  predicate Sooner(first: Row, i: Id, other: Row, j: Id) {
    || first.nextAttempt < other.nextAttempt
    || (first.nextAttempt == other.nextAttempt && first.arrival < other.arrival)
    || (first.nextAttempt == other.nextAttempt && first.arrival == other.arrival && i < j)
  }

  /** A claim never leaves a row waiting that was to be served before one it took. */
  lemma SoonerIsServedFirst(s: State, now: Time, count: int, lease: int, served: Id, left: Id)
    requires served in s.rows && left in s.rows && Due(s.rows[left], now)
    requires var after := Step(s, Claim(now, count, lease));
             after.rows[served] != s.rows[served] && after.rows[left] == s.rows[left]
    ensures Sooner(s.rows[served], served, s.rows[left], left)
  {
    var batch := DueBatch(s.rows, now, count);
    DueBatchIsDue(s.rows, now, count);
    ClaimedInBatch(s, batch, now, lease, served);
    ClaimedInBatch(s, batch, now, lease, left);
    BatchIsAPrefix(s.rows, now, count, served, left);
  }

  function Changed(before: Rows, after: Rows): set<Id> {
    set i | i in before && i in after && after[i] != before[i]
  }

  function Buried(before: Rows, after: Rows): set<Id> {
    set i | i in before && i in after && before[i].status != Dead && after[i].status == Dead
  }

  function Among(batch: seq<Id>): set<Id> {
    set i | i in batch
  }

  /** Those of the rows whose abandonment budget is spent. */
  function Spent(rows: Rows, ids: set<Id>, maxReclaims: nat): set<Id> {
    set i | i in ids && i in rows && rows[i].reclaims >= maxReclaims
  }

  lemma OneMoreSpent(rows: Rows, ids: set<Id>, id: Id, maxReclaims: nat)
    requires id in rows && id !in ids
    ensures |Spent(rows, ids + {id}, maxReclaims)|
         == |Spent(rows, ids, maxReclaims)| + if rows[id].reclaims >= maxReclaims then 1 else 0
  {
    if rows[id].reclaims >= maxReclaims {
      assert Spent(rows, ids + {id}, maxReclaims) == Spent(rows, ids, maxReclaims) + {id};
    } else {
      assert Spent(rows, ids + {id}, maxReclaims) == Spent(rows, ids, maxReclaims);
    }
  }

  lemma {:induction false} CountsOfBatch(rows: Rows, batch: seq<Id>, maxReclaims: nat)
    requires Distinct(batch) && forall i :: i in batch ==> i in rows
    ensures |batch| == |Among(batch)| && GivenUp(rows, batch, maxReclaims) == |Spent(rows, Among(batch), maxReclaims)|
  {
    if batch == [] {
      assert Spent(rows, Among(batch), maxReclaims) == {};
    } else {
      var shorter, last := batch[..|batch| - 1], batch[|batch| - 1];
      assert batch == shorter + [last] && last !in shorter;
      CountsOfBatch(rows, shorter, maxReclaims);
      assert Among(batch) == Among(shorter) + {last};
      OneMoreSpent(rows, Among(shorter), last, maxReclaims);
    }
  }

  /** The counts a recovery reports are of the rows it changed, and of those it gave up. */
  lemma RecoveryCountsItsRows(s: State, now: Time, maxReclaims: nat, limit: int)
    ensures var batch, after := AbandonedBatch(s.rows, now, limit), Step(s, Recover(now, maxReclaims, limit));
            && |batch| == |Changed(s.rows, after.rows)|
            && GivenUp(s.rows, batch, maxReclaims) == |Buried(s.rows, after.rows)|
  {
    var batch, after := AbandonedBatch(s.rows, now, limit), Step(s, Recover(now, maxReclaims, limit));
    AbandonedBatchIsAbandoned(s.rows, now, limit);
    CountsOfBatch(s.rows, batch, maxReclaims);
    forall i | i in s.rows
      ensures i in Changed(s.rows, after.rows) <==> i in batch
      ensures i in Buried(s.rows, after.rows) <==> i in batch && s.rows[i].reclaims >= maxReclaims
    {
      RecoveredInBatch(s, batch, now, maxReclaims, i);
    }
    assert Changed(s.rows, after.rows) == Among(batch);
    assert Buried(s.rows, after.rows) == Spent(s.rows, Among(batch), maxReclaims);
  }
}
