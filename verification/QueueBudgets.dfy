/**
 Bounded work: how often the workers can claim one row before it is over.

 Two budgets meet here. A worker that comes back charges `attempts` and stops retrying at
 `maxAttempts`; a worker that dies is charged to `reclaims` by whoever recovers the row.
 */
module QueueBudgets {
  import opened Common
  import opened Queue
  import opened QueueRuns
  import opened QueueStore

  /** Claims of the row since it was appended or last revived. */
  function ClaimsSince(history: seq<Mark>, id: Id): nat {
    if history == [] then 0
    else
      var last, earlier := history[|history| - 1], history[..|history| - 1];
      if last.id != id then ClaimsSince(earlier, id)
      else
        match last
        case Revived(_, _) => 0
        case Claimed(_, _, _) => 1 + ClaimsSince(earlier, id)
        case _ => ClaimsSince(earlier, id)
  }

  /** The attempts the row had already spent when it was last revived. */
  function SpentBefore(history: seq<Mark>, id: Id): nat {
    if history == [] then 0
    else
      var last := history[|history| - 1];
      if last.id == id && last.Revived? then last.attempts else SpentBefore(history[..|history| - 1], id)
  }

  lemma CountsAppend(history: seq<Mark>, m: Mark, id: Id)
    ensures m.id != id ==> ClaimsSince(history + [m], id) == ClaimsSince(history, id)
                           && SpentBefore(history + [m], id) == SpentBefore(history, id)
    ensures m.id == id && m.Revived? ==> ClaimsSince(history + [m], id) == 0
                                         && SpentBefore(history + [m], id) == m.attempts
    ensures m.id == id && !m.Revived? ==> SpentBefore(history + [m], id) == SpentBefore(history, id)
    ensures m.id == id && m.Claimed? ==> ClaimsSince(history + [m], id) == ClaimsSince(history, id) + 1
    ensures m.id == id && (m.Acknowledged? || m.Recovered?)
            ==> ClaimsSince(history + [m], id) == ClaimsSince(history, id)
  {
    assert (history + [m])[..|history|] == history;
  }

  datatype Policy = Policy(maxAttempts: int, maxReclaims: nat)

  /** The attempts a worker was told of when it claimed the row under this token. */
  ghost predicate ClaimedAt(history: seq<Mark>, id: Id, token: Token, attempts: nat) {
    Claimed(id, token, attempts) in history
  }

  /**
   What the relay, the delivery worker and the inbound dispatcher do. A retry is only asked for
   while the attempts read at the claim leave another; every recovery uses the one budget.
   */
  ghost predicate WorkerStep(s: State, c: Command, p: Policy) {
    match c
    case Recover(_, maxReclaims, _) => maxReclaims == p.maxReclaims
    case Acknowledge(id, token, RetryAt(_, _)) =>
      forall attempts: nat :: ClaimedAt(s.history, id, token, attempts) ==> attempts + 1 < p.maxAttempts
    case _ => true
  }

  ghost predicate WorkerRun(log: seq<Command>, p: Policy) {
    log == [] || (WorkerRun(log[..|log| - 1], p)
                  && WorkerStep(Run(EMPTY_STATE, log[..|log| - 1]), log[|log| - 1], p))
  }

  /** The most claims a row can see that had spent `before` attempts when it was last set going. */
  function Allowance(before: nat, p: Policy): int {
    (if p.maxAttempts - before > 1 then p.maxAttempts - before else 1) + p.maxReclaims
  }

  ghost predicate WithinBudget(s: State, id: Id, p: Policy) {
    var claims, before := ClaimsSince(s.history, id), SpentBefore(s.history, id);
    if id !in s.rows then claims == 0 && before == 0
    else
      var row := s.rows[id];
      && claims <= Allowance(before, p)
      && (row.status == Pending ==>
            && row.reclaims <= p.maxReclaims
            && before <= row.attempts
            && (row.attempts == before || row.attempts < p.maxAttempts)
            && claims <= row.attempts - before + row.reclaims + if row.token.Some? then 1 else 0)
  }

  ghost predicate AllWithinBudget(s: State, p: Policy) {
    forall id :: WithinBudget(s, id, p)
  }

  /** Only the row the new mark names has to be looked at. */
  lemma OneRowMoves(s: State, after: State, id: Id, p: Policy)
    requires AllWithinBudget(s, p) && id in s.rows && id in after.rows
    requires after.rows == s.rows[id := after.rows[id]]
    requires |after.history| == |s.history| + 1 && after.history == s.history + [after.history[|s.history|]]
    requires after.history[|s.history|].id == id && WithinBudget(after, id, p)
    ensures AllWithinBudget(after, p)
  {
    forall other
      ensures WithinBudget(after, other, p)
    {
      assert WithinBudget(s, other, p);
      CountsAppend(s.history, after.history[|s.history|], other);
    }
  }

  lemma {:induction false} ClaimBatchWithinBudget(s: State, batch: seq<Id>, now: Time, lease: int, p: Policy)
    requires AllWithinBudget(s, p)
    requires forall i :: i in batch ==> i in s.rows && s.rows[i].status == Pending && s.rows[i].token == None
    requires Distinct(batch)
    ensures AllWithinBudget(ClaimBatch(s, batch, now, lease), p)
  {
    if batch != [] {
      var shorter, id := batch[..|batch| - 1], batch[|batch| - 1];
      ClaimBatchWithinBudget(s, shorter, now, lease, p);
      ClaimBatchTouchesOnlyItself(s, shorter, now, lease);
      assert id in batch && id !in shorter;
      var mid := ClaimBatch(s, shorter, now, lease);
      var after := ClaimOne(mid, id, now, lease);
      assert WithinBudget(mid, id, p);
      CountsAppend(mid.history, after.history[|mid.history|], id);
      OneRowMoves(mid, after, id, p);
    }
  }

  lemma {:induction false} RecoverBatchWithinBudget(s: State, batch: seq<Id>, now: Time, p: Policy)
    requires AllWithinBudget(s, p)
    requires forall i :: i in batch ==> i in s.rows && s.rows[i].status == Pending && s.rows[i].token.Some?
    requires Distinct(batch)
    ensures AllWithinBudget(RecoverBatch(s, batch, now, p.maxReclaims), p)
  {
    if batch != [] {
      var shorter, id := batch[..|batch| - 1], batch[|batch| - 1];
      RecoverBatchWithinBudget(s, shorter, now, p);
      RecoverBatchTouchesOnlyItself(s, shorter, now, p.maxReclaims);
      assert id in batch && id !in shorter;
      var mid := RecoverBatch(s, shorter, now, p.maxReclaims);
      var after := RecoverOne(mid, id, now, p.maxReclaims);
      assert WithinBudget(mid, id, p);
      CountsAppend(mid.history, after.history[|mid.history|], id);
      OneRowMoves(mid, after, id, p);
    }
  }

  lemma {:induction false} LastMarkIsRecorded(history: seq<Mark>, id: Id)
    requires LastMark(history, id).Some?
    ensures LastMark(history, id).value in history && LastMark(history, id).value.id == id
  {
    if history[|history| - 1].id != id {
      LastMarkIsRecorded(history[..|history| - 1], id);
    }
  }

  lemma AcknowledgementWithinBudget(s: State, id: Id, token: Token, ack: Ack, p: Policy)
    requires Consistent(s) && AllWithinBudget(s, p) && WorkerStep(s, Acknowledge(id, token, ack), p)
    ensures AllWithinBudget(AcknowledgeOne(s, id, token, ack), p)
  {
    var after := AcknowledgeOne(s, id, token, ack);
    if |after.history| != |s.history| {
      assert InStep(s, id) && WithinBudget(s, id, p);
      LastMarkIsRecorded(s.history, id);
      assert ClaimedAt(s.history, id, token, s.rows[id].attempts);
      CountsAppend(s.history, Acknowledged(id, token, ack), id);
      OneRowMoves(s, after, id, p);
    }
  }

  lemma StepWithinBudget(s: State, c: Command, p: Policy)
    requires Consistent(s) && AllWithinBudget(s, p) && WorkerStep(s, c, p)
    ensures AllWithinBudget(Step(s, c), p)
  {
    match c
    case Append(id, now) =>
      forall other
        ensures WithinBudget(Step(s, c), other, p)
      {
        assert WithinBudget(s, other, p);
      }
    case Claim(now, count, lease) =>
      DueBatchIsDue(s.rows, now, count);
      forall i | i in DueBatch(s.rows, now, count)
        ensures s.rows[i].token == None
      {
        assert InStep(s, i);
      }
      ClaimBatchWithinBudget(s, DueBatch(s.rows, now, count), now, lease, p);
      forall id
        ensures WithinBudget(Step(s, c), id, p)
      {
        assert WithinBudget(ClaimBatch(s, DueBatch(s.rows, now, count), now, lease), id, p);
      }
    case Recover(now, maxReclaims, limit) =>
      AbandonedBatchIsAbandoned(s.rows, now, limit);
      forall i | i in AbandonedBatch(s.rows, now, limit)
        ensures s.rows[i].token.Some?
      {
        assert InStep(s, i);
      }
      RecoverBatchWithinBudget(s, AbandonedBatch(s.rows, now, limit), now, p);
    case Acknowledge(id, token, ack) =>
      AcknowledgementWithinBudget(s, id, token, ack, p);
    case Revive(id, now) =>
      var after := Step(s, c);
      if id in s.rows && s.rows[id].status == Dead {
        CountsAppend(s.history, Revived(id, s.rows[id].attempts), id);
        OneRowMoves(s, after, id, p);
      }
  }

  lemma {:induction false} WorkersStayWithinBudget(log: seq<Command>, p: Policy)
    requires WorkerRun(log, p)
    ensures AllWithinBudget(Run(EMPTY_STATE, log), p)
  {
    if log != [] {
      WorkersStayWithinBudget(log[..|log| - 1], p);
      EveryRunIsConsistent(log[..|log| - 1]);
      StepWithinBudget(Run(EMPTY_STATE, log[..|log| - 1]), log[|log| - 1], p);
    }
  }

  /**
   Bounded work over every run of any number of workers: since its append or latest revival a
   row is claimed at most `maxAttempts - attempts already spent` times (at least once) plus
   `maxReclaims`. A row revived after spending its attempts gets at most `maxReclaims + 1`.
   */
  lemma WorkIsBounded(log: seq<Command>, id: Id, p: Policy)
    requires WorkerRun(log, p)
    ensures var h := Run(EMPTY_STATE, log).history;
            && ClaimsSince(h, id) <= Allowance(SpentBefore(h, id), p)
            && (SpentBefore(h, id) == 0 && p.maxAttempts >= 1 ==> ClaimsSince(h, id) <= p.maxAttempts + p.maxReclaims)
            && (SpentBefore(h, id) >= p.maxAttempts ==> ClaimsSince(h, id) <= 1 + p.maxReclaims)
  {
    WorkersStayWithinBudget(log, p);
    assert WithinBudget(Run(EMPTY_STATE, log), id, p);
  }

  // ----- the allowance is reached -----

  lemma Extend(log: seq<Command>, s: State, c: Command, p: Policy) returns (longer: seq<Command>)
    requires WorkerRun(log, p) && s == Run(EMPTY_STATE, log) && WorkerStep(s, c, p)
    ensures WorkerRun(longer, p) && Run(EMPTY_STATE, longer) == Step(s, c)
  {
    longer := log + [c];
    assert longer[..|log|] == log;
  }

  /** Claiming and recovering when the store holds one row. */
  lemma OneRowSteps(s: State, id: Id, row: Row, now: Time, maxReclaims: nat)
    requires s.rows == map[id := row]
    ensures Due(row, now) ==> Step(s, Claim(now, 1, 5)) == ClaimOne(s, id, now, 5).(nextToken := s.nextToken + 1)
    ensures Abandoned(row, now) ==> Step(s, Recover(now, maxReclaims, 1)) == RecoverOne(s, id, now, maxReclaims)
  {
    assert Due(row, now) ==> DueIds(s.rows, now) == {id};
    assert Abandoned(row, now) ==> AbandonedIds(s.rows, now) == {id};
    assert {id} - {id} == {} && [id][..0] == [];
    assert DueOrder(s.rows, {id}) == [id];
    assert ClaimBatch(s, [id], now, 5) == ClaimOne(s, id, now, 5);
    assert RecoverBatch(s, [id], now, maxReclaims) == RecoverOne(s, id, now, maxReclaims);
  }

  /** Every claim on record came with a token already given. */
  ghost predicate TokensGiven(s: State) {
    forall m :: m in s.history && m.Claimed? ==> m.token < s.nextToken
  }

  /** A store of one row nobody holds, due now, and how often it was claimed. */
  ghost predicate Idle(s: State, id: Id, now: Time, attempts: nat, reclaims: nat, claims: nat) {
    && s.rows.Keys == {id} && TokensGiven(s) && Due(s.rows[id], now)
    && s.rows[id].attempts == attempts && s.rows[id].reclaims == reclaims
    && ClaimsSince(s.history, id) == claims && SpentBefore(s.history, id) == 0
  }

  /** The same row in a worker's hands. */
  ghost predicate Held(s: State, id: Id, now: Time, token: Token, attempts: nat, reclaims: nat, claims: nat) {
    && s.rows.Keys == {id} && TokensGiven(s)
    && s.rows[id].status == Pending && s.rows[id].token == Some(token) && Abandoned(s.rows[id], now + 5)
    && s.rows[id].attempts == attempts && s.rows[id].reclaims == reclaims
    && ClaimsSince(s.history, id) == claims && SpentBefore(s.history, id) == 0
    && forall told: nat :: ClaimedAt(s.history, id, token, told) ==> told == attempts
  }

  lemma IdleIsClaimed(s: State, id: Id, now: Time, attempts: nat, reclaims: nat, claims: nat)
    requires Idle(s, id, now, attempts, reclaims, claims)
    ensures Held(Step(s, Claim(now, 1, 5)), id, now, s.nextToken, attempts, reclaims, claims + 1)
  {
    assert s.rows == map[id := s.rows[id]];
    OneRowSteps(s, id, s.rows[id], now, 0);
    ClaimedIsHeld(s, id, now, attempts, reclaims, claims, Step(s, Claim(now, 1, 5)));
  }

  lemma ClaimedIsHeld(s: State, id: Id, now: Time, attempts: nat, reclaims: nat, claims: nat, after: State)
    requires Idle(s, id, now, attempts, reclaims, claims)
    requires after == ClaimOne(s, id, now, 5).(nextToken := s.nextToken + 1)
    ensures Held(after, id, now, s.nextToken, attempts, reclaims, claims + 1)
  {
    CountsAppend(s.history, Claimed(id, s.nextToken, attempts), id);
  }

  /** A worker that comes back to report a failure. */
  lemma HeldIsRetried(s: State, id: Id, now: Time, token: Token, attempts: nat, reclaims: nat, claims: nat, p: Policy)
    requires Held(s, id, now, token, attempts, reclaims, claims) && attempts + 1 < p.maxAttempts
    ensures var c := Acknowledge(id, token, RetryAt(now, "refused"));
            WorkerStep(s, c, p) && Idle(Step(s, c), id, now, attempts + 1, reclaims, claims)
  {
    CountsAppend(s.history, Acknowledged(id, token, RetryAt(now, "refused")), id);
  }

  /** A worker that dies, and whoever recovers the row. */
  lemma HeldIsRecovered(s: State, id: Id, now: Time, token: Token, attempts: nat, reclaims: nat, claims: nat, p: Policy)
    requires Held(s, id, now, token, attempts, reclaims, claims) && reclaims < p.maxReclaims
    ensures Idle(Step(s, Recover(now + 5, p.maxReclaims, 1)), id, now + 5, attempts, reclaims + 1, claims)
  {
    assert s.rows == map[id := s.rows[id]];
    OneRowSteps(s, id, s.rows[id], now + 5, p.maxReclaims);
    CountsAppend(s.history, Recovered(id, token), id);
  }

  lemma {:induction false} AfterFailures(id: Id, n: nat, p: Policy) returns (log: seq<Command>)
    requires n == 0 || n < p.maxAttempts
    ensures WorkerRun(log, p) && Idle(Run(EMPTY_STATE, log), id, 0, n, 0, n)
  {
    if n == 0 {
      log := Extend([], EMPTY_STATE, Append(id, 0), p);
    } else {
      log := AfterFailures(id, n - 1, p);
      var s := Run(EMPTY_STATE, log);
      IdleIsClaimed(s, id, 0, n - 1, 0, n - 1);
      log := Extend(log, s, Claim(0, 1, 5), p);
      var held := Step(s, Claim(0, 1, 5));
      HeldIsRetried(held, id, 0, s.nextToken, n - 1, 0, n, p);
      log := Extend(log, held, Acknowledge(id, s.nextToken, RetryAt(0, "refused")), p);
    }
  }

  lemma {:induction false} AfterDeaths(id: Id, failures: nat, n: nat, p: Policy) returns (log: seq<Command>)
    requires (failures == 0 || failures < p.maxAttempts) && n <= p.maxReclaims
    ensures WorkerRun(log, p) && Idle(Run(EMPTY_STATE, log), id, 5 * n, failures, n, failures + n)
  {
    if n == 0 {
      log := AfterFailures(id, failures, p);
    } else {
      log := AfterDeaths(id, failures, n - 1, p);
      var s, now := Run(EMPTY_STATE, log), 5 * (n - 1);
      IdleIsClaimed(s, id, now, failures, n - 1, failures + n - 1);
      log := Extend(log, s, Claim(now, 1, 5), p);
      var held := Step(s, Claim(now, 1, 5));
      HeldIsRecovered(held, id, now, s.nextToken, failures, n - 1, failures + n, p);
      log := Extend(log, held, Recover(now + 5, p.maxReclaims, 1), p);
    }
  }

  /**
   The allowance is not slack under any policy: as many failures as leave one attempt, as many deaths
   as may be recovered from, and a last claim use it up.
   */
  lemma TheAllowanceIsReached(id: Id, p: Policy) returns (log: seq<Command>)
    ensures WorkerRun(log, p) && SpentBefore(Run(EMPTY_STATE, log).history, id) == 0
    ensures ClaimsSince(Run(EMPTY_STATE, log).history, id) == Allowance(0, p)
  {
    var failures := if p.maxAttempts > 1 then p.maxAttempts - 1 else 0;
    log := AfterDeaths(id, failures, p.maxReclaims, p);
    var s, now := Run(EMPTY_STATE, log), 5 * p.maxReclaims;
    IdleIsClaimed(s, id, now, failures, p.maxReclaims, failures + p.maxReclaims);
    log := Extend(log, s, Claim(now, 1, 5), p);
  }
}
