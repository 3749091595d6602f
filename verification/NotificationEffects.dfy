/**
 What becomes of a notification, said of its row and of the worker's counters: how long a claim
 lasts, how each answer of the provider ends it, and when a message that was accepted or delivered
 can still go out again.
 */
module NotificationEffects {
  import opened Backoff
  import opened Common
  import opened Notifications
  import opened NotificationService
  import opened NotificationDispatchers
  import Queue
  import QueueEffects

  // ----- a claim lasts as long as its lease -----

  predicate HeldUntil(r: Row, token: Token, until: Time) {
    r.status == Processing && r.token == Some(token) && r.nextAttempt == until
  }

  /** Nobody recovers before the instant, and the holder does not acknowledge. */
  predicate Undisturbed(c: Command, id: Id, token: Token, until: Time) {
    match c
    case ReclaimExpired(at, _, _) => at < until
    case Acknowledge(i, t, _) => i != id || t != token
    case _ => true
  }

  lemma HeldStays(s: State, c: Command, id: Id, token: Token, until: Time)
    requires id in s.rows && HeldUntil(s.rows[id], token, until) && Undisturbed(c, id, token, until)
    ensures id in Step(s, c).rows && Step(s, c).rows[id] == s.rows[id]
  {
    match c
    case ClaimDue(now, limit, lease) =>
      BatchIsDistinct(s.rows, DueIds(s.rows, now), limit);
      ClaimTouchesItsBatch(s, DueBatch(s.rows, now, limit), now, lease);
    case ReclaimExpired(at, maxAttempts, limit) =>
      BatchIsDistinct(s.rows, AbandonedIds(s.rows, at), limit);
      ReclaimTouchesItsBatch(s, AbandonedBatch(s.rows, at, limit), maxAttempts);
    case _ =>
  }

  lemma {:induction false} HeldThroughout(s: State, log: seq<Command>, id: Id, token: Token, until: Time)
    requires id in s.rows && HeldUntil(s.rows[id], token, until)
    requires forall c :: c in log ==> Undisturbed(c, id, token, until)
    ensures id in RunFrom(s, log).rows && RunFrom(s, log).rows[id] == s.rows[id]
  {
    if log != [] {
      assert log[|log| - 1] in log;
      HeldThroughout(s, log[..|log| - 1], id, token, until);
      HeldStays(RunFrom(s, log[..|log| - 1]), log[|log| - 1], id, token, until);
    }
  }

  /** What a claim makes of a row it takes: a new token, one attempt more, and the lease to send in. */
  predicate Taken(before: Row, after: Row, tokens: Token, now: Time, lease: int) {
    && after.status == Processing && after.token.Some? && after.token.value >= tokens
    && after.claimedAt == Some(now) && after.nextAttempt == now + lease
    && after.attempts == before.attempts + 1 && after.createdAt == before.createdAt
  }

  lemma {:induction false} ClaimTakes(s: State, batch: seq<Id>, now: Time, lease: int, id: Id)
    requires Distinct(batch) && (forall i :: i in batch ==> i in s.rows) && id in batch
    ensures Taken(s.rows[id], ClaimBatch(s, batch, now, lease).rows[id], s.tokens, now, lease)
  {
    var shorter, last := batch[..|batch| - 1], batch[|batch| - 1];
    assert batch == shorter + [last] && last !in shorter;
    ClaimTouchesItsBatch(s, shorter, now, lease);
    ClaimBatchTokens(s, shorter, now, lease);
    if id != last {
      ClaimTakes(s, shorter, now, lease, id);
    }
  }

  /**
   A claim at `now` leaves each row it takes to its holder until `now + lease`: through any run in
   which the holder does not acknowledge and nobody's recovery is clocked that late.
   */
  lemma ClaimLastsItsLease(s: State, now: Time, limit: nat, lease: int, id: Id, token: Token, log: seq<Command>)
    requires id in s.rows
    requires var claimed := Step(s, ClaimDue(now, limit, lease));
             claimed.rows[id] != s.rows[id] && claimed.rows[id].token == Some(token)
    requires forall c :: c in log ==> Undisturbed(c, id, token, now + lease)
    ensures var claimed := Step(s, ClaimDue(now, limit, lease));
            && Taken(s.rows[id], claimed.rows[id], s.tokens, now, lease)
            && id in RunFrom(claimed, log).rows && RunFrom(claimed, log).rows[id] == claimed.rows[id]
  {
    var batch := DueBatch(s.rows, now, limit);
    BatchIsDistinct(s.rows, DueIds(s.rows, now), limit);
    ClaimTouchesItsBatch(s, batch, now, lease);
    ClaimTakes(s, batch, now, lease, id);
    HeldThroughout(Step(s, ClaimDue(now, limit, lease)), log, id, token, now + lease);
  }

  /** What a recovery leaves: the row due again as it is, or failed when its attempts are spent. */
  predicate TakenBack(before: Row, after: Row, maxAttempts: int) {
    && after.token.None? && after.claimedAt.None? && after.attempts == before.attempts
    && after.nextAttempt == before.nextAttempt && after.createdAt == before.createdAt
    && after.status == if before.attempts >= maxAttempts then Failed else Pending
  }

  lemma {:induction false} ReclaimTakes(s: State, batch: seq<Id>, maxAttempts: int, id: Id)
    requires Distinct(batch) && (forall i :: i in batch ==> i in s.rows) && id in batch
    ensures TakenBack(s.rows[id], ReclaimBatch(s, batch, maxAttempts).rows[id], maxAttempts)
  {
    var shorter, last := batch[..|batch| - 1], batch[|batch| - 1];
    assert batch == shorter + [last] && last !in shorter;
    ReclaimTouchesItsBatch(s, shorter, maxAttempts);
    if id != last {
      ReclaimTakes(s, shorter, maxAttempts, id);
    }
  }

  /** Once the lease is over, a recovery with room for every abandoned row takes this one back. */
  lemma LeaseRunsOut(s: State, id: Id, token: Token, until: Time, at: Time, maxAttempts: int, limit: nat)
    requires id in s.rows && HeldUntil(s.rows[id], token, until) && until <= at
    requires |AbandonedIds(s.rows, at)| <= limit
    ensures TakenBack(s.rows[id], Step(s, ReclaimExpired(at, maxAttempts, limit)).rows[id], maxAttempts)
  {
    BatchIsDistinct(s.rows, AbandonedIds(s.rows, at), limit);
    QueueEffects.AllFit(AsQueueRows(s.rows), AbandonedIds(s.rows, at), limit, id);
    ReclaimTakes(s, AbandonedBatch(s.rows, at, limit), maxAttempts, id);
  }

  predicate WaitsUntil(r: Row, until: Time) {
    r.status == Pending && r.token.None? && r.nextAttempt == until
  }

  lemma WaitingStays(s: State, c: Command, id: Id, until: Time)
    requires id in s.rows && WaitsUntil(s.rows[id], until) && (c.ClaimDue? ==> c.now < until)
    ensures id in Step(s, c).rows && Step(s, c).rows[id] == s.rows[id]
  {
    match c
    case ClaimDue(now, limit, lease) =>
      BatchIsDistinct(s.rows, DueIds(s.rows, now), limit);
      ClaimTouchesItsBatch(s, DueBatch(s.rows, now, limit), now, lease);
    case ReclaimExpired(at, maxAttempts, limit) =>
      BatchIsDistinct(s.rows, AbandonedIds(s.rows, at), limit);
      ReclaimTouchesItsBatch(s, AbandonedBatch(s.rows, at, limit), maxAttempts);
    case _ =>
  }

  /** A message that waits is left alone by every claim before its instant. */
  lemma {:induction false} WaitsThroughout(s: State, log: seq<Command>, id: Id, until: Time)
    requires id in s.rows && WaitsUntil(s.rows[id], until)
    requires forall c :: c in log && c.ClaimDue? ==> c.now < until
    ensures id in RunFrom(s, log).rows && RunFrom(s, log).rows[id] == s.rows[id]
  {
    if log != [] {
      assert log[|log| - 1] in log;
      WaitsThroughout(s, log[..|log| - 1], id, until);
      WaitingStays(RunFrom(s, log[..|log| - 1]), log[|log| - 1], id, until);
    }
  }

  /** And is taken by the first claim from then on that has room for every due row. */
  lemma DueIsServed(s: State, id: Id, until: Time, now: Time, limit: nat, lease: int)
    requires id in s.rows && WaitsUntil(s.rows[id], until) && until <= now && |DueIds(s.rows, now)| <= limit
    ensures Taken(s.rows[id], Step(s, ClaimDue(now, limit, lease)).rows[id], s.tokens, now, lease)
  {
    BatchIsDistinct(s.rows, DueIds(s.rows, now), limit);
    QueueEffects.AllFit(AsQueueRows(s.rows), DueIds(s.rows, now), limit, id);
    ClaimTakes(s, DueBatch(s.rows, now, limit), now, lease, id);
  }

  lemma LeftBehindIsLater(rows: Queue.Rows, ids: set<Id>, limit: nat, taken: Id, left: Id)
    requires ids <= rows.Keys && taken in Queue.AtMost(Queue.DueOrder(rows, ids), limit)
    requires left in ids && left !in Queue.AtMost(Queue.DueOrder(rows, ids), limit)
    ensures taken in rows && Queue.Before(rows, taken, left)
  {
    var due := Queue.DueOrder(rows, ids);
    Queue.DueOrderIsOrdered(rows, ids);
    var a :| 0 <= a < |Queue.AtMost(due, limit)| && Queue.AtMost(due, limit)[a] == taken;
    var b :| 0 <= b < |due| && due[b] == left;
    assert b >= |Queue.AtMost(due, limit)| && due[a] == taken;
  }

  /** A claim never leaves a message waiting that was to be sent before one it took. */
  lemma SoonerIsServedFirst(s: State, now: Time, limit: nat, lease: int, served: Id, left: Id)
    requires served in s.rows && left in s.rows && Due(s.rows[left], now)
    requires var after := Step(s, ClaimDue(now, limit, lease));
             after.rows[served] != s.rows[served] && after.rows[left] == s.rows[left]
    ensures var first, other := s.rows[served], s.rows[left];
            || first.nextAttempt < other.nextAttempt
            || (first.nextAttempt == other.nextAttempt && first.createdAt < other.createdAt)
            || (first.nextAttempt == other.nextAttempt && first.createdAt == other.createdAt && served < left)
  {
    var batch := DueBatch(s.rows, now, limit);
    BatchIsDistinct(s.rows, DueIds(s.rows, now), limit);
    ClaimTouchesItsBatch(s, batch, now, lease);
    if left in batch {
      ClaimTakes(s, batch, now, lease, left);
    }
    LeftBehindIsLater(AsQueueRows(s.rows), DueIds(s.rows, now), limit, served, left);
  }

  // ----- how an answer ends a message -----

  /** A message arrives due at once, or failed at once when there is no address to send it to. */
  lemma ArrivalIsExact(s: State, id: Id, now: Time, addressed: bool)
    ensures var after := Step(s, Enqueue(id, now, addressed));
            if id in s.rows then after == s
            else
              && after.rows.Keys == s.rows.Keys + {id} && (forall i :: i in s.rows ==> after.rows[i] == s.rows[i])
              && after.rows[id].attempts == 0 && after.rows[id].createdAt == now
              && if addressed then WaitsUntil(after.rows[id], now) else after.rows[id].status == Failed
  {
  }

  /** The answers after which the same message may be tried again. */
  predicate Inconclusive(answer: Answer) {
    answer.NoAdapter? || answer.Threw? || answer.Retryable?
  }

  /** How long it then waits: what the provider asked for, or the base doubled after each attempt but the first. */
  function Wait(answer: Answer, attempts: nat, settings: Settings): int
    requires attempts > 0
  {
    if answer.Retryable? && answer.after.Some? then answer.after.value else Doubled(settings.baseBackoff, attempts - 1)
  }

  /** A message as the holder of its claim leaves it. */
  predicate EndedBy(before: Row, row: Row, answer: Answer, attempts: nat, now: Time, settings: Settings)
    requires attempts > 0
  {
    && row.token.None? && row.claimedAt.None? && row.attempts == before.attempts && row.createdAt == before.createdAt
    && (row.status == Accepted <==> answer.PassedOn?)
    && (row.status == Delivered <==> answer.TookIt?)
    && (row.status == Pending <==> Inconclusive(answer) && attempts < settings.maxAttempts)
    && row.status != Processing
    && (row.status == Pending ==> row.nextAttempt == now + Wait(answer, attempts, settings))
    && (row.status != Pending ==> row.nextAttempt == before.nextAttempt)
  }

  lemma AckEnds(here: State, l: Lease, answer: Answer, now: Time, settings: Settings)
    requires Holds(here, l.id, l.token) && l.attempts > 0
    ensures var row := AcknowledgedRow(here.rows[l.id], AckFor(answer, l.attempts, now, settings));
            EndedBy(here.rows[l.id], row, answer, l.attempts, now, settings)
  {
    BackoffDoubles(settings.baseBackoff, l.attempts - 1);
  }

  /**
   What processing one claimed message leaves behind, however others acted before and during the
   send. A dispatcher that lost its claim leaves nothing. Otherwise the message is accepted exactly
   when the provider passed it on and delivered exactly when it took it; it waits exactly when the
   answer settled nothing and attempts are left; and it has failed in every other case.
   */
  lemma ItemEndsAsItShould(s: State, l: Lease, sending: Sending, now: Time, settings: Settings)
    requires l.attempts > 0
    ensures var here := BeforeAck(s, l.id, l.token, sending);
            var after := AfterItem(s, l.id, l.token, l.attempts, sending, now, settings);
            if !Holds(here, l.id, l.token) then after == here
            else
              && after.rows.Keys == here.rows.Keys && after.tokens == here.tokens
              && (forall i :: i in here.rows && i != l.id ==> after.rows[i] == here.rows[i])
              && EndedBy(here.rows[l.id], after.rows[l.id], sending.answer, l.attempts, now, settings)
  {
    var here := BeforeAck(s, l.id, l.token, sending);
    if Holds(here, l.id, l.token) {
      AckEnds(here, l, sending.answer, now, settings);
    }
  }

  /** And exactly one counter grows: the one the row then names, or `fenced` when the claim was lost. */
  lemma ItemCountsTheEnding(counts: DispatchResult, s: State, l: Lease, sending: Sending, now: Time,
      settings: Settings)
    requires l.attempts > 0
    ensures var here := BeforeAck(s, l.id, l.token, sending);
            var after := AfterItem(s, l.id, l.token, l.attempts, sending, now, settings);
            var result := CountItem(counts, s, l, sending, now, settings);
            if !Holds(here, l.id, l.token) then result == counts.(fenced := counts.fenced + 1)
            else
              var status := after.rows[l.id].status;
              && result.fenced == counts.fenced && result.reclaimed == counts.reclaimed
              && result.accepted == counts.accepted + (if status == Accepted then 1 else 0)
              && result.delivered == counts.delivered + (if status == Delivered then 1 else 0)
              && result.retrying == counts.retrying + (if status == Pending then 1 else 0)
              && result.failed == counts.failed + (if status == Failed then 1 else 0)
  {
    ItemEndsAsItShould(s, l, sending, now, settings);
  }

  // ----- sent again after it was answered -----

  /** Some dispatcher was handed the message and has still not sent it. */
  predicate SomeoneIsBehind(o: Office, id: Id) {
    exists l :: l in o.unsent && l.id == id
  }

  ghost predicate IsSentAgain(o: Office, log: seq<Action>, id: Id, settings: Settings) {
    Sends(RunOffice(o, log, settings).store.history, id) > Sends(o.store.history, id)
  }

  ghost predicate CanBeSentAgain(o: Office, id: Id, settings: Settings) {
    exists log: seq<Action> :: IsSentAgain(o, log, id, settings)
  }

  lemma SameSendsCountAlike(s: State, after: State, id: Id)
    requires OnceEach(s.history) && OnceEach(after.history) && SameSends(s, after)
    ensures Sends(after.history, id) == Sends(s.history, id)
  {
    SendsAreTheirTokens(s.history, id);
    SendsAreTheirTokens(after.history, id);
    forall t
      ensures t in SentTokens(s.history, id) <==> t in SentTokens(after.history, id)
    {
      assert Sent(id, t) in s.history <==> Sent(id, t) in after.history;
    }
    assert SentTokens(s.history, id) == SentTokens(after.history, id);
  }

  /** One action of anybody: a terminal row stays, and is sent only by someone who was behind. */
  lemma ActAfterTheEnd(o: Office, a: Action, id: Id, settings: Settings)
    requires Sound(o, settings) && id in o.store.rows && Terminal(o.store.rows[id]) && !SomeoneIsBehind(o, id)
    ensures var after := Act(o, a, settings);
            && id in after.store.rows && after.store.rows[id] == o.store.rows[id]
            && !SomeoneIsBehind(after, id) && Sends(after.store.history, id) == Sends(o.store.history, id)
  {
    ActKeepsSound(o, a, settings);
    if CommandOf(o, a, settings).Some? {
      var c := CommandOf(o, a, settings).value;
      TerminalStays(o.store, c, id);
      if a.SendUnder? {
        CountsAppend(o.store.history, Sent(a.lease.id, a.lease.token), id);
      } else {
        OnlySendsSend(o.store, c);
        SameSendsCountAlike(o.store, Act(o, a, settings).store, id);
      }
      if a.Claim? {
        NotHandedOut(o.store, a.now, a.limit, id);
      }
    }
  }

  lemma NotHandedOut(s: State, now: Time, limit: nat, id: Id)
    requires id in s.rows && Terminal(s.rows[id])
    ensures forall l :: l in HandedOut(s, now, limit) ==> l.id != id
  {
    var batch := DueBatch(s.rows, now, limit);
    BatchIsDistinct(s.rows, DueIds(s.rows, now), limit);
    LeasesNameTheBatch(s, batch);
    forall l | l in HandedOut(s, now, limit)
      ensures l.id != id
    {
      var k: nat :| k < |batch| && Leases(s, batch)[k] == l;
      assert batch[k] in batch && l.id == batch[k];
    }
  }

  lemma {:induction false} RunAfterTheEnd(o: Office, log: seq<Action>, id: Id, settings: Settings)
    requires Sound(o, settings) && id in o.store.rows && Terminal(o.store.rows[id]) && !SomeoneIsBehind(o, id)
    ensures var after := RunOffice(o, log, settings);
            && Sound(after, settings) && id in after.store.rows && after.store.rows[id] == o.store.rows[id]
            && !SomeoneIsBehind(after, id) && Sends(after.store.history, id) == Sends(o.store.history, id)
  {
    if log != [] {
      RunAfterTheEnd(o, log[..|log| - 1], id, settings);
      ActAfterTheEnd(RunOffice(o, log[..|log| - 1], settings), log[|log| - 1], id, settings);
      ActKeepsSound(RunOffice(o, log[..|log| - 1], settings), log[|log| - 1], settings);
    }
  }

  lemma TheLateOneSends(o: Office, l: Lease, settings: Settings)
    requires Sound(o, settings) && l in o.unsent
    ensures IsSentAgain(o, [SendUnder(l)], l.id, settings)
  {
    OneAction(o, SendUnder(l), settings);
    UnsentIsRecorded(o, settings, l);
    CountsAppend(o.store.history, Sent(l.id, l.token), l.id);
  }

  lemma TerminalIsSentAgainExactlyWhen(o: Office, id: Id, settings: Settings)
    requires Sound(o, settings) && id in o.store.rows && Terminal(o.store.rows[id])
    ensures CanBeSentAgain(o, id, settings) <==> SomeoneIsBehind(o, id)
  {
    if SomeoneIsBehind(o, id) {
      var l :| l in o.unsent && l.id == id;
      TheLateOneSends(o, l, settings);
    } else {
      forall log: seq<Action>
        ensures !IsSentAgain(o, log, id, settings)
      {
        RunAfterTheEnd(o, log, id, settings);
      }
    }
  }

  /** What the end of a message the provider took leaves at the office. */
  predicate EndedWell(o: Office, l: Lease, answer: Answer) {
    l.id in o.store.rows && o.store.rows[l.id].status == if answer.PassedOn? then Accepted else Delivered
  }

  /**
   Once a dispatcher's answer that the provider passed a message on, or took it, was applied, the row
   says so for ever and is never claimed again. It can still be sent again if and only if some
   dispatcher was handed the message earlier and has not sent it yet: no fence stands before a send.
   */
  lemma AnsweredIsSentAgainExactlyWhen(past: seq<Action>, l: Lease, answer: Answer, now: Time, log: seq<Action>,
      settings: Settings)
    requires var o := RunOffice(EMPTY_OFFICE, past, settings); l in o.handed && Holds(o.store, l.id, l.token)
    requires answer.PassedOn? || answer.TookIt?
    ensures var ended := Act(RunOffice(EMPTY_OFFICE, past, settings), End(l, answer, now), settings);
            var later := RunOffice(ended, log, settings);
            && EndedWell(later, l, answer)
            && Claims(later.store.history, l.id) == Claims(ended.store.history, l.id)
            && (CanBeSentAgain(ended, l.id, settings) <==> SomeoneIsBehind(ended, l.id))
  {
    var o := RunOffice(EMPTY_OFFICE, past, settings);
    var ended := Act(o, End(l, answer, now), settings);
    EveryRunIsSound(past, settings);
    ActKeepsSound(o, End(l, answer, now), settings);
    TerminalIsSentAgainExactlyWhen(ended, l.id, settings);
    EndIsForEver(ended, log, l.id, settings);
  }

  lemma {:induction false} EndIsForEver(o: Office, log: seq<Action>, id: Id, settings: Settings)
    requires Sound(o, settings) && id in o.store.rows && Terminal(o.store.rows[id])
    ensures var later := RunOffice(o, log, settings);
            && Sound(later, settings) && id in later.store.rows && later.store.rows[id] == o.store.rows[id]
            && Claims(later.store.history, id) == Claims(o.store.history, id)
  {
    if log != [] {
      var mid, a := RunOffice(o, log[..|log| - 1], settings), log[|log| - 1];
      EndIsForEver(o, log[..|log| - 1], id, settings);
      ActKeepsSound(mid, a, settings);
      if CommandOf(mid, a, settings).Some? {
        TerminalStays(mid.store, CommandOf(mid, a, settings).value, id);
      }
      assert InBudget(mid.store, id, settings.maxAttempts);
      assert InBudget(Act(mid, a, settings).store, id, settings.maxAttempts);
    }
  }

  // ----- a run in which an accepted message goes out again -----

  lemma LoneBatch(rows: Rows, ids: set<Id>, id: Id)
    requires id in rows && ids == {id}
    ensures Queue.AtMost(Queue.DueOrder(AsQueueRows(rows), ids), 1) == [id]
  {
    QueueEffects.AllFit(AsQueueRows(rows), ids, 1, id);
    assert |Queue.DueOrder(AsQueueRows(rows), ids)| == 1;
  }

  /** An office with one message. */
  function Standing(id: Id, row: Row, tokens: Token, history: seq<Mark>, handed: set<Lease>,
      unsent: set<Lease>): Office
  {
    Office(State(map[id := row], tokens, history), handed, unsent)
  }

  lemma ClaimOfOne(s: State, id: Id, now: Time, lease: int)
    requires s.rows.Keys == {id} && Due(s.rows[id], now)
    ensures Step(s, ClaimDue(now, 1, lease)) == ClaimOne(s, id, now, lease)
    ensures HandedOut(s, now, 1) == {Lease(id, s.tokens, s.rows[id].attempts + 1)}
  {
    assert DueIds(s.rows, now) == {id};
    LoneBatch(s.rows, DueIds(s.rows, now), id);
    assert [id][..0] == [] && ClaimBatch(s, [], now, lease) == s;
    assert Leases(s, [id]) == [Lease(id, s.tokens, s.rows[id].attempts + 1)];
  }

  lemma ReclaimOfOne(s: State, id: Id, now: Time, maxAttempts: int)
    requires s.rows.Keys == {id} && Abandoned(s.rows[id], now)
    ensures Step(s, ReclaimExpired(now, maxAttempts, 1)) == ReclaimOne(s, id, maxAttempts)
  {
    assert AbandonedIds(s.rows, now) == {id};
    LoneBatch(s.rows, AbandonedIds(s.rows, now), id);
    assert [id][..0] == [] && ReclaimBatch(s, [], maxAttempts) == s;
  }

  lemma LoneClaim(id: Id, row: Row, tokens: Token, history: seq<Mark>, handed: set<Lease>, now: Time,
      settings: Settings)
    requires Due(row, now)
    ensures var given := handed + {Lease(id, tokens, row.attempts + 1)};
            Leads(Standing(id, row, tokens, history, handed, handed), Claim(now, 1),
                  Standing(id, ClaimedRow(row, now, settings.lease, tokens), tokens + 1,
                           history + [Claimed(id, tokens)], given, given), settings)
  {
    var s, l := State(map[id := row], tokens, history), Lease(id, tokens, row.attempts + 1);
    ClaimOfOne(s, id, now, settings.lease);
    assert s.rows[id := ClaimedRow(row, now, settings.lease, tokens)]
        == map[id := ClaimedRow(row, now, settings.lease, tokens)];
    assert handed + {l} - {} == handed + {l};
  }

  lemma LoneRecovery(id: Id, row: Row, token: Token, tokens: Token, history: seq<Mark>, handed: set<Lease>, now: Time,
      settings: Settings)
    requires Abandoned(row, now) && row.token == Some(token)
    ensures Leads(Standing(id, row, tokens, history, handed, handed), Recover(now, 1),
                  Standing(id, ReclaimedRow(row, settings.maxAttempts), tokens, history + [Reclaimed(id, token)],
                           handed, handed), settings)
  {
    var s := State(map[id := row], tokens, history);
    ReclaimOfOne(s, id, now, settings.maxAttempts);
    assert s.rows[id := ReclaimedRow(row, settings.maxAttempts)] == map[id := ReclaimedRow(row, settings.maxAttempts)];
  }

  predicate Leads(o: Office, a: Action, after: Office, settings: Settings) {
    Act(o, a, settings) == after
  }

  ghost predicate Reaches(log: seq<Action>, o: Office, settings: Settings) {
    RunOffice(EMPTY_OFFICE, log, settings) == o
  }

  lemma Then(past: seq<Action>, o: Office, a: Action, after: Office, settings: Settings)
    requires Reaches(past, o, settings) && Leads(o, a, after, settings)
    ensures Reaches(past + [a], after, settings)
  {
    RunOfficeConcat(EMPTY_OFFICE, past, [a], settings);
    OneAction(o, a, settings);
  }

  lemma ThenClaimed(past: seq<Action>, id: Id, row: Row, tokens: Token, history: seq<Mark>, handed: set<Lease>,
      now: Time, settings: Settings)
    returns (log: seq<Action>)
    requires Reaches(past, Standing(id, row, tokens, history, handed, handed), settings) && Due(row, now)
    ensures var given := handed + {Lease(id, tokens, row.attempts + 1)};
            Reaches(log, Standing(id, ClaimedRow(row, now, settings.lease, tokens), tokens + 1,
                                  history + [Claimed(id, tokens)], given, given), settings)
  {
    var given := handed + {Lease(id, tokens, row.attempts + 1)};
    LoneClaim(id, row, tokens, history, handed, now, settings);
    Then(past, Standing(id, row, tokens, history, handed, handed), Claim(now, 1),
         Standing(id, ClaimedRow(row, now, settings.lease, tokens), tokens + 1, history + [Claimed(id, tokens)],
                  given, given), settings);
    log := past + [Claim(now, 1)];
  }

  lemma ThenRecovered(past: seq<Action>, id: Id, row: Row, token: Token, tokens: Token, history: seq<Mark>,
      handed: set<Lease>, now: Time, settings: Settings)
    returns (log: seq<Action>)
    requires Reaches(past, Standing(id, row, tokens, history, handed, handed), settings)
    requires Abandoned(row, now) && row.token == Some(token)
    ensures Reaches(log, Standing(id, ReclaimedRow(row, settings.maxAttempts), tokens,
                                  history + [Reclaimed(id, token)], handed, handed), settings)
  {
    LoneRecovery(id, row, token, tokens, history, handed, now, settings);
    Then(past, Standing(id, row, tokens, history, handed, handed), Recover(now, 1),
         Standing(id, ReclaimedRow(row, settings.maxAttempts), tokens, history + [Reclaimed(id, token)],
                  handed, handed), settings);
    log := past + [Recover(now, 1)];
  }

  /** One dispatcher claims a message and stalls; its lease runs out, and another takes the message over. */
  lemma TakenOver(id: Id, now: Time, settings: Settings) returns (log: seq<Action>)
    requires settings.maxAttempts > 1
    ensures var late := now + settings.lease;
            var leases := {Lease(id, 0, 1)} + {Lease(id, 1, 2)};
            Reaches(log, Standing(id, Row(now, Processing, 2, late + settings.lease, Some(late), Some(1)), 2,
                                  [] + [Claimed(id, 0)] + [Reclaimed(id, 0)] + [Claimed(id, 1)], leases, leases),
                    settings)
  {
    var late := now + settings.lease;
    var first := NewRow(now, true);
    var held := ClaimedRow(first, now, settings.lease, 0);
    Then([], EMPTY_OFFICE, Arrive(id, now, true), Standing(id, first, 0, [], {}, {}), settings);
    log := ThenClaimed([] + [Arrive(id, now, true)], id, first, 0, [], {}, now, settings);
    assert {} + {Lease(id, 0, 1)} == {Lease(id, 0, 1)};
    log := ThenRecovered(log, id, held, 0, 1, [] + [Claimed(id, 0)], {Lease(id, 0, 1)}, late, settings);
    log := ThenClaimed(log, id, ReclaimedRow(held, settings.maxAttempts), 1,
                       [] + [Claimed(id, 0)] + [Reclaimed(id, 0)], {Lease(id, 0, 1)}, late, settings);
  }

  /** The second dispatcher sends the message, and is told that it was passed on. */
  lemma ThenPassedOn(past: seq<Action>, o: Office, first: Lease, second: Lease, now: Time, settings: Settings)
    returns (log: seq<Action>, after: Office)
    requires Reaches(past, o, settings) && first != second && first.id == second.id
    requires o.unsent == o.handed == {first, second} && Holds(o.store, second.id, second.token)
    requires MaySend(o.store, second.id, second.token)
    ensures Reaches(log, after, settings)
    ensures first.id in after.store.rows && after.store.rows[first.id].status == Accepted && after.unsent == {first}
    ensures after.store.history
         == o.store.history + [Sent(first.id, second.token)] + [Acknowledged(first.id, second.token, Accept)]
  {
    var sent := Act(o, SendUnder(second), settings);
    after := Act(sent, End(second, PassedOn, now), settings);
    Then(past, o, SendUnder(second), sent, settings);
    Then(past + [SendUnder(second)], sent, End(second, PassedOn, now), after, settings);
    log := past + [SendUnder(second)] + [End(second, PassedOn, now)];
  }

  /**
   Wherever the configuration allows two attempts, an accepted message can go out again: there is a
   run after which it is accepted and was sent once, and a dispatcher that was handed it before the
   one that sent it resumes and sends it once more.
   */
  lemma AcceptedMessageGoesOutTwice(id: Id, now: Time, settings: Settings)
    returns (log: seq<Action>, o: Office, stalled: Lease)
    requires settings.maxAttempts > 1
    ensures Reaches(log, o, settings) && id in o.store.rows && o.store.rows[id].status == Accepted
    ensures Sends(o.store.history, id) == 1 && Sends(Act(o, SendUnder(stalled), settings).store.history, id) == 2
  {
    var past := TakenOver(id, now, settings);
    var ready := RunOffice(EMPTY_OFFICE, past, settings);
    stalled := Lease(id, 0, 1);
    assert ready.store.history[2] == Claimed(id, 1);
    log, o := ThenPassedOn(past, ready, stalled, Lease(id, 1, 2), now + settings.lease, settings);
    OneSend(ready.store.history, Sent(id, 1), Acknowledged(id, 1, Accept), id);
    EveryRunIsSound(log, settings);
    UnsentIsRecorded(o, settings, stalled);
    CountsAppend(o.store.history, Sent(id, 0), id);
  }

  lemma OneSend(history: seq<Mark>, sent: Mark, last: Mark, id: Id)
    requires (forall m :: m in history ==> !m.Sent?) && sent.Sent? && sent.id == id && !last.Sent?
    ensures Sends(history + [sent] + [last], id) == 1
  {
    NoSendYet(history, id);
    CountsAppend(history, sent, id);
    CountsAppend(history + [sent], last, id);
  }

  lemma {:induction false} NoSendYet(history: seq<Mark>, id: Id)
    requires forall m :: m in history ==> !m.Sent?
    ensures Sends(history, id) == 0
  {
    if history != [] {
      assert history[|history| - 1] in history;
      NoSendYet(history[..|history| - 1], id);
    }
  }
}
