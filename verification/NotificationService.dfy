/**
 The reference notification store and the dispatcher that drains it, as loops over objects. What
 a channel answers, and what other dispatchers do before and during a send, are arguments.
 */
module NotificationService {
  import opened Backoff
  import opened Common
  import opened Notifications

  datatype Answer = NoAdapter | NoAddress | Threw | TookIt | PassedOn | Retryable(after: Option<int>) | Permanent

  datatype Sending = Sending(before: seq<Command>, during: seq<Command>, answer: Answer)

  datatype Settings = Settings(maxAttempts: int, baseBackoff: int, lease: int)

  predicate ReachesTheChannel(answer: Answer) {
    !answer.NoAdapter? && !answer.NoAddress?
  }

  /** `retry`: give up at the budget, wait as long as the provider asked, or back off. */
  function RetryOrFail(attempts: nat, after: Option<int>, now: Time, settings: Settings): Ack {
    if attempts >= settings.maxAttempts then Fail
    else Retry(now +
        if after.Some? then after.value else settings.baseBackoff * PowerOfTwo(if attempts == 0 then 0
        else attempts - 1))
  }

  function AckFor(answer: Answer, attempts: nat, now: Time, settings: Settings): Ack {
    match answer
    case NoAdapter => RetryOrFail(attempts, None, now, settings)
    case NoAddress => Fail
    case Threw => RetryOrFail(attempts, None, now, settings)
    case TookIt => Deliver
    case PassedOn => Accept
    case Retryable(after) => RetryOrFail(attempts, after, now, settings)
    case Permanent => Fail
  }

  /** What the acknowledgement of one claimed notification meets: others, the send, others. */
  function BeforeAck(s: State, id: Id, token: Token, sending: Sending): State {
    var ready := RunFrom(s, sending.before);
    var sent := if ReachesTheChannel(sending.answer) then Step(ready, Send(id, token)) else ready;
    RunFrom(sent, sending.during)
  }

  function AfterItem(s: State, id: Id, token: Token, attempts: nat, sending: Sending, now: Time,
      settings: Settings): State
  {
    Step(BeforeAck(s, id, token, sending), Acknowledge(id, token, AckFor(sending.answer, attempts, now, settings)))
  }

  function AfterItems(s: State, claimed: seq<Lease>, world: Id -> Sending, now: Time, settings: Settings): State {
    if claimed == [] then s
    else
      var last := claimed[|claimed| - 1];
      AfterItem(AfterItems(s, claimed[..|claimed| - 1], world, now, settings), last.id, last.token, last.attempts,
                world(last.id), now, settings)
  }

  /** What the dispatcher keeps of a claimed row. */
  datatype Lease = Lease(id: Id, token: Token, attempts: nat)

  /** The rows handed out by a claim, each with its own token and its charged attempt. */
  function Leases(s: State, batch: seq<Id>): seq<Lease>
    requires forall i :: i in batch ==> i in s.rows
  {
    if batch == [] then []
    else
      var id := batch[|batch| - 1];
      Leases(s, batch[..|batch| - 1]) + [Lease(id, s.tokens + |batch| - 1, s.rows[id].attempts + 1)]
  }

  function AfterDrain(s: State, now: Time, limit: nat, world: Id -> Sending, settings: Settings): State {
    var recovered := Step(s, ReclaimExpired(now, settings.maxAttempts, limit));
    var batch := DueBatch(recovered.rows, now, limit);
    AfterItems(Step(recovered, ClaimDue(now, limit, settings.lease)), Leases(recovered, batch), world, now, settings)
  }

  // ----- the drain keeps to the budget -----

  lemma {:induction false} ClaimBatchTokens(s: State, batch: seq<Id>, now: Time, lease: int)
    requires forall i :: i in batch ==> i in s.rows
    ensures ClaimBatch(s, batch, now, lease).tokens == s.tokens + |batch|
    ensures forall i :: i in s.rows && i !in batch ==> ClaimBatch(s, batch, now, lease).rows[i] == s.rows[i]
  {
    if batch != [] {
      ClaimBatchTokens(s, batch[..|batch| - 1], now, lease);
      assert batch == batch[..|batch| - 1] + [batch[|batch| - 1]];
    }
  }

  /** What a worker was told at the claim is what the row says for as long as the claim lasts. */
  ghost predicate Told(s: State, lease: Lease) {
    lease.token < s.tokens && (Holds(s, lease.id, lease.token) ==> s.rows[lease.id].attempts == lease.attempts)
  }

  lemma {:induction false} ClaimingTells(s: State, batch: seq<Id>, now: Time, lease: int)
    requires Distinct(batch) && forall i :: i in batch ==> i in s.rows
    ensures forall l :: l in Leases(s, batch) ==> Told(ClaimBatch(s, batch, now, lease), l)
  {
    if batch != [] {
      var shorter, id := batch[..|batch| - 1], batch[|batch| - 1];
      ClaimingTells(s, shorter, now, lease);
      ClaimBatchTokens(s, shorter, now, lease);
      assert id in batch && id !in shorter;
      var mid := ClaimBatch(s, shorter, now, lease);
      forall l | l in Leases(s, batch)
        ensures Told(ClaimOne(mid, id, now, lease), l)
      {
        if l in Leases(s, shorter) {
          assert Told(mid, l);
        }
      }
    }
  }

  lemma {:induction false} ClaimBatchKeepsTold(s: State, batch: seq<Id>, now: Time, lease: int, l: Lease)
    requires (forall i :: i in batch ==> i in s.rows) && Told(s, l)
    ensures Told(ClaimBatch(s, batch, now, lease), l) && s.tokens <= ClaimBatch(s, batch, now, lease).tokens
  {
    if batch != [] {
      ClaimBatchKeepsTold(s, batch[..|batch| - 1], now, lease, l);
    }
  }

  lemma {:induction false} ReclaimBatchKeepsTold(s: State, batch: seq<Id>, maxAttempts: int, l: Lease)
    requires (forall i :: i in batch ==> i in s.rows) && Told(s, l)
    ensures Told(ReclaimBatch(s, batch, maxAttempts), l)
  {
    if batch != [] {
      ReclaimBatchKeepsTold(s, batch[..|batch| - 1], maxAttempts, l);
    }
  }

  lemma StepKeepsTold(s: State, c: Command, l: Lease)
    requires Told(s, l)
    ensures Told(Step(s, c), l)
  {
    match c
    case ClaimDue(now, limit, lease) => ClaimBatchKeepsTold(s, DueBatch(s.rows, now, limit), now, lease, l);
    case ReclaimExpired(now, maxAttempts, limit) =>
      ReclaimBatchKeepsTold(s, AbandonedBatch(s.rows, now, limit), maxAttempts, l);
    case _ =>
  }

  lemma {:induction false} RunKeepsTold(s: State, log: seq<Command>, l: Lease)
    requires Told(s, l)
    ensures Told(RunFrom(s, log), l)
  {
    if log != [] {
      RunKeepsTold(s, log[..|log| - 1], l);
      StepKeepsTold(RunFrom(s, log[..|log| - 1]), log[|log| - 1], l);
    }
  }

  /** The acknowledgement a dispatcher makes is one its budget allows. */
  lemma AcknowledgementIsDisciplined(s: State, l: Lease, answer: Answer, now: Time, settings: Settings)
    requires Told(s, l)
    ensures DispatcherStep(s, Acknowledge(l.id, l.token, AckFor(answer, l.attempts, now, settings)),
                           settings.maxAttempts)
  {
  }

  /** Everybody else keeps to the budget around one send. */
  ghost predicate OthersObey(s: State, l: Lease, sending: Sending, max: int) {
    var ready := RunFrom(s, sending.before);
    var sent := if ReachesTheChannel(sending.answer) then Step(ready, Send(l.id, l.token)) else ready;
    AllObey(s, sending.before, max) && AllObey(sent, sending.during, max)
  }

  /** A whole item leaves every count within the budget, and every claim told as it was. */
  lemma ItemStaysConsistent(s: State, l: Lease, sending: Sending, now: Time, settings: Settings)
    requires Consistent(s, settings.maxAttempts) && Told(s, l) && OthersObey(s, l, sending, settings.maxAttempts)
    ensures Consistent(AfterItem(s, l.id, l.token, l.attempts, sending, now, settings), settings.maxAttempts)
  {
    var ready := RunFrom(s, sending.before);
    RunKeepsConsistent(s, sending.before, settings.maxAttempts);
    RunKeepsTold(s, sending.before, l);
    var sent := if ReachesTheChannel(sending.answer) then Step(ready, Send(l.id, l.token)) else ready;
    StepKeepsConsistent(ready, Send(l.id, l.token), settings.maxAttempts);
    StepKeepsTold(ready, Send(l.id, l.token), l);
    RunKeepsConsistent(sent, sending.during, settings.maxAttempts);
    RunKeepsTold(sent, sending.during, l);
    var done := RunFrom(sent, sending.during);
    AcknowledgementIsDisciplined(done, l, sending.answer, now, settings);
    StepKeepsConsistent(done, Acknowledge(l.id, l.token, AckFor(sending.answer, l.attempts, now, settings)),
                        settings.maxAttempts);
  }

  lemma ItemKeepsTold(s: State, l: Lease, sending: Sending, now: Time, settings: Settings, other: Lease)
    requires Told(s, other)
    ensures Told(AfterItem(s, l.id, l.token, l.attempts, sending, now, settings), other)
  {
    var ready := RunFrom(s, sending.before);
    RunKeepsTold(s, sending.before, other);
    var sent := if ReachesTheChannel(sending.answer) then Step(ready, Send(l.id, l.token)) else ready;
    StepKeepsTold(ready, Send(l.id, l.token), other);
    RunKeepsTold(sent, sending.during, other);
    StepKeepsTold(RunFrom(sent, sending.during),
                  Acknowledge(l.id, l.token, AckFor(sending.answer, l.attempts, now, settings)), other);
  }

  /** Everybody else keeps to the budget while a dispatcher works through what it claimed. */
  ghost predicate OthersObeyAround(s: State, claimed: seq<Lease>, world: Id -> Sending, now: Time, settings: Settings) {
    claimed == []
    || (var shorter, last := claimed[..|claimed| - 1], claimed[|claimed| - 1];
        && OthersObeyAround(s, shorter, world, now, settings)
        && OthersObey(AfterItems(s, shorter, world, now, settings), last, world(last.id), settings.maxAttempts))
  }

  lemma {:induction false} ItemsKeepTold(s: State, claimed: seq<Lease>, world: Id -> Sending, now: Time,
      settings: Settings, l: Lease)
    requires Told(s, l)
    ensures Told(AfterItems(s, claimed, world, now, settings), l)
  {
    if claimed != [] {
      var shorter, last := claimed[..|claimed| - 1], claimed[|claimed| - 1];
      ItemsKeepTold(s, shorter, world, now, settings, l);
      ItemKeepsTold(AfterItems(s, shorter, world, now, settings), last, world(last.id), now, settings, l);
    }
  }

  lemma {:induction false} ItemsStayConsistent(s: State, claimed: seq<Lease>, world: Id -> Sending, now: Time,
      settings: Settings)
    requires Consistent(s, settings.maxAttempts) && forall l :: l in claimed ==> Told(s, l)
    requires OthersObeyAround(s, claimed, world, now, settings)
    ensures Consistent(AfterItems(s, claimed, world, now, settings), settings.maxAttempts)
  {
    if claimed != [] {
      var shorter, last := claimed[..|claimed| - 1], claimed[|claimed| - 1];
      assert last in claimed;
      ItemsStayConsistent(s, shorter, world, now, settings);
      ItemsKeepTold(s, shorter, world, now, settings, last);
      ItemStaysConsistent(AfterItems(s, shorter, world, now, settings), last, world(last.id), now, settings);
    }
  }

  /** Recovering and claiming, and what the dispatcher was told when it claimed. */
  lemma OpeningIsTold(s: State, now: Time, limit: nat, settings: Settings)
    requires Consistent(s, settings.maxAttempts)
    ensures var recovered := Step(s, ReclaimExpired(now, settings.maxAttempts, limit));
            var claimed := Step(recovered, ClaimDue(now, limit, settings.lease));
            && Consistent(claimed, settings.maxAttempts)
            && forall l :: l in Leases(recovered, DueBatch(recovered.rows, now, limit)) ==> Told(claimed, l)
  {
    var recovered := Step(s, ReclaimExpired(now, settings.maxAttempts, limit));
    StepKeepsConsistent(s, ReclaimExpired(now, settings.maxAttempts, limit), settings.maxAttempts);
    StepKeepsConsistent(recovered, ClaimDue(now, limit, settings.lease), settings.maxAttempts);
    BatchIsDistinct(recovered.rows, DueIds(recovered.rows, now), limit);
    ClaimingTells(recovered, DueBatch(recovered.rows, now, limit), now, settings.lease);
  }

  /** A whole drain leaves every count within the budget, as long as everybody else keeps to it meanwhile. */
  lemma DrainStaysConsistent(s: State, now: Time, limit: nat, world: Id -> Sending, settings: Settings)
    requires Consistent(s, settings.maxAttempts)
    requires var recovered := Step(s, ReclaimExpired(now, settings.maxAttempts, limit));
             OthersObeyAround(Step(recovered, ClaimDue(now, limit, settings.lease)),
                              Leases(recovered, DueBatch(recovered.rows, now, limit)), world, now, settings)
    ensures Consistent(AfterDrain(s, now, limit, world, settings), settings.maxAttempts)
  {
    var recovered := Step(s, ReclaimExpired(now, settings.maxAttempts, limit));
    OpeningIsTold(s, now, limit, settings);
    ItemsStayConsistent(Step(recovered, ClaimDue(now, limit, settings.lease)),
                        Leases(recovered, DueBatch(recovered.rows, now, limit)), world, now, settings);
  }

  /** One more row of a batch. */
  lemma ClaimNext(s: State, batch: seq<Id>, n: nat, now: Time, lease: int)
    requires Distinct(batch) && n < |batch| && forall i :: i in batch ==> i in s.rows
    ensures batch[n] in s.rows
    ensures var mid := ClaimBatch(s, batch[..n], now, lease);
            && ClaimBatch(s, batch[..n + 1], now, lease) == ClaimOne(mid, batch[n], now, lease)
            && mid.tokens == s.tokens + n && mid.rows[batch[n]] == s.rows[batch[n]]
    ensures Leases(s, batch[..n + 1]) == Leases(s, batch[..n])
            + [Lease(batch[n], s.tokens + n, s.rows[batch[n]].attempts + 1)]
  {
    assert batch[..n + 1][..n] == batch[..n] && batch[n] in batch;
    ClaimBatchTokens(s, batch[..n], now, lease);
  }

  // ----- the store -----

  class InMemoryNotificationStore {
    var rows: Rows
    var tokens: Token
    ghost var history: seq<Mark>

    constructor ()
      ensures State() == EMPTY_STATE
    {
      rows, tokens, history := map[], 0, [];
    }

    ghost function State(): State
      reads this
    {
      Notifications.State(rows, tokens, history)
    }

    method Enqueue(id: Id, now: Time, addressed: bool)
      modifies this
      ensures State() == Step(old(State()), Command.Enqueue(id, now, addressed))
    {
      if id !in rows {
        rows := rows[id := NewRow(now, addressed)];
      }
    }

    method TakeRow(id: Id, now: Time, lease: int) returns (mine: Lease)
      requires id in rows
      modifies this
      ensures State() == ClaimOne(old(State()), id, now, lease)
      ensures mine == Lease(id, old(tokens), old(rows)[id].attempts + 1)
    {
      mine := Lease(id, tokens, rows[id].attempts + 1);
      history := history + [Claimed(id, tokens)];
      rows := rows[id := ClaimedRow(rows[id], now, lease, tokens)];
      tokens := tokens + 1;
    }

    /** Each row of the batch is written with its own token and one more attempt. */
    method ClaimEach(due: seq<Id>, now: Time, lease: int) returns (claimed: seq<Lease>)
      requires Distinct(due) && forall i :: i in due ==> i in rows
      modifies this
      ensures State() == ClaimBatch(old(State()), due, now, lease)
      ensures claimed == Leases(old(State()), due)
    {
      ghost var s := State();
      claimed := [];
      for n := 0 to |due|
        invariant State() == ClaimBatch(s, due[..n], now, lease)
        invariant claimed == Leases(s, due[..n])
      {
        ClaimNext(s, due, n, now, lease);
        var mine := TakeRow(due[n], now, lease);
        claimed := claimed + [mine];
      }
      assert due[..|due|] == due;
    }

    /** Filter, sort, slice, claim. */
    method ClaimRows(now: Time, limit: nat, lease: int) returns (claimed: seq<Lease>)
      modifies this
      ensures State() == Step(old(State()), ClaimDue(now, limit, lease))
      ensures claimed == Leases(old(State()), DueBatch(old(rows), now, limit))
    {
      BatchIsDistinct(rows, DueIds(rows, now), limit);
      claimed := ClaimEach(DueBatch(rows, now, limit), now, lease);
    }

    method ReclaimEach(expired: seq<Id>, maxAttempts: int)
      requires forall i :: i in expired ==> i in rows
      modifies this`rows, this`history
      ensures State() == ReclaimBatch(old(State()), expired, maxAttempts)
    {
      ghost var s := State();
      for n := 0 to |expired|
        invariant State() == ReclaimBatch(s, expired[..n], maxAttempts)
      {
        assert expired[..n + 1][..n] == expired[..n] && expired[n] in expired;
        var row := rows[expired[n]];
        history := history + [Reclaimed(expired[n], if row.token.Some? then row.token.value else 0)];
        rows := rows[expired[n] := ReclaimedRow(row, maxAttempts)];
      }
      assert expired[..|expired|] == expired;
    }

    /** Longest-abandoned claims first. */
    method ReclaimRows(now: Time, maxAttempts: int, limit: nat) returns (reclaimed: nat)
      modifies this`rows, this`history
      ensures State() == Step(old(State()), ReclaimExpired(now, maxAttempts, limit))
      ensures reclaimed == |AbandonedBatch(old(rows), now, limit)|
    {
      var expired := AbandonedBatch(rows, now, limit);
      ReclaimEach(expired, maxAttempts);
      reclaimed := |expired|;
    }

    /** An acknowledgement counts only while the row is processing under the presented token. */
    method Mark(id: Id, token: Token, ack: Ack) returns (applied: bool)
      modifies this`rows, this`history
      ensures State() == Step(old(State()), Acknowledge(id, token, ack)) && applied == Holds(old(State()), id, token)
    {
      applied := id in rows && rows[id].status == Processing && rows[id].token == Some(token);
      if applied {
        history := history + [Acknowledged(id, token, ack)];
        rows := rows[id := AcknowledgedRow(rows[id], ack)];
      }
    }

    /** What other dispatchers do; their sends leave no trace in the rows. */
    method Others(log: seq<Command>)
      modifies this
      ensures State() == RunFrom(old(State()), log)
    {
      ghost var s := State();
      for n := 0 to |log|
        invariant State() == RunFrom(s, log[..n])
      {
        assert log[..n + 1][..n] == log[..n];
        match log[n] {
          case Enqueue(id, now, addressed) => Enqueue(id, now, addressed);
          case ClaimDue(now, limit, lease) => var claimed := ClaimRows(now, limit, lease);
          case ReclaimExpired(now, maxAttempts, limit) => var reclaimed := ReclaimRows(now, maxAttempts, limit);
          case Send(id, token) => RecordSend(id, token);
          case Acknowledge(id, token, ack) => var applied := Mark(id, token, ack);
        }
      }
      assert log[..|log|] == log;
    }

    ghost method RecordSend(id: Id, token: Token)
      modifies this`history
      ensures State() == Step(old(State()), Send(id, token))
    {
      if MaySend(State(), id, token) {
        history := history + [Sent(id, token)];
      }
    }
  }

  datatype DispatchResult = DispatchResult(accepted: nat, delivered: nat, retrying: nat, failed: nat, reclaimed: nat,
                                           fenced: nat)

  /** An ending is counted as what it was only if the claim was still this dispatcher's. */
  function CountAck(r: DispatchResult, applied: bool, ack: Ack): DispatchResult {
    if !applied then r.(fenced := r.fenced + 1)
    else
      match ack
      case Accept => r.(accepted := r.accepted + 1)
      case Deliver => r.(delivered := r.delivered + 1)
      case Retry(_) => r.(retrying := r.retrying + 1)
      case Fail => r.(failed := r.failed + 1)
  }

  function CountItem(r: DispatchResult, s: State, l: Lease, sending: Sending, now: Time,
      settings: Settings): DispatchResult
  {
    CountAck(r, Holds(BeforeAck(s, l.id, l.token, sending), l.id, l.token),
             AckFor(sending.answer, l.attempts, now, settings))
  }

  function ItemCounts(opening: DispatchResult, s: State, claimed: seq<Lease>, world: Id -> Sending, now: Time,
      settings: Settings): DispatchResult
  {
    if claimed == [] then opening
    else
      var shorter, last := claimed[..|claimed| - 1], claimed[|claimed| - 1];
      CountItem(ItemCounts(opening, s, shorter, world, now, settings), AfterItems(s, shorter, world, now, settings),
                last, world(last.id), now, settings)
  }

  function DrainCounts(s: State, now: Time, limit: nat, world: Id -> Sending, settings: Settings): DispatchResult {
    var recovered := Step(s, ReclaimExpired(now, settings.maxAttempts, limit));
    ItemCounts(DispatchResult(0, 0, 0, 0, |AbandonedBatch(s.rows, now, limit)|, 0),
               Step(recovered, ClaimDue(now, limit, settings.lease)),
               Leases(recovered, DueBatch(recovered.rows, now, limit)), world, now, settings)
  }

  function Handled(r: DispatchResult): nat {
    r.accepted + r.delivered + r.retrying + r.failed + r.fenced
  }

  /** Every claimed message ends in exactly one count, and none of them in `reclaimed`. */
  lemma {:induction false} EveryMessageIsCountedOnce(opening: DispatchResult, s: State, claimed: seq<Lease>,
      world: Id -> Sending, now: Time, settings: Settings)
    ensures var result := ItemCounts(opening, s, claimed, world, now, settings);
            Handled(result) == Handled(opening) + |claimed| && result.reclaimed == opening.reclaimed
  {
    if claimed != [] {
      EveryMessageIsCountedOnce(opening, s, claimed[..|claimed| - 1], world, now, settings);
    }
  }

  lemma EveryDrainCounts(s: State, now: Time, limit: nat, world: Id -> Sending, settings: Settings)
    ensures var result := DrainCounts(s, now, limit, world, settings);
            && Handled(result) == |DueBatch(Step(s, ReclaimExpired(now, settings.maxAttempts, limit)).rows, now, limit)|
            && result.reclaimed == |AbandonedBatch(s.rows, now, limit)|
  {
    var recovered := Step(s, ReclaimExpired(now, settings.maxAttempts, limit));
    var batch := DueBatch(recovered.rows, now, limit);
    EveryMessageIsCountedOnce(DispatchResult(0, 0, 0, 0, |AbandonedBatch(s.rows, now, limit)|, 0),
                              Step(recovered, ClaimDue(now, limit, settings.lease)),
                              Leases(recovered, batch), world, now, settings);
    LeasesAreAsMany(recovered, batch);
  }

  class NotificationDispatcher {
    const store: InMemoryNotificationStore
    const settings: Settings

    constructor (store: InMemoryNotificationStore, settings: Settings)
      ensures this.store == store && this.settings == settings
    {
      this.store, this.settings := store, settings;
    }

    /** One claimed message: send it if it can be sent, and record the outcome under the token. */
    method ProcessClaimed(lease: Lease, sending: Sending, now: Time, counts: DispatchResult)
      returns (result: DispatchResult)
      modifies store
      ensures store.State()
              == AfterItem(old(store.State()), lease.id, lease.token, lease.attempts, sending, now, settings)
      ensures result == CountItem(counts, old(store.State()), lease, sending, now, settings)
    {
      store.Others(sending.before);
      if ReachesTheChannel(sending.answer) {
        store.RecordSend(lease.id, lease.token);
      }
      store.Others(sending.during);
      var ack := AckFor(sending.answer, lease.attempts, now, settings);
      var applied := store.Mark(lease.id, lease.token, ack);
      result := CountAck(counts, applied, ack);
    }

    method ProcessEach(claimed: seq<Lease>, world: Id -> Sending, now: Time, opening: DispatchResult)
      returns (result: DispatchResult)
      modifies store
      ensures store.State() == AfterItems(old(store.State()), claimed, world, now, settings)
      ensures result == ItemCounts(opening, old(store.State()), claimed, world, now, settings)
    {
      ghost var s := store.State();
      result := opening;
      for n := 0 to |claimed|
        invariant store.State() == AfterItems(s, claimed[..n], world, now, settings)
        invariant result == ItemCounts(opening, s, claimed[..n], world, now, settings)
      {
        assert claimed[..n + 1][..n] == claimed[..n];
        result := ProcessClaimed(claimed[n], world(claimed[n].id), now, result);
      }
      assert claimed[..|claimed|] == claimed;
    }

    /** `drainOnce`: recover, claim, process; what it counts is read off the run. */
    method DrainOnce(now: Time, limit: nat, world: Id -> Sending) returns (result: DispatchResult)
      modifies store
      ensures store.State() == AfterDrain(old(store.State()), now, limit, world, settings)
      ensures result == DrainCounts(old(store.State()), now, limit, world, settings)
    {
      var reclaimed := store.ReclaimRows(now, settings.maxAttempts, limit);
      var claimed := store.ClaimRows(now, limit, settings.lease);
      result := ProcessEach(claimed, world, now, DispatchResult(0, 0, 0, 0, reclaimed, 0));
    }
  }

  lemma {:induction false} LeasesAreAsMany(s: State, batch: seq<Id>)
    requires forall i :: i in batch ==> i in s.rows
    ensures |Leases(s, batch)| == |batch|
  {
    if batch != [] {
      LeasesAreAsMany(s, batch[..|batch| - 1]);
    }
  }
}
