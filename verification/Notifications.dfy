/**
 Notifications to people. Here a claim charges the attempt when it is made, every row gets a
 token of its own, and a row whose holder died is retried or failed by the same attempt budget.
 */
module Notifications {
  import opened Common
  import Queue

  type Time = int
  type Id = nat
  type Token = nat

  datatype Status = Pending | Processing | Accepted | Delivered | Failed

  datatype Row = Row(
    createdAt: Time,
    status: Status,
    attempts: nat,
    nextAttempt: Time,
    claimedAt: Option<Time>,
    token: Option<Token>)

  type Rows = map<Id, Row>

  datatype Ack = Accept | Deliver | Retry(at: Time) | Fail

  datatype Mark =
    | Claimed(id: Id, token: Token)
    | Sent(id: Id, token: Token)
    | Reclaimed(id: Id, token: Token)
    | Acknowledged(id: Id, token: Token, ack: Ack)

  datatype State = State(rows: Rows, tokens: Token, history: seq<Mark>)

  const EMPTY_STATE := State(map[], 0, [])

  datatype Command =
    | Enqueue(id: Id, now: Time, addressed: bool)
    | ClaimDue(now: Time, limit: nat, lease: int)
    | ReclaimExpired(now: Time, maxAttempts: int, limit: nat)
    | Send(id: Id, token: Token)
    | Acknowledge(id: Id, token: Token, ack: Ack)

  // ----- rows -----

  /** A recipient without an address gives a row that is failed from the start. */
  function NewRow(now: Time, addressed: bool): Row {
    Row(now, if addressed then Pending else Failed, 0, now, None, None)
  }

  predicate Due(r: Row, now: Time) {
    r.status == Pending && r.nextAttempt <= now
  }

  predicate Abandoned(r: Row, now: Time) {
    r.status == Processing && r.nextAttempt <= now
  }

  predicate Terminal(r: Row) {
    r.status == Accepted || r.status == Delivered || r.status == Failed
  }

  function ClaimedRow(r: Row, now: Time, lease: int, token: Token): Row {
    r.(status := Processing, attempts := r.attempts + 1, token := Some(token), claimedAt := Some(now),
       nextAttempt := now + lease)
  }

  function ReclaimedRow(r: Row, maxAttempts: int): Row {
    r.(status := if r.attempts >= maxAttempts then Failed else Pending, token := None, claimedAt := None)
  }

  function AcknowledgedRow(r: Row, ack: Ack): Row {
    var released := r.(token := None, claimedAt := None);
    match ack
    case Accept => released.(status := Accepted)
    case Deliver => released.(status := Delivered)
    case Retry(at) => released.(status := Pending, nextAttempt := at)
    case Fail => released.(status := Failed)
  }

  /** The order of the other queues: when it is due, when it arrived, then its id. */
  function AsQueueRows(rows: Rows): Queue.Rows {
    map i | i in rows :: Queue.Row(rows[i].createdAt, Queue.Pending, 0, 0, Queue.NoFault, rows[i].nextAttempt, None,
                                   None)
  }

  function DueIds(rows: Rows, now: Time): set<Id> {
    set i | i in rows && Due(rows[i], now)
  }

  function AbandonedIds(rows: Rows, now: Time): set<Id> {
    set i | i in rows && Abandoned(rows[i], now)
  }

  function DueBatch(rows: Rows, now: Time, limit: nat): (batch: seq<Id>)
    ensures forall i :: i in batch ==> i in rows
  {
    BatchIsDistinct(rows, DueIds(rows, now), limit);
    Queue.AtMost(Queue.DueOrder(AsQueueRows(rows), DueIds(rows, now)), limit)
  }

  function AbandonedBatch(rows: Rows, now: Time, limit: nat): (batch: seq<Id>)
    ensures forall i :: i in batch ==> i in rows
  {
    BatchIsDistinct(rows, AbandonedIds(rows, now), limit);
    Queue.AtMost(Queue.DueOrder(AsQueueRows(rows), AbandonedIds(rows, now)), limit)
  }

  // ----- steps -----

  function ClaimOne(s: State, id: Id, now: Time, lease: int): State
    requires id in s.rows
  {
    State(s.rows[id := ClaimedRow(s.rows[id], now, lease, s.tokens)], s.tokens + 1, s.history + [Claimed(id, s.tokens)])
  }

  function ClaimBatch(s: State, batch: seq<Id>, now: Time, lease: int): (after: State)
    requires forall i :: i in batch ==> i in s.rows
    ensures after.rows.Keys == s.rows.Keys
  {
    if batch == [] then s
    else ClaimOne(ClaimBatch(s, batch[..|batch| - 1], now, lease), batch[|batch| - 1], now, lease)
  }

  function ReclaimOne(s: State, id: Id, maxAttempts: int): State
    requires id in s.rows
  {
    State(s.rows[id := ReclaimedRow(s.rows[id], maxAttempts)], s.tokens,
          s.history + [Reclaimed(id, if s.rows[id].token.Some? then s.rows[id].token.value else 0)])
  }

  function ReclaimBatch(s: State, batch: seq<Id>, maxAttempts: int): (after: State)
    requires forall i :: i in batch ==> i in s.rows
    ensures after.rows.Keys == s.rows.Keys
  {
    if batch == [] then s
    else ReclaimOne(ReclaimBatch(s, batch[..|batch| - 1], maxAttempts), batch[|batch| - 1], maxAttempts)
  }

  /** The fence: still processing, and under this very token. */
  predicate Holds(s: State, id: Id, token: Token) {
    id in s.rows && s.rows[id].status == Processing && s.rows[id].token == Some(token)
  }

  /** A worker sends at most once for each row it was handed, however late. */
  predicate MaySend(s: State, id: Id, token: Token) {
    Claimed(id, token) in s.history && Sent(id, token) !in s.history
  }

  function Step(s: State, c: Command): State {
    match c
    case Enqueue(id, now, addressed) => if id in s.rows then s else s.(rows := s.rows[id := NewRow(now, addressed)])
    case ClaimDue(now, limit, lease) => ClaimBatch(s, DueBatch(s.rows, now, limit), now, lease)
    case ReclaimExpired(now, maxAttempts, limit) => ReclaimBatch(s, AbandonedBatch(s.rows, now, limit), maxAttempts)
    case Send(id, token) => if MaySend(s, id, token) then s.(history := s.history + [Sent(id, token)]) else s
    case Acknowledge(id, token, ack) =>
      if !Holds(s, id, token) then s
      else s.(rows := s.rows[id := AcknowledgedRow(s.rows[id], ack)],
              history := s.history + [Acknowledged(id, token, ack)])
  }

  function RunFrom(s: State, log: seq<Command>): State {
    if log == [] then s else Step(RunFrom(s, log[..|log| - 1]), log[|log| - 1])
  }

  function Run(log: seq<Command>): State {
    RunFrom(EMPTY_STATE, log)
  }

  // ----- counting -----

  function Claims(history: seq<Mark>, id: Id): nat {
    if history == [] then 0
    else
      var last := history[|history| - 1];
      Claims(history[..|history| - 1], id) + if last.Claimed? && last.id == id then 1 else 0
  }

  function Sends(history: seq<Mark>, id: Id): nat {
    if history == [] then 0
    else
      var last := history[|history| - 1];
      Sends(history[..|history| - 1], id) + if last.Sent? && last.id == id then 1 else 0
  }

  lemma CountsAppend(history: seq<Mark>, m: Mark, id: Id)
    ensures Claims(history + [m], id) == Claims(history, id) + if m.Claimed? && m.id == id then 1 else 0
    ensures Sends(history + [m], id) == Sends(history, id) + if m.Sent? && m.id == id then 1 else 0
  {
    assert (history + [m])[..|history|] == history;
  }

  predicate Ends(m: Mark, id: Id, token: Token) {
    m.id == id && m.token == token && (m.Reclaimed? || m.Acknowledged?)
  }

  predicate Ended(history: seq<Mark>, id: Id, token: Token) {
    exists p :: 0 <= p < |history| && Ends(history[p], id, token)
  }

  lemma EndedAppend(history: seq<Mark>, m: Mark, id: Id, token: Token)
    ensures Ended(history + [m], id, token) <==> Ended(history, id, token) || Ends(m, id, token)
  {
    var longer := history + [m];
    if Ended(history, id, token) {
      var p :| 0 <= p < |history| && Ends(history[p], id, token);
      assert longer[p] == history[p];
    }
    if Ends(m, id, token) {
      assert longer[|history|] == m;
    }
  }

  // ----- what every reachable state satisfies -----

  function Budget(maxAttempts: int): nat {
    if maxAttempts > 1 then maxAttempts else 1
  }

  /** A row is being processed exactly under the token of a claim that has not ended. */
  ghost predicate Linked(s: State, id: Id) {
    id in s.rows ==>
      var r := s.rows[id];
      && (r.status == Processing <==> r.token.Some?)
      && (r.token.Some? ==> r.token.value < s.tokens && Claimed(id, r.token.value) in s.history
                            && !Ended(s.history, id, r.token.value))
  }

  /** `attempts` counts the claims, and a row that may still be claimed has one left. */
  ghost predicate InBudget(s: State, id: Id, max: int) {
    if id !in s.rows then Claims(s.history, id) == 0
    else
      && s.rows[id].attempts == Claims(s.history, id) <= Budget(max)
      && (s.rows[id].status == Pending ==> s.rows[id].attempts < Budget(max))
  }

  ghost predicate TokensFresh(s: State) {
    forall m :: m in s.history ==> m.token < s.tokens
  }

  /** A token belongs to one claim, is sent under at most once, and ends at most once. */
  ghost predicate OnceEach(history: seq<Mark>) {
    && (forall p, q ::
        0 <= p < q < |history| && history[p].Claimed? && history[q].Claimed? ==> history[p].token != history[q].token)
    && (forall p, q :: 0 <= p < q < |history| && history[p].Sent? ==> history[p] != history[q])
    && (forall p, q :: 0 <= p < q < |history| && Ends(history[q], history[q].id, history[q].token) ==>
          !Ends(history[p], history[q].id, history[q].token))
    && (forall q :: 0 <= q < |history| && history[q].Sent? ==> Claimed(history[q].id, history[q].token) in history)
  }

  /** The fence, whatever budgets the workers run under. */
  ghost predicate Fenced(s: State) {
    (forall id :: Linked(s, id)) && TokensFresh(s) && OnceEach(s.history)
  }

  ghost predicate AllInBudget(s: State, max: int) {
    forall id :: InBudget(s, id, max)
  }

  ghost predicate Consistent(s: State, max: int) {
    Fenced(s) && AllInBudget(s, max)
  }

  /** What the dispatchers do: one budget for recovery, and a retry only while attempts are left. */
  ghost predicate DispatcherStep(s: State, c: Command, max: int) {
    match c
    case ReclaimExpired(_, maxAttempts, _) => maxAttempts == max
    case Acknowledge(id, token, Retry(_)) => Holds(s, id, token) ==> s.rows[id].attempts < max
    case _ => true
  }

  ghost predicate AllObey(s: State, log: seq<Command>, max: int) {
    log == []
    || (AllObey(s, log[..|log| - 1], max) && DispatcherStep(RunFrom(s, log[..|log| - 1]), log[|log| - 1], max))
  }

  // ----- one recorded change to one row -----

  lemma MarkKeepsFenced(s: State, after: State, m: Mark)
    requires Fenced(s) && after.history == s.history + [m] && s.tokens <= after.tokens && m.token < after.tokens
    requires m.id in s.rows && m.id in after.rows && after.rows == s.rows[m.id := after.rows[m.id]]
    requires Linked(after, m.id) && OnceEach(after.history)
    ensures Fenced(after)
  {
    forall id
      ensures Linked(after, id)
    {
      assert Linked(s, id);
      if id != m.id && id in s.rows && s.rows[id].token.Some? {
        EndedAppend(s.history, m, id, s.rows[id].token.value);
      }
    }
  }

  lemma MarkKeepsBudget(s: State, after: State, m: Mark, max: int)
    requires AllInBudget(s, max) && after.history == s.history + [m]
    requires m.id in s.rows && m.id in after.rows && after.rows == s.rows[m.id := after.rows[m.id]]
    requires InBudget(after, m.id, max)
    ensures AllInBudget(after, max)
  {
    forall id
      ensures InBudget(after, id, max)
    {
      assert InBudget(s, id, max);
      CountsAppend(s.history, m, id);
    }
  }

  lemma ClaimKeepsFenced(s: State, id: Id, now: Time, lease: int)
    requires Fenced(s) && id in s.rows
    ensures Fenced(ClaimOne(s, id, now, lease))
  {
    var m := Claimed(id, s.tokens);
    forall p | 0 <= p < |s.history|
      ensures s.history[p].token < s.tokens
    {
      assert s.history[p] in s.history;
    }
    EndedAppend(s.history, m, id, s.tokens);
    MarkKeepsFenced(s, ClaimOne(s, id, now, lease), m);
  }

  lemma ClaimKeepsBudget(s: State, id: Id, now: Time, lease: int, max: int)
    requires AllInBudget(s, max) && id in s.rows && s.rows[id].status == Pending
    ensures AllInBudget(ClaimOne(s, id, now, lease), max)
  {
    assert InBudget(s, id, max);
    CountsAppend(s.history, Claimed(id, s.tokens), id);
    MarkKeepsBudget(s, ClaimOne(s, id, now, lease), Claimed(id, s.tokens), max);
  }

  lemma EndIsOnceEach(history: seq<Mark>, m: Mark)
    requires OnceEach(history) && (m.Reclaimed? || m.Acknowledged?) && !Ended(history, m.id, m.token)
    ensures OnceEach(history + [m])
  {
    forall p | 0 <= p < |history|
      ensures !Ends(history[p], m.id, m.token)
    {
    }
  }

  lemma ReclaimKeepsFenced(s: State, id: Id, maxAttempts: int)
    requires Fenced(s) && id in s.rows && s.rows[id].status == Processing
    ensures Fenced(ReclaimOne(s, id, maxAttempts))
  {
    assert Linked(s, id);
    var m := Reclaimed(id, s.rows[id].token.value);
    EndIsOnceEach(s.history, m);
    MarkKeepsFenced(s, ReclaimOne(s, id, maxAttempts), m);
  }

  lemma ReclaimKeepsBudget(s: State, id: Id, max: int)
    requires AllInBudget(s, max) && id in s.rows && s.rows[id].status == Processing && s.rows[id].token.Some?
    ensures AllInBudget(ReclaimOne(s, id, max), max)
  {
    var m := Reclaimed(id, s.rows[id].token.value);
    assert InBudget(s, id, max);
    CountsAppend(s.history, m, id);
    MarkKeepsBudget(s, ReclaimOne(s, id, max), m, max);
  }

  lemma AcknowledgeKeepsFenced(s: State, id: Id, token: Token, ack: Ack)
    requires Fenced(s) && Holds(s, id, token)
    ensures Fenced(Step(s, Acknowledge(id, token, ack)))
  {
    var m := Acknowledged(id, token, ack);
    assert Linked(s, id);
    EndIsOnceEach(s.history, m);
    MarkKeepsFenced(s, Step(s, Acknowledge(id, token, ack)), m);
  }

  lemma AcknowledgeKeepsBudget(s: State, id: Id, token: Token, ack: Ack, max: int)
    requires AllInBudget(s, max) && Holds(s, id, token) && DispatcherStep(s, Acknowledge(id, token, ack), max)
    ensures AllInBudget(Step(s, Acknowledge(id, token, ack)), max)
  {
    var m := Acknowledged(id, token, ack);
    assert InBudget(s, id, max);
    CountsAppend(s.history, m, id);
    MarkKeepsBudget(s, Step(s, Acknowledge(id, token, ack)), m, max);
  }

  lemma SendKeepsFenced(s: State, id: Id, token: Token)
    requires Fenced(s) && MaySend(s, id, token)
    ensures Fenced(Step(s, Send(id, token)))
  {
    var m := Sent(id, token);
    var after := Step(s, Send(id, token));
    assert Claimed(id, token).token < s.tokens;
    forall other
      ensures Linked(after, other)
    {
      assert Linked(s, other);
      if other in s.rows && s.rows[other].token.Some? {
        EndedAppend(s.history, m, other, s.rows[other].token.value);
      }
    }
  }

  lemma SendKeepsBudget(s: State, id: Id, token: Token, max: int)
    requires AllInBudget(s, max)
    ensures AllInBudget(Step(s, Send(id, token)), max)
  {
    forall other
      ensures InBudget(Step(s, Send(id, token)), other, max)
    {
      assert InBudget(s, other, max);
      CountsAppend(s.history, Sent(id, token), other);
    }
  }

  // ----- whole commands -----

  predicate Distinct(batch: seq<Id>) {
    forall a, b :: 0 <= a < b < |batch| ==> batch[a] != batch[b]
  }

  lemma {:induction false} ClaimTouchesItsBatch(s: State, batch: seq<Id>, now: Time, lease: int)
    requires forall i :: i in batch ==> i in s.rows
    ensures forall i :: i in s.rows && i !in batch ==> ClaimBatch(s, batch, now, lease).rows[i] == s.rows[i]
  {
    if batch != [] {
      ClaimTouchesItsBatch(s, batch[..|batch| - 1], now, lease);
    }
  }

  lemma {:induction false} ReclaimTouchesItsBatch(s: State, batch: seq<Id>, maxAttempts: int)
    requires forall i :: i in batch ==> i in s.rows
    ensures forall i :: i in s.rows && i !in batch ==> ReclaimBatch(s, batch, maxAttempts).rows[i] == s.rows[i]
  {
    if batch != [] {
      ReclaimTouchesItsBatch(s, batch[..|batch| - 1], maxAttempts);
    }
  }

  lemma {:induction false} ClaimBatchKeepsConsistent(s: State, batch: seq<Id>, now: Time, lease: int, max: int)
    requires Fenced(s) && Distinct(batch) && forall i :: i in batch ==> i in s.rows && s.rows[i].status == Pending
    ensures Fenced(ClaimBatch(s, batch, now, lease))
    ensures AllInBudget(s, max) ==> AllInBudget(ClaimBatch(s, batch, now, lease), max)
  {
    if batch != [] {
      var shorter, id := batch[..|batch| - 1], batch[|batch| - 1];
      ClaimBatchKeepsConsistent(s, shorter, now, lease, max);
      ClaimTouchesItsBatch(s, shorter, now, lease);
      assert id in batch && id !in shorter;
      var mid := ClaimBatch(s, shorter, now, lease);
      ClaimKeepsFenced(mid, id, now, lease);
      if AllInBudget(s, max) {
        ClaimKeepsBudget(mid, id, now, lease, max);
      }
    }
  }

  lemma {:induction false} ReclaimBatchKeepsConsistent(s: State, batch: seq<Id>, max: int)
    requires Fenced(s) && Distinct(batch) && forall i :: i in batch ==> i in s.rows && s.rows[i].status == Processing
    ensures Fenced(ReclaimBatch(s, batch, max))
    ensures AllInBudget(s, max) ==> AllInBudget(ReclaimBatch(s, batch, max), max)
  {
    if batch != [] {
      var shorter, id := batch[..|batch| - 1], batch[|batch| - 1];
      ReclaimBatchKeepsConsistent(s, shorter, max);
      ReclaimTouchesItsBatch(s, shorter, max);
      assert id in batch && id !in shorter;
      var mid := ReclaimBatch(s, shorter, max);
      assert Linked(mid, id);
      ReclaimKeepsFenced(mid, id, max);
      if AllInBudget(s, max) {
        ReclaimKeepsBudget(mid, id, max);
      }
    }
  }

  lemma BatchIsDistinct(rows: Rows, ids: set<Id>, limit: nat)
    requires ids <= rows.Keys
    ensures var batch := Queue.AtMost(Queue.DueOrder(AsQueueRows(rows), ids), limit);
            Distinct(batch) && forall i :: i in batch ==> i in ids
  {
    Queue.DueOrderIsOrdered(AsQueueRows(rows), ids);
  }

  lemma StepKeepsFenced(s: State, c: Command)
    requires Fenced(s)
    ensures Fenced(Step(s, c))
  {
    match c
    case Enqueue(id, now, addressed) =>
      forall other
        ensures Linked(Step(s, c), other)
      {
        assert Linked(s, other);
      }
    case ClaimDue(now, limit, lease) =>
      BatchIsDistinct(s.rows, DueIds(s.rows, now), limit);
      ClaimBatchKeepsConsistent(s, DueBatch(s.rows, now, limit), now, lease, 0);
    case ReclaimExpired(now, maxAttempts, limit) =>
      BatchIsDistinct(s.rows, AbandonedIds(s.rows, now), limit);
      ReclaimBatchKeepsConsistent(s, AbandonedBatch(s.rows, now, limit), maxAttempts);
    case Send(id, token) =>
      if MaySend(s, id, token) {
        SendKeepsFenced(s, id, token);
      }
    case Acknowledge(id, token, ack) =>
      if Holds(s, id, token) {
        AcknowledgeKeepsFenced(s, id, token, ack);
      }
  }

  lemma StepKeepsBudget(s: State, c: Command, max: int)
    requires Consistent(s, max) && DispatcherStep(s, c, max)
    ensures AllInBudget(Step(s, c), max)
  {
    match c
    case Enqueue(id, now, addressed) =>
      forall other
        ensures InBudget(Step(s, c), other, max)
      {
        assert InBudget(s, other, max);
      }
    case ClaimDue(now, limit, lease) =>
      BatchIsDistinct(s.rows, DueIds(s.rows, now), limit);
      ClaimBatchKeepsConsistent(s, DueBatch(s.rows, now, limit), now, lease, max);
    case ReclaimExpired(now, _, limit) =>
      BatchIsDistinct(s.rows, AbandonedIds(s.rows, now), limit);
      ReclaimBatchKeepsConsistent(s, AbandonedBatch(s.rows, now, limit), max);
    case Send(id, token) => SendKeepsBudget(s, id, token, max);
    case Acknowledge(id, token, ack) =>
      if Holds(s, id, token) {
        AcknowledgeKeepsBudget(s, id, token, ack, max);
      }
  }

  lemma StepKeepsConsistent(s: State, c: Command, max: int)
    requires Consistent(s, max) && DispatcherStep(s, c, max)
    ensures Consistent(Step(s, c), max)
  {
    StepKeepsFenced(s, c);
    StepKeepsBudget(s, c, max);
  }

  lemma {:induction false} RunKeepsConsistent(s: State, log: seq<Command>, max: int)
    requires Consistent(s, max) && AllObey(s, log, max)
    ensures Consistent(RunFrom(s, log), max)
  {
    if log != [] {
      RunKeepsConsistent(s, log[..|log| - 1], max);
      StepKeepsConsistent(RunFrom(s, log[..|log| - 1]), log[|log| - 1], max);
    }
  }

  lemma EmptyIsConsistent(max: int)
    ensures Consistent(EMPTY_STATE, max)
  {
    forall id
      ensures Linked(EMPTY_STATE, id) && InBudget(EMPTY_STATE, id, max)
    {
    }
  }

  lemma {:induction false} EveryRunIsFenced(log: seq<Command>)
    ensures Fenced(Run(log))
  {
    if log == [] {
      EmptyIsConsistent(0);
    } else {
      EveryRunIsFenced(log[..|log| - 1]);
      StepKeepsFenced(Run(log[..|log| - 1]), log[|log| - 1]);
    }
  }

  // ----- the claims -----

  function SentTokens(history: seq<Mark>, id: Id): set<Token> {
    set m | m in history && m.Sent? && m.id == id :: m.token
  }

  function ClaimTokens(history: seq<Mark>, id: Id): set<Token> {
    set m | m in history && m.Claimed? && m.id == id :: m.token
  }

  lemma {:induction false} SendsAreTheirTokens(history: seq<Mark>, id: Id)
    requires forall p, q :: 0 <= p < q < |history| && history[p].Sent? ==> history[p] != history[q]
    ensures Sends(history, id) == |SentTokens(history, id)|
  {
    if history == [] {
      assert SentTokens(history, id) == {};
    } else {
      var shorter, last := history[..|history| - 1], history[|history| - 1];
      SendsAreTheirTokens(shorter, id);
      assert history == shorter + [last];
      if last.Sent? && last.id == id {
        assert SentTokens(history, id) == SentTokens(shorter, id) + {last.token};
        assert last !in shorter;
        assert last.token !in SentTokens(shorter, id);
      } else {
        assert SentTokens(history, id) == SentTokens(shorter, id);
      }
    }
  }

  lemma {:induction false} ClaimsCoverTheirTokens(history: seq<Mark>, id: Id)
    ensures |ClaimTokens(history, id)| <= Claims(history, id)
  {
    if history == [] {
      assert ClaimTokens(history, id) == {};
    } else {
      var shorter, last := history[..|history| - 1], history[|history| - 1];
      ClaimsCoverTheirTokens(shorter, id);
      assert history == shorter + [last];
      if last.Claimed? && last.id == id {
        assert ClaimTokens(history, id) == ClaimTokens(shorter, id) + {last.token};
      } else {
        assert ClaimTokens(history, id) == ClaimTokens(shorter, id);
      }
    }
  }

  lemma {:induction false} SubsetIsSmaller(a: set<Token>, b: set<Token>)
    requires a <= b
    ensures |a| <= |b|
  {
    if a != {} {
      var x :| x in a;
      SubsetIsSmaller(a - {x}, b - {x});
    }
  }

  /** A consistent history sends no more often than it claims, and claims within the budget. */
  lemma SentAtMostClaimed(s: State, id: Id, max: int)
    requires Consistent(s, max)
    ensures Sends(s.history, id) <= Claims(s.history, id) <= Budget(max)
  {
    assert InBudget(s, id, max);
    SendsAreTheirTokens(s.history, id);
    ClaimsCoverTheirTokens(s.history, id);
    forall token | token in SentTokens(s.history, id)
      ensures token in ClaimTokens(s.history, id)
    {
      assert Sent(id, token) in s.history;
      var q :| 0 <= q < |s.history| && s.history[q] == Sent(id, token);
      assert Claimed(id, token) in s.history;
    }
    SubsetIsSmaller(SentTokens(s.history, id), ClaimTokens(s.history, id));
  }

  /**
   The fence: in every run, whatever budgets its workers use and however late they come, each claim
   is acknowledged or taken back at most once.
   */
  lemma ClaimEndsAtMostOnce(log: seq<Command>, p: nat, q: nat, id: Id, token: Token)
    requires p < |Run(log).history| && q < |Run(log).history|
    requires Ends(Run(log).history[p], id, token) && Ends(Run(log).history[q], id, token)
    ensures p == q
  {
    EveryRunIsFenced(log);
  }

  lemma TerminalStays(s: State, c: Command, id: Id)
    requires id in s.rows && Terminal(s.rows[id])
    ensures id in Step(s, c).rows && Step(s, c).rows[id] == s.rows[id]
  {
    match c
    case ClaimDue(now, limit, lease) =>
      BatchIsDistinct(s.rows, DueIds(s.rows, now), limit);
      ClaimTouchesItsBatch(s, DueBatch(s.rows, now, limit), now, lease);
    case ReclaimExpired(now, maxAttempts, limit) =>
      BatchIsDistinct(s.rows, AbandonedIds(s.rows, now), limit);
      ReclaimTouchesItsBatch(s, AbandonedBatch(s.rows, now, limit), maxAttempts);
    case _ =>
  }

  /** An accepted, delivered or failed notification is never touched again. */
  lemma {:induction false} TerminalIsForEver(s: State, log: seq<Command>, id: Id)
    requires id in s.rows && Terminal(s.rows[id])
    ensures id in RunFrom(s, log).rows && RunFrom(s, log).rows[id] == s.rows[id]
  {
    if log != [] {
      TerminalIsForEver(s, log[..|log| - 1], id);
      TerminalStays(RunFrom(s, log[..|log| - 1]), log[|log| - 1], id);
    }
  }
}
