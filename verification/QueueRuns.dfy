/**
 Whole runs of one queue under any number of workers, with a history of every claim and of how
 it ended.

 Tokens are drawn from a counter: all that matters about `newClaimToken` is that it never
 repeats. A worker may present any token it ever held, at any time.
 */
module QueueRuns {
  import opened Common
  import opened Queue

  datatype Mark =
    | Claimed(id: Id, token: Token, attempts: nat)
    | Recovered(id: Id, token: Token)
    | Acknowledged(id: Id, token: Token, ack: Ack)
    | Revived(id: Id, attempts: nat)

  datatype State = State(rows: Rows, nextToken: Token, history: seq<Mark>)

  const EMPTY_STATE := State(map[], 0, [])

  datatype Command =
    | Append(id: Id, now: Time)
    | Claim(now: Time, count: int, lease: int)
    | Recover(now: Time, maxReclaims: nat, limit: int)
    | Acknowledge(id: Id, token: Token, ack: Ack)
    | Revive(id: Id, now: Time)

  // ----- one row at a time -----

  function ClaimOne(s: State, id: Id, now: Time, lease: int): State
    requires id in s.rows
  {
    var row := s.rows[id];
    State(s.rows[id := ClaimedRow(row, now, lease, s.nextToken)], s.nextToken,
          s.history + [Claimed(id, s.nextToken, row.attempts)])
  }

  function RecoverOne(s: State, id: Id, now: Time, maxReclaims: nat): State
    requires id in s.rows
  {
    var row := s.rows[id];
    State(s.rows[id := RecoveredRow(row, now, maxReclaims)], s.nextToken,
          s.history + [Recovered(id, if row.token.Some? then row.token.value else 0)])
  }

  /** A batch is claimed row by row under one token. */
  function ClaimBatch(s: State, batch: seq<Id>, now: Time, lease: int): (after: State)
    requires forall i :: i in batch ==> i in s.rows
    ensures after.rows.Keys == s.rows.Keys && after.nextToken == s.nextToken
  {
    if batch == [] then s
    else
      var last := batch[|batch| - 1];
      ClaimOne(ClaimBatch(s, batch[..|batch| - 1], now, lease), last, now, lease)
  }

  function RecoverBatch(s: State, batch: seq<Id>, now: Time, maxReclaims: nat): (after: State)
    requires forall i :: i in batch ==> i in s.rows
    ensures after.rows.Keys == s.rows.Keys && after.nextToken == s.nextToken
  {
    if batch == [] then s
    else
      var last := batch[|batch| - 1];
      RecoverOne(RecoverBatch(s, batch[..|batch| - 1], now, maxReclaims), last, now, maxReclaims)
  }

  function DueBatch(rows: Rows, now: Time, count: int): (batch: seq<Id>)
    ensures forall i :: i in batch ==> i in rows
  {
    AtMost(DueOrder(rows, DueIds(rows, now)), count)
  }

  function AbandonedBatch(rows: Rows, now: Time, limit: int): (batch: seq<Id>)
    ensures forall i :: i in batch ==> i in rows
  {
    AtMost(DueOrder(rows, AbandonedIds(rows, now)), limit)
  }

  function AcknowledgeOne(s: State, id: Id, token: Token, ack: Ack): State {
    if id !in s.rows || IsFenced(s.rows[id].token, Some(token)) then s
    else State(s.rows[id := AcknowledgedRow(s.rows[id], ack)], s.nextToken, s.history + [Acknowledged(id, token, ack)])
  }

  function ReviveOne(s: State, id: Id, now: Time): State {
    if id !in s.rows || s.rows[id].status != Dead then s
    else State(s.rows[id := RevivedRow(s.rows[id], now)], s.nextToken, s.history + [Revived(id, s.rows[id].attempts)])
  }

  function Step(s: State, c: Command): State {
    match c
    case Append(id, now) => if id in s.rows then s else s.(rows := s.rows[id := NewRow(now)])
    case Claim(now, count, lease) =>
      ClaimBatch(s, DueBatch(s.rows, now, count), now, lease).(nextToken := s.nextToken + 1)
    case Recover(now, maxReclaims, limit) => RecoverBatch(s, AbandonedBatch(s.rows, now, limit), now, maxReclaims)
    case Acknowledge(id, token, ack) => AcknowledgeOne(s, id, token, ack)
    case Revive(id, now) => ReviveOne(s, id, now)
  }

  function Run(start: State, log: seq<Command>): State {
    if log == [] then start else Step(Run(start, log[..|log| - 1]), log[|log| - 1])
  }

  // ----- what a history may say -----

  function LastMark(history: seq<Mark>, id: Id): Option<Mark> {
    if history == [] then None
    else if history[|history| - 1].id == id then Some(history[|history| - 1])
    else LastMark(history[..|history| - 1], id)
  }

  lemma LastMarkAppend(history: seq<Mark>, m: Mark, id: Id)
    ensures LastMark(history + [m], id) == (if m.id == id then Some(m) else LastMark(history, id))
  {
    assert (history + [m])[..|history|] == history;
  }

  predicate Finishing(m: Option<Mark>) {
    m.Some? && m.value.Acknowledged? && m.value.ack.Finish?
  }

  /** Whether a mark may follow the latest mark of the same row. */
  predicate MayFollow(last: Option<Mark>, m: Mark) {
    match m
    case Claimed(_, _, _) => !Finishing(last) && !(last.Some? && last.value.Claimed?)
    case Recovered(id, token) => last.Some? && last.value.Claimed? && last.value.token == token
    case Acknowledged(id, token, _) => last.Some? && last.value.Claimed? && last.value.token == token
    case Revived(_, _) => !Finishing(last) && last.Some? && !last.value.Claimed?
  }

  ghost predicate Legal(history: seq<Mark>) {
    forall p :: 0 <= p < |history| ==> MayFollow(LastMark(history[..p], history[p].id), history[p])
  }

  lemma LegalAppend(history: seq<Mark>, m: Mark)
    requires Legal(history) && MayFollow(LastMark(history, m.id), m)
    ensures Legal(history + [m])
  {
    var longer := history + [m];
    forall p | 0 <= p < |longer|
      ensures MayFollow(LastMark(longer[..p], longer[p].id), longer[p])
    {
      assert longer[..p] == history[..p];
      if p == |history| {
        assert history[..p] == history;
      }
    }
  }

  // ----- how rows and history stay in step -----

  ghost predicate InStep(s: State, id: Id) {
    var last := LastMark(s.history, id);
    if id !in s.rows then last == None
    else
      var row := s.rows[id];
      && (row.token.Some? <==> row.claimedAt.Some?)
      && (row.token.Some? ==> row.status == Pending)
      && (last.Some? && last.value.Claimed? <==> row.token.Some?)
      && (row.token.Some? ==> last.value.token == row.token.value && last.value.attempts == row.attempts)
      && (Finishing(last) <==> row.status == Finished)
      && (row.status == Dead ==> last.Some?)
  }

  /** No (row, token) pair is claimed twice, and no token at or above the counter was ever used. */
  ghost predicate TokensFresh(s: State) {
    forall p :: 0 <= p < |s.history| && s.history[p].Claimed? ==> s.history[p].token < s.nextToken
  }

  ghost predicate ClaimsDistinct(history: seq<Mark>) {
    forall p, q :: 0 <= p < q < |history| && history[p].Claimed? && history[q].Claimed? ==>
      history[p].id != history[q].id || history[p].token != history[q].token
  }

  ghost predicate Consistent(s: State) {
    && (forall id :: InStep(s, id))
    && Legal(s.history)
    && TokensFresh(s)
    && ClaimsDistinct(s.history)
  }

  /** One recorded change to one row. */
  lemma MarkKeepsConsistent(s: State, after: State, m: Mark)
    requires Consistent(s) && after.history == s.history + [m] && after.nextToken == s.nextToken && !m.Claimed?
    requires m.id in s.rows && m.id in after.rows && after.rows == s.rows[m.id := after.rows[m.id]]
    requires MayFollow(LastMark(s.history, m.id), m)
    requires after.rows[m.id].token == None && after.rows[m.id].claimedAt == None
    requires Finishing(Some(m)) <==> after.rows[m.id].status == Finished
    ensures Consistent(after)
  {
    forall id
      ensures InStep(after, id)
    {
      assert InStep(s, id);
      LastMarkAppend(s.history, m, id);
    }
    LegalAppend(s.history, m);
  }

  /**
   A claim under the current token. While a batch is being claimed the token is in use by the
   rows claimed so far, so freshness is stated for the rows still to come.
   */
  ghost predicate MidBatch(s: State, taken: seq<Id>) {
    && (forall id :: InStep(s, id))
    && Legal(s.history)
    && ClaimsDistinct(s.history)
    && (forall p :: 0 <= p < |s.history| && s.history[p].Claimed? ==>
          s.history[p].token < s.nextToken || (s.history[p].token == s.nextToken && s.history[p].id in taken))
  }

  lemma ClaimOneKeepsMidBatch(s: State, taken: seq<Id>, id: Id, now: Time, lease: int)
    requires MidBatch(s, taken) && id !in taken && id in s.rows && s.rows[id].status == Pending
             && s.rows[id].claimedAt == None
    ensures MidBatch(ClaimOne(s, id, now, lease), taken + [id])
  {
    var after := ClaimOne(s, id, now, lease);
    var m := after.history[|s.history|];
    assert InStep(s, id);
    forall other
      ensures InStep(after, other)
    {
      assert InStep(s, other);
      LastMarkAppend(s.history, m, other);
    }
    LegalAppend(s.history, m);
  }

  lemma {:induction false} ClaimBatchKeepsMidBatch(s: State, batch: seq<Id>, now: Time, lease: int)
    requires Consistent(s)
    requires forall i :: i in batch ==> i in s.rows && s.rows[i].status == Pending && s.rows[i].claimedAt == None
    requires Distinct(batch)
    ensures MidBatch(ClaimBatch(s, batch, now, lease), batch)
    ensures forall i :: i in s.rows && i !in batch ==> ClaimBatch(s, batch, now, lease).rows[i] == s.rows[i]
  {
    if batch != [] {
      var shorter, last := batch[..|batch| - 1], batch[|batch| - 1];
      ClaimBatchKeepsMidBatch(s, shorter, now, lease);
      assert last !in shorter;
      ClaimOneKeepsMidBatch(ClaimBatch(s, shorter, now, lease), shorter, last, now, lease);
      assert shorter + [last] == batch;
    }
  }

  lemma {:induction false} RecoverBatchKeepsConsistent(s: State, batch: seq<Id>, now: Time, maxReclaims: nat)
    requires Consistent(s)
    requires forall i :: i in batch ==> i in s.rows && s.rows[i].status == Pending && s.rows[i].claimedAt.Some?
    requires Distinct(batch)
    ensures Consistent(RecoverBatch(s, batch, now, maxReclaims))
    ensures forall i :: i in s.rows && i !in batch ==> RecoverBatch(s, batch, now, maxReclaims).rows[i] == s.rows[i]
  {
    if batch != [] {
      var shorter, last := batch[..|batch| - 1], batch[|batch| - 1];
      RecoverBatchKeepsConsistent(s, shorter, now, maxReclaims);
      assert last !in shorter;
      var mid := RecoverBatch(s, shorter, now, maxReclaims);
      assert InStep(mid, last);
      var after := RecoverOne(mid, last, now, maxReclaims);
      MarkKeepsConsistent(mid, after, after.history[|mid.history|]);
    }
  }

  predicate Distinct(order: seq<Id>) {
    forall a, b :: 0 <= a < b < |order| ==> order[a] != order[b]
  }

  lemma BatchesAreDistinct(rows: Rows, ids: set<Id>, count: int)
    requires ids <= rows.Keys
    ensures forall i :: i in AtMost(DueOrder(rows, ids), count) ==> i in ids
    ensures Distinct(AtMost(DueOrder(rows, ids), count))
  {
    DueOrderIsOrdered(rows, ids);
  }

  lemma DueBatchIsDue(rows: Rows, now: Time, count: int)
    ensures Distinct(DueBatch(rows, now, count))
    ensures forall i :: i in DueBatch(rows, now, count) ==> i in rows && Due(rows[i], now)
  {
    BatchesAreDistinct(rows, DueIds(rows, now), count);
    assert forall i :: i in DueBatch(rows, now, count) ==> i in DueIds(rows, now);
  }

  lemma AbandonedBatchIsAbandoned(rows: Rows, now: Time, limit: int)
    ensures Distinct(AbandonedBatch(rows, now, limit))
    ensures forall i :: i in AbandonedBatch(rows, now, limit) ==> i in rows && Abandoned(rows[i], now)
  {
    BatchesAreDistinct(rows, AbandonedIds(rows, now), limit);
    assert forall i :: i in AbandonedBatch(rows, now, limit) ==> i in AbandonedIds(rows, now);
  }

  lemma StepKeepsConsistent(s: State, c: Command)
    requires Consistent(s)
    ensures Consistent(Step(s, c))
  {
    match c
    case Append(id, now) =>
      if id !in s.rows {
        forall other
          ensures InStep(Step(s, c), other)
        {
          assert InStep(s, other);
        }
      }
    case Claim(now, count, lease) =>
      DueBatchIsDue(s.rows, now, count);
      ClaimBatchKeepsMidBatch(s, DueBatch(s.rows, now, count), now, lease);
      var claimed := ClaimBatch(s, DueBatch(s.rows, now, count), now, lease);
      forall id
        ensures InStep(Step(s, c), id)
      {
        assert InStep(claimed, id);
      }
    case Recover(now, maxReclaims, limit) =>
      AbandonedBatchIsAbandoned(s.rows, now, limit);
      RecoverBatchKeepsConsistent(s, AbandonedBatch(s.rows, now, limit), now, maxReclaims);
    case Acknowledge(id, token, ack) =>
      assert InStep(s, id);
      var after := Step(s, c);
      if after != s {
        MarkKeepsConsistent(s, after, Acknowledged(id, token, ack));
      }
    case Revive(id, now) =>
      assert InStep(s, id);
      var after := Step(s, c);
      if after != s {
        MarkKeepsConsistent(s, after, Revived(id, s.rows[id].attempts));
      }
  }

  lemma {:induction false} EveryRunIsConsistent(log: seq<Command>)
    ensures Consistent(Run(EMPTY_STATE, log))
  {
    if log != [] {
      EveryRunIsConsistent(log[..|log| - 1]);
      StepKeepsConsistent(Run(EMPTY_STATE, log[..|log| - 1]), log[|log| - 1]);
    }
  }

  // ----- fence safety, stated on histories -----

  predicate Ends(m: Mark, id: Id, token: Token) {
    m.id == id && (m.Recovered? || m.Acknowledged?) && m.token == token
  }

  lemma {:induction false} LastMarkIsAt(history: seq<Mark>, id: Id) returns (q: nat)
    requires LastMark(history, id).Some?
    ensures q < |history| && history[q] == LastMark(history, id).value && history[q].id == id
    ensures forall r :: q < r < |history| ==> history[r].id != id
  {
    if history[|history| - 1].id == id {
      q := |history| - 1;
    } else {
      q := LastMarkIsAt(history[..|history| - 1], id);
    }
  }

  lemma {:induction false} NoLastMark(history: seq<Mark>, id: Id, p: nat)
    requires p < |history| && history[p].id == id
    ensures LastMark(history, id).Some?
  {
    if history[|history| - 1].id != id {
      NoLastMark(history[..|history| - 1], id, p);
    }
  }

  /** Whatever ends a claim comes from that very claim, with nothing done to the row in between. */
  lemma EndComesFromItsClaim(s: State, p: nat) returns (q: nat)
    requires Consistent(s) && p < |s.history| && (s.history[p].Acknowledged? || s.history[p].Recovered?)
    ensures q < p && s.history[q].Claimed?
    ensures s.history[q].id == s.history[p].id && s.history[q].token == s.history[p].token
    ensures forall r :: q < r < p ==> s.history[r].id != s.history[p].id
  {
    q := LastMarkIsAt(s.history[..p], s.history[p].id);
  }

  /** Each claim of a row by a token ends at most once, whoever acknowledges or recovers it. */
  lemma ClaimEndsAtMostOnce(s: State, p1: nat, p2: nat, id: Id, token: Token)
    requires Consistent(s) && p1 < |s.history| && p2 < |s.history|
    requires Ends(s.history[p1], id, token) && Ends(s.history[p2], id, token)
    ensures p1 == p2
  {
    if p1 != p2 {
      var early, late := if p1 < p2 then p1 else p2, if p1 < p2 then p2 else p1;
      var q1 := EndComesFromItsClaim(s, early);
      var q2 := EndComesFromItsClaim(s, late);
    }
  }

  /** Nothing ever happens to a row again once it is published or delivered. */
  lemma FinishIsAbsorbing(s: State, p: nat, later: nat)
    requires Consistent(s) && p < later < |s.history| && Finishing(Some(s.history[p]))
    ensures s.history[later].id != s.history[p].id
    decreases later - p
  {
    var id := s.history[p].id;
    if s.history[later].id == id {
      NoLastMark(s.history[..later], id, p);
      var q := LastMarkIsAt(s.history[..later], id);
      if q > p {
        FinishIsAbsorbing(s, p, q);
      }
    }
  }

  /**
   Fence safety over whole runs: in every run each (row, token) claim is handed out once and
   ends at most once, every acknowledgement that was applied belongs to the row's latest claim
   with nothing recorded for the row since, and a finished row is never touched again.
   */
  lemma FenceSafety(log: seq<Command>)
    ensures var h := Run(EMPTY_STATE, log).history;
            && (forall p, q ::
                0 <= p < q < |h| && h[p].Claimed? && h[q].Claimed? ==> h[p].id != h[q].id || h[p].token != h[q].token)
            && (forall p, q, id, token :: 0 <= p < q < |h| && Ends(h[p], id, token) ==> !Ends(h[q], id, token))
            && (forall p :: 0 <= p < |h| && h[p].Acknowledged? ==>
                  exists q :: 0 <= q < p && h[q].Claimed? && h[q].id == h[p].id && h[q].token == h[p].token
                              && forall r :: q < r < p ==> h[r].id != h[p].id)
            && (forall p, q :: 0 <= p < q < |h| && Finishing(Some(h[p])) ==> h[q].id != h[p].id)
  {
    EveryRunIsConsistent(log);
    var s := Run(EMPTY_STATE, log);
    var h := s.history;
    forall p, q, id, token | 0 <= p < q < |h| && Ends(h[p], id, token)
      ensures !Ends(h[q], id, token)
    {
      if Ends(h[q], id, token) {
        ClaimEndsAtMostOnce(s, p, q, id, token);
      }
    }
    forall p | 0 <= p < |h| && h[p].Acknowledged?
      ensures exists q :: 0 <= q < p && h[q].Claimed? && h[q].id == h[p].id && h[q].token == h[p].token
                          && forall r :: q < r < p ==> h[r].id != h[p].id
    {
      var q := EndComesFromItsClaim(s, p);
    }
    forall p, q | 0 <= p < q < |h| && Finishing(Some(h[p]))
      ensures h[q].id != h[p].id
    {
      FinishIsAbsorbing(s, p, q);
    }
  }

  /** The latest thing recorded for the row is the claim of this token. */
  predicate HeldBy(history: seq<Mark>, id: Id, token: Token) {
    var last := LastMark(history, id);
    last.Some? && last.value.Claimed? && last.value.token == token
  }

  /** An acknowledgement is applied exactly when the presented token is the one on the row. */
  lemma AppliedExactlyWhenHeld(log: seq<Command>, id: Id, token: Token, ack: Ack)
    ensures (Step(Run(EMPTY_STATE, log), Acknowledge(id, token, ack)) != Run(EMPTY_STATE, log))
         == HeldBy(Run(EMPTY_STATE, log).history, id, token)
  {
    EveryRunIsConsistent(log);
    var s := Run(EMPTY_STATE, log);
    assert InStep(s, id);
    assert |AcknowledgeOne(s, id, token, ack).history| != |s.history| <==> Step(s, Acknowledge(id, token, ack)) != s;
  }
}
