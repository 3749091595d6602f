/**
 The idempotency-key table behind retried requests: claiming a key, completing it with an
 answer, releasing it, and taking over what expired or was abandoned.

 Each statement is one atomic step. A claim that does not win reads the record in a second
 statement, so anything may happen in between.
 */
module IdempotencyKeys {
  import opened Common

  type Time = int
  type Token = nat

  /** The primary key: method, scope and the caller's key. */
  datatype Key = Key(httpMethod: string, scope: string, key: string)

  datatype Answer = Answer(status: int, body: string)

  const CLAIM_HORIZON_MS := 60_000
  const RETENTION_MS := 86_400_000

  datatype Phase = Claimed | Completed(answer: Answer, completedAt: Time)

  datatype Record = Record(fingerprint: string, phase: Phase, token: Token, claimedAt: Time, expiresAt: Time)

  datatype Mark =
    | Taken(key: Key, token: Token, at: Time)
    | Finished(key: Key, token: Token, answer: Answer)
    | LetGo(key: Key, token: Token)

  datatype Table = Table(rows: map<Key, Record>, nextToken: Token, history: seq<Mark>)

  const EMPTY_TABLE := Table(map[], 0, [])

  // ----- statements -----

  /** The `where` of the upsert: the record is past its retention, or its claim was abandoned. */
  predicate TakenOver(r: Record, now: Time) {
    r.expiresAt <= now || (r.phase.Claimed? && r.claimedAt <= now - CLAIM_HORIZON_MS)
  }

  predicate Wins(t: Table, k: Key, now: Time) {
    k !in t.rows || TakenOver(t.rows[k], now)
  }

  function TryClaim(t: Table, k: Key, fingerprint: string, now: Time): Table {
    if !Wins(t, k, now) then t
    else
      Table(t.rows[k := Record(fingerprint, Claimed, t.nextToken, now, now + RETENTION_MS)], t.nextToken + 1,
            t.history + [Taken(k, t.nextToken, now)])
  }

  /** An expired record is indistinguishable from none. */
  function Find(t: Table, k: Key, now: Time): Option<Record> {
    if k in t.rows && t.rows[k].expiresAt > now then Some(t.rows[k]) else None
  }

  datatype Outcome =
    | Won(token: Token)
    | InFlight(since: Time)
    | Reused
    | AlreadyAnswered(answer: Answer)

  /** What a claim that did not win is told; the fingerprint is compared before the state. */
  function Told(t: Table, k: Key, fingerprint: string, asked: Time, now: Time): Outcome {
    match Find(t, k, now)
    case None => InFlight(asked)
    case Some(r) =>
      if r.fingerprint != fingerprint then Reused
      else if r.phase.Completed? then AlreadyAnswered(r.phase.answer)
      else InFlight(r.claimedAt)
  }

  predicate MayComplete(t: Table, k: Key, token: Token, now: Time) {
    k in t.rows && t.rows[k].token == token && t.rows[k].phase.Claimed? && t.rows[k].expiresAt > now
  }

  function Complete(t: Table, k: Key, token: Token, answer: Answer, now: Time): Table {
    if !MayComplete(t, k, token, now) then t
    else t.(rows := t.rows[k := t.rows[k].(phase := Completed(answer, now))],
            history := t.history + [Finished(k, token, answer)])
  }

  predicate MayRelease(t: Table, k: Key, token: Token) {
    k in t.rows && t.rows[k].token == token && t.rows[k].phase.Claimed?
  }

  function Release(t: Table, k: Key, token: Token): Table {
    if !MayRelease(t, k, token) then t
    else t.(rows := t.rows - {k}, history := t.history + [LetGo(k, token)])
  }

  datatype Statement =
    | ClaimIt(key: Key, fingerprint: string)
    | CompleteIt(key: Key, token: Token, answer: Answer)
    | ReleaseIt(key: Key, token: Token)

  datatype Timed = Timed(at: Time, statement: Statement)

  function Step(t: Table, now: Time, s: Statement): Table {
    match s
    case ClaimIt(k, fingerprint) => TryClaim(t, k, fingerprint, now)
    case CompleteIt(k, token, answer) => Complete(t, k, token, answer, now)
    case ReleaseIt(k, token) => Release(t, k, token)
  }

  function Run(t: Table, log: seq<Timed>): Table {
    if log == [] then t else Step(Run(t, log[..|log| - 1]), log[|log| - 1].at, log[|log| - 1].statement)
  }

  // ----- what every reachable table satisfies -----

  function LastTaken(history: seq<Mark>, k: Key): (taken: Option<Mark>)
    ensures taken.Some? ==> taken.value.Taken? && taken.value.key == k && taken.value in history
  {
    if history == [] then None
    else
      var last := history[|history| - 1];
      if last.Taken? && last.key == k then Some(last) else LastTaken(history[..|history| - 1], k)
  }

  predicate Ended(history: seq<Mark>, k: Key, token: Token) {
    exists p :: 0 <= p < |history| && Ends(history[p], k, token)
  }

  predicate Ends(m: Mark, k: Key, token: Token) {
    m.key == k && m.token == token && !m.Taken?
  }

  /** A claim ends only while it is the latest one of its key, and only once. */
  predicate MayFollow(earlier: seq<Mark>, m: Mark) {
    match m
    case Taken(_, _, _) => true
    case _ =>
      && LastTaken(earlier, m.key).Some? && LastTaken(earlier, m.key).value.token == m.token
      && !Ended(earlier, m.key, m.token)
  }

  ghost predicate Legal(history: seq<Mark>) {
    forall p :: 0 <= p < |history| ==> MayFollow(history[..p], history[p])
  }

  ghost predicate InStep(t: Table, k: Key) {
    k in t.rows ==>
      && LastTaken(t.history, k).Some?
      && LastTaken(t.history, k).value.token == t.rows[k].token
      && LastTaken(t.history, k).value.at == t.rows[k].claimedAt
      && t.rows[k].expiresAt == t.rows[k].claimedAt + RETENTION_MS
      && (t.rows[k].phase.Claimed? <==> !Ended(t.history, k, t.rows[k].token))
      && (t.rows[k].phase.Completed?
          ==> exists p :: 0 <= p < |t.history| && t.history[p] == Finished(k, t.rows[k].token, t.rows[k].phase.answer))
  }

  ghost predicate Fresh(t: Table) {
    forall p :: 0 <= p < |t.history| ==> t.history[p].token < t.nextToken
  }

  /** No two claims share a token. */
  ghost predicate Distinct(history: seq<Mark>) {
    forall p, q :: 0 <= p < q < |history| && history[p].Taken? && history[q].Taken?
        ==> history[p].token != history[q].token
  }

  ghost predicate Consistent(t: Table) {
    (forall k :: InStep(t, k)) && Legal(t.history) && Fresh(t) && Distinct(t.history)
  }

  lemma AppendedMark(history: seq<Mark>, m: Mark, k: Key, token: Token)
    ensures LastTaken(history + [m], k) == (if m.Taken? && m.key == k then Some(m) else LastTaken(history, k))
    ensures Ended(history + [m], k, token) <==> Ended(history, k, token) || Ends(m, k, token)
  {
    var longer := history + [m];
    assert longer[..|history|] == history;
    if Ended(history, k, token) {
      var p :| 0 <= p < |history| && Ends(history[p], k, token);
      assert longer[p] == history[p];
    }
    if Ends(m, k, token) {
      assert longer[|history|] == m;
    }
  }

  lemma AppendIsLegal(history: seq<Mark>, m: Mark)
    requires Legal(history) && MayFollow(history, m)
    ensures Legal(history + [m])
  {
    var longer := history + [m];
    forall p | 0 <= p < |longer|
      ensures MayFollow(longer[..p], longer[p])
    {
      assert longer[..p] == history[..p];
      if p == |history| {
        assert history[..p] == history;
      }
    }
  }

  /** One more mark, about one key. */
  lemma MarkKeepsOthers(t: Table, after: Table, m: Mark, k: Key)
    requires Consistent(t) && after.history == t.history + [m] && k != m.key
    requires k in after.rows ==> k in t.rows && after.rows[k] == t.rows[k]
    ensures InStep(after, k)
  {
    assert InStep(t, k);
    if k in after.rows {
      AppendedMark(t.history, m, k, t.rows[k].token);
      if t.rows[k].phase.Completed? {
        var p :| 0 <= p < |t.history| && t.history[p] == Finished(k, t.rows[k].token, t.rows[k].phase.answer);
        assert after.history[p] == t.history[p];
      }
    }
  }

  lemma StepKeepsConsistent(t: Table, now: Time, s: Statement)
    requires Consistent(t)
    ensures Consistent(Step(t, now, s))
  {
    var after := Step(t, now, s);
    var k := s.key;
    if |after.history| == |t.history| + 1 {
      var m := after.history[|t.history|];
      assert InStep(t, k);
      assert after.history == t.history + [m] && m.key == k;
      AppendedMark(t.history, m, k, m.token);
      forall other
        ensures InStep(after, other)
      {
        if other != k {
          MarkKeepsOthers(t, after, m, other);
        }
      }
      AppendIsLegal(t.history, m);
    }
  }

  lemma {:induction false} EveryRunIsConsistent(log: seq<Timed>)
    ensures Consistent(Run(EMPTY_TABLE, log))
  {
    if log != [] {
      EveryRunIsConsistent(log[..|log| - 1]);
      StepKeepsConsistent(Run(EMPTY_TABLE, log[..|log| - 1]), log[|log| - 1].at, log[|log| - 1].statement);
    }
  }

  // ----- the claims -----

  lemma {:induction false} LastTakenIsLater(history: seq<Mark>, k: Key, q: nat)
    requires q < |history| && history[q].Taken? && history[q].key == k
    ensures LastTaken(history, k).Some?
    ensures exists r :: q <= r < |history| && history[r] == LastTaken(history, k).value
  {
    var last := history[|history| - 1];
    if !(last.Taken? && last.key == k) {
      LastTakenIsLater(history[..|history| - 1], k, q);
      var r :| q <= r < |history| - 1 && history[..|history| - 1][r] == LastTaken(history, k).value;
      assert history[r] == LastTaken(history, k).value;
    }
  }

  /** A claim is completed or released at most once. */
  lemma ClaimEndsOnce(t: Table, p: nat, q: nat)
    requires Consistent(t) && p < q < |t.history| && !t.history[q].Taken?
    ensures !Ends(t.history[p], t.history[q].key, t.history[q].token)
  {
    var earlier := t.history[..q];
    assert MayFollow(earlier, t.history[q]);
    assert earlier[p] == t.history[p];
  }

  /** And never after a later claim took its key over. */
  lemma TakenOverClaimNeverEnds(t: Table, c: nat, p: nat, q: nat)
    requires Consistent(t) && c < p < q < |t.history|
    requires t.history[c].Taken? && t.history[p].Taken? && t.history[c].key == t.history[p].key
    ensures !Ends(t.history[q], t.history[c].key, t.history[c].token)
  {
    if Ends(t.history[q], t.history[c].key, t.history[c].token) {
      var earlier := t.history[..q];
      assert MayFollow(earlier, t.history[q]);
      assert earlier[p] == t.history[p];
      LastTakenIsLater(earlier, t.history[q].key, p);
    }
  }

  /** Both, over every run: the fence of the key table. */
  lemma EachClaimEndsOnceByItsOwner(log: seq<Timed>)
    ensures var h := Run(EMPTY_TABLE, log).history;
            && (forall p, q :: 0 <= p < q < |h| && !h[q].Taken? ==> !Ends(h[p], h[q].key, h[q].token))
            && (forall c, p, q :: 0 <= c < p < q < |h| && h[c].Taken? && h[p].Taken? && h[c].key == h[p].key ==>
                  !Ends(h[q], h[c].key, h[c].token))
  {
    EveryRunIsConsistent(log);
    var t := Run(EMPTY_TABLE, log);
    var h := t.history;
    forall p, q | 0 <= p < q < |h| && !h[q].Taken?
      ensures !Ends(h[p], h[q].key, h[q].token)
    {
      ClaimEndsOnce(t, p, q);
    }
    forall c, p, q | 0 <= c < p < q < |h| && h[c].Taken? && h[p].Taken? && h[c].key == h[p].key
      ensures !Ends(h[q], h[c].key, h[c].token)
    {
      TakenOverClaimNeverEnds(t, c, p, q);
    }
  }

  /** A token that is not on the record writes nothing, whether it completes or releases. */
  lemma StaleTokenWritesNothing(log: seq<Timed>, k: Key, token: Token, answer: Answer, now: Time)
    requires var last := LastTaken(Run(EMPTY_TABLE, log).history, k); last.Some? ==> last.value.token != token
    ensures var t := Run(EMPTY_TABLE, log);
            Complete(t, k, token, answer, now) == t && Release(t, k, token) == t
  {
    EveryRunIsConsistent(log);
    assert InStep(Run(EMPTY_TABLE, log), k);
  }

  ghost predicate Before(log: seq<Timed>, deadline: Time) {
    forall i :: 0 <= i < |log| ==> log[i].at < deadline
  }

  /** A completed answer never changes while its record lasts, whatever anybody does. */
  lemma {:induction false} AnswerStaysUntilItExpires(t: Table, k: Key, log: seq<Timed>)
    requires k in t.rows && t.rows[k].phase.Completed? && Before(log, t.rows[k].expiresAt)
    ensures k in Run(t, log).rows && Run(t, log).rows[k] == t.rows[k]
  {
    if log != [] {
      AnswerStaysUntilItExpires(t, k, log[..|log| - 1]);
    }
  }

  /** Every claim that asks and is told in that time gets the answer, or `reused` by its fingerprint. */
  lemma EveryClaimGetsTheAnswer(t: Table, k: Key, before: seq<Timed>, fingerprint: string, asked: Time,
      between: seq<Timed>, told: Time)
    requires k in t.rows && t.rows[k].phase.Completed?
    requires Before(before, t.rows[k].expiresAt) && asked < t.rows[k].expiresAt
    requires Before(between, t.rows[k].expiresAt) && told < t.rows[k].expiresAt
    ensures var atAsking := Run(t, before);
            && !Wins(atAsking, k, asked)
            && Told(Run(atAsking, between), k, fingerprint, asked, told)
               == if fingerprint == t.rows[k].fingerprint then AlreadyAnswered(t.rows[k].phase.answer) else Reused
  {
    AnswerStaysUntilItExpires(t, k, before);
    AnswerStaysUntilItExpires(Run(t, before), k, between);
  }

  /** A claim is only taken over when it was released, expired, or is a horizon old. */
  lemma OneWinnerUntilTheHorizon(log: seq<Timed>, k: Key, fingerprint: string, now: Time)
    ensures var t := Run(EMPTY_TABLE, log);
            var last := LastTaken(t.history, k);
            TryClaim(t, k, fingerprint, now) != t && last.Some? ==>
              || last.value.at <= now - CLAIM_HORIZON_MS
              || k !in t.rows
  {
    EveryRunIsConsistent(log);
    var t := Run(EMPTY_TABLE, log);
    assert InStep(t, k);
  }

  /** A key is free again exactly when it was never taken or its latest claim was released. */
  lemma {:induction false} FreeOnlyWhenReleased(log: seq<Timed>, k: Key)
    ensures var t := Run(EMPTY_TABLE, log);
            k !in t.rows <==> LastTaken(t.history, k).None? || Released(t.history, k)
  {
    EveryRunIsConsistent(log);
    if log != [] {
      FreeOnlyWhenReleased(log[..|log| - 1], k);
      EveryRunIsConsistent(log[..|log| - 1]);
      FreeStep(Run(EMPTY_TABLE, log[..|log| - 1]), log[|log| - 1].at, log[|log| - 1].statement, k);
    }
  }

  ghost predicate Released(history: seq<Mark>, k: Key) {
    LastTaken(history, k).Some? && exists p ::
        0 <= p < |history| && history[p] == LetGo(k, LastTaken(history, k).value.token)
  }

  lemma ReleasedAppend(history: seq<Mark>, m: Mark, k: Key)
    requires m.Taken? && m.key == k ==> forall p :: 0 <= p < |history| ==> history[p].token != m.token
    ensures Released(history + [m], k)
       <==> !(m.Taken? && m.key == k)
            && (Released(history, k)
                || (LastTaken(history, k).Some? && m == LetGo(k, LastTaken(history, k).value.token)))
  {
    var longer := history + [m];
    AppendedMark(history, m, k, m.token);
    assert longer[|history|] == m;
    if Released(history, k) {
      var p :| 0 <= p < |history| && history[p] == LetGo(k, LastTaken(history, k).value.token);
      assert longer[p] == history[p];
    }
    if Released(longer, k) {
      var p :| 0 <= p < |longer| && longer[p] == LetGo(k, LastTaken(longer, k).value.token);
      assert p < |history| ==> longer[p] == history[p];
    }
  }

  lemma FreeStep(t: Table, now: Time, s: Statement, k: Key)
    requires Consistent(t) && (k !in t.rows <==> LastTaken(t.history, k).None? || Released(t.history, k))
    ensures k !in Step(t, now, s).rows
            <==> LastTaken(Step(t, now, s).history, k).None? || Released(Step(t, now, s).history, k)
  {
    var after := Step(t, now, s);
    if |after.history| == |t.history| + 1 {
      var m := after.history[|t.history|];
      assert after.history == t.history + [m];
      assert InStep(t, k);
      AppendedMark(t.history, m, k, m.token);
      ReleasedAppend(t.history, m, k);
    }
  }

  // ----- when a statement does what -----

  /** The latest claim of a key has neither been completed nor released. */
  ghost predicate IsOpen(history: seq<Mark>, k: Key) {
    LastTaken(history, k).Some? && !Ended(history, k, LastTaken(history, k).value.token)
  }

  lemma ReleasedIsEnded(history: seq<Mark>, k: Key)
    requires Released(history, k)
    ensures !IsOpen(history, k)
  {
    var p :| 0 <= p < |history| && history[p] == LetGo(k, LastTaken(history, k).value.token);
    assert Ends(history[p], k, LastTaken(history, k).value.token);
  }

  /**
   Over every run a claim wins if and only if its key was never taken, its latest claim was released,
   is older than the retention, or is still open and older than the horizon. It wins the key alone,
   under a token of its own.
   */
  lemma ClaimWinsExactlyWhen(log: seq<Timed>, k: Key, fingerprint: string, now: Time)
    ensures var t := Run(EMPTY_TABLE, log);
            var after, last := TryClaim(t, k, fingerprint, now), LastTaken(t.history, k);
            if last.None? || Released(t.history, k) || last.value.at + RETENTION_MS <= now
               || (IsOpen(t.history, k) && last.value.at + CLAIM_HORIZON_MS <= now) then
              && Wins(t, k, now) && k in after.rows && after.rows == t.rows[k := after.rows[k]]
              && after.rows[k].fingerprint == fingerprint && after.rows[k].phase.Claimed?
              && after.rows[k].claimedAt == now && after.rows[k].token == t.nextToken < after.nextToken
            else !Wins(t, k, now) && after == t
  {
    EveryRunIsConsistent(log);
    FreeOnlyWhenReleased(log, k);
    assert InStep(Run(EMPTY_TABLE, log), k);
  }

  /**
   An answer is recorded if and only if it comes from the latest claim of the key, still open and
   within the retention; a key is let go if and only if its latest claim, still open, says so.
   */
  lemma EndingsExactlyWhen(log: seq<Timed>, k: Key, token: Token, answer: Answer, now: Time)
    ensures var t := Run(EMPTY_TABLE, log);
            var mine := IsOpen(t.history, k) && LastTaken(t.history, k).value.token == token;
            && (if mine && now < LastTaken(t.history, k).value.at + RETENTION_MS then
                  var after := Complete(t, k, token, answer, now);
                  && k in t.rows && after.rows == t.rows[k := t.rows[k].(phase := Completed(answer, now))]
                else Complete(t, k, token, answer, now) == t)
            && (if mine then k in t.rows && Release(t, k, token).rows == t.rows - {k} else Release(t, k, token) == t)
  {
    EveryRunIsConsistent(log);
    FreeOnlyWhenReleased(log, k);
    var t := Run(EMPTY_TABLE, log);
    assert InStep(t, k);
    if Released(t.history, k) {
      ReleasedIsEnded(t.history, k);
    }
  }

  // ----- the store -----

  class PgRetryStore {
    var rows: map<Key, Record>
    var nextToken: Token
    ghost var history: seq<Mark>

    constructor ()
      ensures State() == EMPTY_TABLE
    {
      rows, nextToken, history := map[], 0, [];
    }

    ghost function State(): Table
      reads this
    {
      Table.Table(rows, nextToken, history)
    }

    method FindRecord(k: Key, now: Time) returns (found: Option<Record>)
      ensures found == Find(State(), k, now)
    {
      found := if k in rows && rows[k].expiresAt > now then Some(rows[k]) else None;
    }

    /** The conditional upsert: the row, or the takeover, or nothing. */
    method Upsert(k: Key, fingerprint: string, now: Time) returns (token: Option<Token>)
      modifies this
      ensures State() == TryClaim(old(State()), k, fingerprint, now)
      ensures token == if Wins(old(State()), k, now) then Some(old(nextToken)) else None
    {
      if k in rows
          && !(rows[k].expiresAt <= now || (rows[k].phase.Claimed? && rows[k].claimedAt <= now - CLAIM_HORIZON_MS)) {
        return None;
      }
      token := Some(nextToken);
      rows := rows[k := Record(fingerprint, Claimed, nextToken, now, now + RETENTION_MS)];
      history := history + [Taken(k, nextToken, now)];
      nextToken := nextToken + 1;
    }

    /** What other requests do between this one's two statements. */
    method Others(log: seq<Timed>)
      modifies this
      ensures State() == Run(old(State()), log)
    {
      ghost var t := State();
      for n := 0 to |log|
        invariant State() == Run(t, log[..n])
      {
        assert log[..n + 1][..n] == log[..n];
        match log[n].statement {
          case ClaimIt(k, fingerprint) => var token := Upsert(k, fingerprint, log[n].at);
          case CompleteIt(k, token, answer) => var done := CompleteClaim(k, token, answer, log[n].at);
          case ReleaseIt(k, token) => var done := ReleaseClaim(k, token);
        }
      }
      assert log[..|log|] == log;
    }

    /** `claim`: win in one statement, or read why not in a second one. */
    method Claim(k: Key, fingerprint: string, asked: Time, between: seq<Timed>, told: Time) returns (outcome: Outcome)
      modifies this
      ensures if Wins(old(State()), k, asked)
              then outcome == Won(old(nextToken)) && State() == TryClaim(old(State()), k, fingerprint, asked)
              else outcome == Told(State(), k, fingerprint, asked, told) && State() == Run(old(State()), between)
    {
      var token := Upsert(k, fingerprint, asked);
      if token.Some? {
        return Won(token.value);
      }
      Others(between);
      var existing := FindRecord(k, told);
      if existing.None? {
        return InFlight(asked);
      }
      if existing.value.fingerprint != fingerprint {
        return Reused;
      }
      if existing.value.phase.Completed? {
        return AlreadyAnswered(existing.value.phase.answer);
      }
      outcome := InFlight(existing.value.claimedAt);
    }

    method CompleteClaim(k: Key, token: Token, answer: Answer, now: Time) returns (done: bool)
      modifies this
      ensures State() == Complete(old(State()), k, token, answer, now)
              && done == MayComplete(old(State()), k, token, now)
    {
      done := k in rows && rows[k].token == token && rows[k].phase.Claimed? && rows[k].expiresAt > now;
      if done {
        rows := rows[k := rows[k].(phase := Completed(answer, now))];
        history := history + [Finished(k, token, answer)];
      }
    }

    method ReleaseClaim(k: Key, token: Token) returns (done: bool)
      modifies this
      ensures State() == Release(old(State()), k, token) && done == MayRelease(old(State()), k, token)
    {
      done := k in rows && rows[k].token == token && rows[k].phase.Claimed?;
      if done {
        rows := rows - {k};
        history := history + [LetGo(k, token)];
      }
    }
  }
}
