/**
 The renewal sweep. At a fixed instant, repeating it brings every live subscription past that
 instant and expires every ended cancelled one, after which it changes nothing.
 */
module SubscriptionSweeps {
  import opened Common
  import opened Calendar
  import opened Positions
  import opened Money
  import opened MoneyRuns
  import opened Subscriptions
  import opened SubscriptionTimelines

  /** Where a subscription's coverage ends. */
  ghost function EndOf(d: Desk, s: SubscriptionId): Time
    requires Timeline(d) && s in d.subscriptions
  {
    assert HasPeriod(d.periods, s);
    LatestExists(d.periods, s);
    d.periods[Latest(d.periods, s).value].endsAt
  }

  /** Where its next period would end. */
  ghost function EndAfter(d: Desk, s: SubscriptionId): Result<Time, InvalidInterval>
    requires Timeline(d) && s in d.subscriptions && d.subscriptions[s].plan in d.plans
  {
    var plan := d.plans[d.subscriptions[s].plan];
    AdvanceInterval(EndOf(d, s), plan.interval, plan.count)
  }

  /** What the sweep has something to do for. */
  ghost predicate Due(d: Desk, s: SubscriptionId, now: Time)
    requires Timeline(d)
  {
    && s in d.subscriptions && d.subscriptions[s].status != Ended
    && EndOf(d, s) <= now
    && (d.subscriptions[s].status == Cancelled || d.subscriptions[s].plan in d.plans)
  }

  /** What one step leaves of another subscription. */
  ghost predicate Untouched(before: Desk, after: Desk, t: SubscriptionId)
    requires Timeline(before) && Timeline(after) && t in before.subscriptions
  {
    t in after.subscriptions && after.subscriptions[t] == before.subscriptions[t] && EndOf(after, t) == EndOf(before, t)
  }

  /** What the sweep does for a subscription that was due: it ends it, or covers it one interval longer. */
  ghost predicate Advanced(before: Desk, after: Desk, s: SubscriptionId)
    requires Timeline(before) && Timeline(after) && s in before.subscriptions
  {
    && s in after.subscriptions
    && after.subscriptions[s].plan == before.subscriptions[s].plan
    && if before.subscriptions[s].status == Cancelled then after.subscriptions[s].status == Ended
       else
         && IsLive(after.subscriptions[s])
         && before.subscriptions[s].plan in before.plans
         && EndAfter(before, s) == Ok(EndOf(after, s))
         && EndOf(after, s) > EndOf(before, s)
  }

  // ----- what a charge does to the rows -----

  ghost predicate RowsButOne(before: Desk, after: Desk, s: SubscriptionId) {
    && after.subscriptions.Keys == before.subscriptions.Keys
    && (forall t :: t in before.subscriptions && t != s ==> after.subscriptions[t] == before.subscriptions[t])
    && (s in before.subscriptions ==>
          && after.subscriptions[s].plan == before.subscriptions[s].plan
          && (IsLive(before.subscriptions[s]) ==> IsLive(after.subscriptions[s]))
          && (!IsLive(before.subscriptions[s]) ==> after.subscriptions[s] == before.subscriptions[s]))
  }

  lemma SettleTouchesOneRow(d: Desk, id: PeriodId, hold: Option<HoldId>, now: Time)
    requires id in d.periods && d.periods[id].subscription in d.subscriptions
    ensures RowsButOne(d, SettlePeriod(d, id, hold, now).0, d.periods[id].subscription)
  {
  }

  lemma FinishTouchesOneRow(d: Desk, id: PeriodId, hold: HoldId, now: Time)
    requires id in d.periods && d.periods[id].subscription in d.subscriptions
    ensures RowsButOne(d, FinishCharge(d, id, hold, now).0, d.periods[id].subscription)
  {
    SettleTouchesOneRow(d, id, Some(hold), now);
  }

  lemma ChargeTouchesOneRow(d: Desk, id: PeriodId, now: Time, crash: bool)
    requires id in d.periods && d.periods[id].subscription in d.subscriptions
    ensures RowsButOne(d, ChargePeriod(d, id, now, crash).0, d.periods[id].subscription)
  {
    var p := d.periods[id];
    SettleTouchesOneRow(d, id, None, now);
    var staged := StageAuthorize(d.till.books, now, d.till.nextId, d.subscriptions[p.subscription].wallet,
                                 p.amount, PeriodReference(id), None);
    match Perform(d.till.books, staged)
    case Err(e) =>
    case Ok(held) =>
      FinishTouchesOneRow(d.(till := Step(d.till, now, ChargeHold(d, id))), id, held.0, now);
  }

  // ----- where coverage ends -----

  lemma UnmovedKeepsEnd(before: Desk, after: Desk, t: SubscriptionId)
    requires Timeline(before) && Timeline(after) && Unmoved(before, after) && t in before.subscriptions
    ensures EndOf(after, t) == EndOf(before, t)
  {
    assert HasPeriod(before.periods, t);
    LatestExists(before.periods, t);
    var latest := Latest(before.periods, t).value;
    assert IsLatest(after.periods, t, latest);
    LatestIs(after.periods, t, latest);
  }

  lemma InsertMovesOneEnd(d: Desk, s: SubscriptionId, endsAt: Time, t: SubscriptionId)
    requires Timeline(d) && s in d.subscriptions && d.subscriptions[s].plan in d.plans && t in d.subscriptions
    requires Latest(d.periods, s).Some? && Timeline(WithNext(d, s, Latest(d.periods, s).value, endsAt))
    ensures EndOf(WithNext(d, s, Latest(d.periods, s).value, endsAt), t) == if t == s then endsAt else EndOf(d, t)
  {
    assert HasPeriod(d.periods, t) && HasPeriod(d.periods, s);
    LatestExists(d.periods, t);
    LatestExists(d.periods, s);
    var after := WithNext(d, s, Latest(d.periods, s).value, endsAt);
    var latest := if t == s then d.nextId else Latest(d.periods, t).value;
    assert IsLatest(after.periods, t, latest);
    LatestIs(after.periods, t, latest);
  }

  // ----- one subscription -----

  /** A renewal with nothing due changes nothing. */
  lemma NothingDueIsIdle(d: Desk, s: SubscriptionId, now: Time)
    requires Timeline(d) && !Due(d, s, now)
    ensures RenewOne(d, s, now, false).0 == d && RenewOne(d, s, now, false).1 == Nothing
  {
    if s in d.subscriptions {
      assert HasPeriod(d.periods, s);
      LatestExists(d.periods, s);
    }
  }

  lemma ExpiryAdvances(d: Desk, s: SubscriptionId, now: Time)
    requires Timeline(d) && Due(d, s, now) && d.subscriptions[s].status == Cancelled
    ensures var after := RenewOne(d, s, now, false);
            && after.1 == Nothing && Timeline(after.0) && Advanced(d, after.0, s) && after.0.plans == d.plans
            && after.0.subscriptions.Keys == d.subscriptions.Keys
            && (forall t :: t in d.subscriptions && t != s ==> Untouched(d, after.0, t))
  {
    assert HasPeriod(d.periods, s);
    LatestExists(d.periods, s);
    ExpiryKeepsTimeline(d, s, now);
    var after := RenewOne(d, s, now, false).0;
    forall t | t in d.subscriptions
      ensures EndOf(after, t) == EndOf(d, t)
    {
      UnmovedKeepsEnd(d, after, t);
    }
  }

  /** A renewal within the range of dates begins the next period, and its charge moves nothing else. */
  lemma RenewalBegins(d: Desk, s: SubscriptionId, now: Time) returns (begun: Desk, endsAt: Time)
    requires Timeline(d) && DueForRenewal(d, s, now) && NextEnd(d, s).Ok?
    ensures var after := RenewOne(d, s, now, false).0;
            && NextEnd(d, s) == Ok(endsAt) && begun == WithNext(d, s, Latest(d.periods, s).value, endsAt)
            && Timeline(begun) && Timeline(after) && Unmoved(begun, after) && RowsButOne(begun, after, s)
  {
    endsAt := NextEnd(d, s).value;
    begun := WithNext(d, s, Latest(d.periods, s).value, endsAt);
    RenewalInserts(d, s, now, false);
    ChargeMovesNothing(begun, d.nextId, now, false);
    ChargeKeepsTimeline(begun, d.nextId, now, false);
    ChargeTouchesOneRow(begun, d.nextId, now, false);
  }

  lemma RenewalMovesOneEnd(d: Desk, s: SubscriptionId, now: Time, t: SubscriptionId)
    requires Timeline(d) && DueForRenewal(d, s, now) && NextEnd(d, s).Ok? && t in d.subscriptions
    ensures var after := RenewOne(d, s, now, false).0;
            && Timeline(after) && t in after.subscriptions
            && EndOf(after, t) == if t == s then NextEnd(d, s).value else EndOf(d, t)
  {
    var begun, endsAt := RenewalBegins(d, s, now);
    InsertMovesOneEnd(d, s, endsAt, t);
    UnmovedKeepsEnd(begun, RenewOne(d, s, now, false).0, t);
  }

  lemma RenewalKeepsRows(d: Desk, s: SubscriptionId, now: Time)
    requires Timeline(d) && DueForRenewal(d, s, now) && NextEnd(d, s).Ok?
    ensures var after := RenewOne(d, s, now, false).0;
            Timeline(after) && RowsButOne(d, after, s) && after.plans == d.plans
  {
    var begun, endsAt := RenewalBegins(d, s, now);
  }

  lemma NextEndIsEndAfter(d: Desk, s: SubscriptionId)
    requires Timeline(d) && s in d.subscriptions && d.subscriptions[s].plan in d.plans && Latest(d.periods, s).Some?
    ensures NextEnd(d, s) == EndAfter(d, s)
    ensures NextEnd(d, s).Ok? ==> NextEnd(d, s).value > EndOf(d, s)
  {
    var plan := d.plans[d.subscriptions[s].plan];
    if NextEnd(d, s).Ok? {
      EndIsAfterStart(EndOf(d, s), plan.interval, plan.count);
    }
  }

  /** A renewal that stays within the range of dates covers its subscription one interval longer, paid or not. */
  lemma RenewalAdvances(d: Desk, s: SubscriptionId, now: Time)
    requires Timeline(d) && DueForRenewal(d, s, now) && NextEnd(d, s).Ok?
    ensures var after := RenewOne(d, s, now, false).0;
            && Timeline(after) && Advanced(d, after, s) && after.plans == d.plans
            && after.subscriptions.Keys == d.subscriptions.Keys
            && (forall t :: t in d.subscriptions && t != s ==> Untouched(d, after, t))
  {
    RenewalKeepsRows(d, s, now);
    NextEndIsEndAfter(d, s);
    forall t | t in d.subscriptions
      ensures EndOf(RenewOne(d, s, now, false).0, t) == if t == s then NextEnd(d, s).value else EndOf(d, t)
    {
      RenewalMovesOneEnd(d, s, now, t);
    }
  }

  lemma DueIsDueForRenewal(d: Desk, s: SubscriptionId, now: Time)
    requires Timeline(d) && Due(d, s, now) && d.subscriptions[s].status != Cancelled
    ensures DueForRenewal(d, s, now)
  {
    assert HasPeriod(d.periods, s);
    LatestExists(d.periods, s);
  }

  /** One subscription of a sweep that went through. */
  lemma OneOfTheSweep(d: Desk, s: SubscriptionId, now: Time)
    requires Timeline(d) && s in d.subscriptions && RenewOne(d, s, now, false).1 != Threw
    ensures var after := RenewOne(d, s, now, false).0;
            && Timeline(after) && after.plans == d.plans && after.subscriptions.Keys == d.subscriptions.Keys
            && (if Due(d, s, now) then Advanced(d, after, s) else Untouched(d, after, s))
            && (forall t :: t in d.subscriptions && t != s ==> Untouched(d, after, t))
  {
    if !Due(d, s, now) {
      NothingDueIsIdle(d, s, now);
    } else if d.subscriptions[s].status == Cancelled {
      ExpiryAdvances(d, s, now);
    } else {
      DueIsDueForRenewal(d, s, now);
      RenewalInserts(d, s, now, false);
      RenewalAdvances(d, s, now);
    }
  }

  // ----- the sweep -----

  /** Candidates in the order of their creation; an exception ends the sweep where it happened. */
  ghost function SweepOver(d: Desk, order: seq<SubscriptionId>, now: Time): (Desk, bool) {
    if order == [] then (d, false)
    else
      var (mid, threw) := SweepOver(d, order[..|order| - 1], now);
      if threw then (mid, true)
      else
        var (after, outcome) := RenewOne(mid, order[|order| - 1], now, false);
        (after, outcome == Threw)
  }

  function Candidates(d: Desk): seq<SubscriptionId> {
    InPositionOrder(map s | s in d.subscriptions :: d.subscriptions[s].createdAt,
                    set s | s in d.subscriptions && d.subscriptions[s].status != Ended)
  }

  ghost function Sweep(d: Desk, now: Time): (Desk, bool) {
    SweepOver(d, Candidates(d), now)
  }

  predicate Distinct(order: seq<SubscriptionId>) {
    forall a, b :: 0 <= a < b < |order| ==> order[a] != order[b]
  }

  /** How a sweep over a list leaves one subscription. */
  ghost predicate SweptOne(before: Desk, after: Desk, order: seq<SubscriptionId>, now: Time, s: SubscriptionId)
    requires Timeline(before) && Timeline(after) && s in before.subscriptions
  {
    if s in order && Due(before, s, now) then Advanced(before, after, s) else Untouched(before, after, s)
  }

  ghost predicate SweptAll(before: Desk, after: Desk, order: seq<SubscriptionId>, now: Time)
    requires Timeline(before) && Timeline(after)
  {
    && after.plans == before.plans && after.subscriptions.Keys == before.subscriptions.Keys
    && forall s :: s in before.subscriptions ==> SweptOne(before, after, order, now, s)
  }

  /** Moving on from the last row swept: a row that was due there was due at the start. */
  lemma SweptThenSwept(before: Desk, mid: Desk, after: Desk, order: seq<SubscriptionId>, last: SubscriptionId,
      now: Time, s: SubscriptionId)
    requires Timeline(before) && Timeline(mid) && Timeline(after) && s in before.subscriptions
    requires mid.plans == before.plans && SweptOne(before, mid, order, now, s) && last !in order
    requires s == last ==> if Due(mid, s, now) then Advanced(mid, after, s) else Untouched(mid, after, s)
    requires s != last ==> Untouched(mid, after, s)
    ensures SweptOne(before, after, order + [last], now, s)
  {
    assert s in order + [last] <==> s in order || s == last;
  }

  lemma OneMoreSwept(before: Desk, mid: Desk, order: seq<SubscriptionId>, last: SubscriptionId, now: Time)
    requires Timeline(before) && Timeline(mid) && SweptAll(before, mid, order, now)
    requires last in before.subscriptions && last !in order && RenewOne(mid, last, now, false).1 != Threw
    ensures Timeline(RenewOne(mid, last, now, false).0)
    ensures SweptAll(before, RenewOne(mid, last, now, false).0, order + [last], now)
  {
    OneOfTheSweep(mid, last, now);
    var after := RenewOne(mid, last, now, false).0;
    forall s | s in before.subscriptions
      ensures SweptOne(before, after, order + [last], now, s)
    {
      SweptThenSwept(before, mid, after, order, last, now, s);
    }
  }

  lemma {:induction false} SweepOverAdvancesAll(d: Desk, order: seq<SubscriptionId>, now: Time)
    requires Timeline(d) && Distinct(order) && forall s :: s in order ==> s in d.subscriptions
    requires !SweepOver(d, order, now).1
    ensures Timeline(SweepOver(d, order, now).0) && SweptAll(d, SweepOver(d, order, now).0, order, now)
  {
    if order != [] {
      var shorter, last := order[..|order| - 1], order[|order| - 1];
      SweepOverAdvancesAll(d, shorter, now);
      assert last in order && last !in shorter;
      OneMoreSwept(d, SweepOver(d, shorter, now).0, shorter, last, now);
      assert shorter + [last] == order;
    }
  }

  lemma CandidatesAreOpen(d: Desk)
    ensures Distinct(Candidates(d))
    ensures forall s :: s in Candidates(d) <==> s in d.subscriptions && d.subscriptions[s].status != Ended
  {
    PositionOrderIsOrdered(map s | s in d.subscriptions :: d.subscriptions[s].createdAt,
                           set s | s in d.subscriptions && d.subscriptions[s].status != Ended);
  }

  // ----- the fixpoint -----

  /** How far behind `now` a subscription is; nothing is left to do at 0. */
  ghost function Behind(d: Desk, s: SubscriptionId, now: Time): nat
    requires Timeline(d)
  {
    if Due(d, s, now) then now - EndOf(d, s) + 1 else 0
  }

  ghost predicate AllWithin(d: Desk, now: Time, n: nat)
    requires Timeline(d)
  {
    forall s :: s in d.subscriptions ==> Behind(d, s, now) <= n
  }

  /** Every live subscription with a plan is covered past `now`, and no ended cancelled one is left. */
  ghost predicate CaughtUp(d: Desk, now: Time)
    requires Timeline(d)
  {
    forall s :: s in d.subscriptions && d.subscriptions[s].status != Ended
                && (d.subscriptions[s].status == Cancelled || d.subscriptions[s].plan in d.plans)
      ==> EndOf(d, s) > now
  }

  /** Each sweep that goes through brings whoever is furthest behind closer. */
  lemma SweepComesCloser(d: Desk, now: Time, n: nat)
    requires Timeline(d) && AllWithin(d, now, n) && !Sweep(d, now).1
    ensures Timeline(Sweep(d, now).0) && AllWithin(Sweep(d, now).0, now, if n == 0 then 0 else n - 1)
  {
    CandidatesAreOpen(d);
    SweepOverAdvancesAll(d, Candidates(d), now);
    var after := Sweep(d, now).0;
    forall s | s in after.subscriptions
      ensures Behind(after, s, now) <= if n == 0 then 0 else n - 1
    {
      assert SweptOne(d, after, Candidates(d), now, s);
      assert Behind(d, s, now) <= n;
    }
  }

  lemma {:induction false} IdleSweep(d: Desk, order: seq<SubscriptionId>, now: Time)
    requires Timeline(d) && forall s :: !Due(d, s, now)
    ensures SweepOver(d, order, now) == (d, false)
  {
    if order != [] {
      IdleSweep(d, order[..|order| - 1], now);
      NothingDueIsIdle(d, order[|order| - 1], now);
    }
  }

  /** Once caught up, a sweep at the same instant changes nothing at all. */
  lemma CaughtUpIsAFixpoint(d: Desk, now: Time)
    requires Timeline(d) && CaughtUp(d, now)
    ensures Sweep(d, now) == (d, false)
  {
    forall s
      ensures !Due(d, s, now)
    {
    }
    IdleSweep(d, Candidates(d), now);
  }

  ghost function Sweeps(d: Desk, now: Time, k: nat): (Desk, bool) {
    if k == 0 then (d, false)
    else
      var (mid, threw) := Sweeps(d, now, k - 1);
      if threw then (mid, true) else Sweep(mid, now)
  }

  function Minus(n: nat, k: nat): nat {
    if k <= n then n - k else 0
  }

  ghost predicate Close(d: Desk, now: Time, n: nat) {
    Timeline(d) && AllWithin(d, now, n)
  }

  /** What a sweep makes of a desk, unless it threw. */
  ghost predicate ClosesIn(after: (Desk, bool), now: Time, n: nat) {
    !after.1 ==> Close(after.0, now, n)
  }

  lemma CloserStill(d: Desk, now: Time, n: nat)
    requires Close(d, now, n)
    ensures ClosesIn(Sweep(d, now), now, Minus(n, 1))
  {
    if !Sweep(d, now).1 {
      SweepComesCloser(d, now, n);
    }
  }

  /** One more sweep, from wherever the earlier ones left things. */
  lemma OneMoreSweep(d: Desk, now: Time, k: nat, earlier: (Desk, bool), n: nat)
    requires k > 0 && Sweeps(d, now, k - 1) == earlier && ClosesIn(earlier, now, n)
    ensures ClosesIn(Sweeps(d, now, k), now, Minus(n, 1))
  {
    if !earlier.1 {
      CloserStill(earlier.0, now, n);
    }
  }

  lemma {:induction false} SweepsComeCloser(d: Desk, now: Time, k: nat, n: nat)
    requires Close(d, now, n)
    ensures ClosesIn(Sweeps(d, now, k), now, Minus(n, k))
  {
    if k > 0 {
      SweepsComeCloser(d, now, k - 1, n);
      OneMoreSweep(d, now, k, Sweeps(d, now, k - 1), Minus(n, k - 1));
    }
  }

  /** Some number of milliseconds bounds how far behind everybody is. */
  lemma {:induction false} SomeBound(d: Desk, now: Time, ids: set<SubscriptionId>) returns (n: nat)
    requires Timeline(d) && ids <= d.subscriptions.Keys
    ensures forall s :: s in ids ==> Behind(d, s, now) <= n
    decreases |ids|
  {
    n := 0;
    if ids != {} {
      var s :| s in ids;
      n := SomeBound(d, now, ids - {s});
      if Behind(d, s, now) > n {
        n := Behind(d, s, now);
      }
    }
  }

  /**
   Repeating the sweep at one instant reaches a fixpoint: from any reachable desk there is a
   number of sweeps after which, unless one of them threw, everybody is caught up and a further
   sweep changes nothing.
   */
  lemma SweepingReachesAFixpoint(log: seq<Subscriptions.Timed>, now: Time) returns (n: nat)
    ensures var d := RunDesk(log);
            forall k :: k >= n && !Sweeps(d, now, k).1 ==>
              && Timeline(Sweeps(d, now, k).0)
              && CaughtUp(Sweeps(d, now, k).0, now)
              && Sweep(Sweeps(d, now, k).0, now) == (Sweeps(d, now, k).0, false)
  {
    var d := RunDesk(log);
    EveryRunIsContiguous(log);
    n := SomeBound(d, now, d.subscriptions.Keys);
    forall k | k >= n && !Sweeps(d, now, k).1
      ensures Timeline(Sweeps(d, now, k).0) && CaughtUp(Sweeps(d, now, k).0, now)
      ensures Sweep(Sweeps(d, now, k).0, now) == (Sweeps(d, now, k).0, false)
    {
      SweepsComeCloser(d, now, k, n);
      var after := Sweeps(d, now, k).0;
      forall s | s in after.subscriptions
        ensures !Due(after, s, now)
      {
        assert Behind(after, s, now) <= 0;
      }
      CaughtUpIsAFixpoint(after, now);
    }
  }
}
