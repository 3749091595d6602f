/**
 Which sweeps go through. A sweep throws exactly where the next end of some renewal that is due
 leaves the range of dates, so whether sweeping ever catches up can be read off the desk before the
 first sweep. One renewal that cannot be made starves every later candidate of every sweep.
 */
module SubscriptionProgress {
  import opened Common
  import opened Calendar
  import MoneyRuns
  import opened Positions
  import opened Subscriptions
  import opened SubscriptionTimelines
  import opened SubscriptionSweeps
  import opened SubscriptionRefusals

  /** A renewal that is due and cannot be made. */
  ghost predicate Stuck(d: Desk, s: SubscriptionId, now: Time)
    requires Timeline(d)
  {
    Due(d, s, now) && d.subscriptions[s].status != Cancelled && EndAfter(d, s).Err?
  }

  // ----- when a sweep throws -----

  lemma RenewalThrowsWhenStuck(d: Desk, s: SubscriptionId, now: Time)
    requires Orderly(d) && s in d.subscriptions
    ensures RenewOne(d, s, now, false).1 == Threw <==> Stuck(d, s, now)
    ensures RenewOne(d, s, now, false).1 == Threw ==> RenewOne(d, s, now, false).0 == d
  {
    OrderlyRenewalThrowsExactlyWhen(d, s, now, false);
    if Due(d, s, now) && d.subscriptions[s].status != Cancelled {
      DueIsDueForRenewal(d, s, now);
      NextEndIsEndAfter(d, s);
      RenewalInserts(d, s, now, false);
    } else {
      NotDueIsNotForRenewal(d, s, now);
    }
  }

  lemma NotDueIsNotForRenewal(d: Desk, s: SubscriptionId, now: Time)
    requires Timeline(d) && s in d.subscriptions && (!Due(d, s, now) || d.subscriptions[s].status == Cancelled)
    ensures !DueForRenewal(d, s, now)
  {
    assert HasPeriod(d.periods, s);
    LatestExists(d.periods, s);
  }

  lemma {:induction false} SweepKeepsOrderly(d: Desk, order: seq<SubscriptionId>, now: Time)
    requires Orderly(d)
    ensures Orderly(SweepOver(d, order, now).0)
  {
    if order != [] {
      SweepKeepsOrderly(d, order[..|order| - 1], now);
      RenewKeepsTidy(SweepOver(d, order[..|order| - 1], now).0, order[|order| - 1], now, false);
    }
  }

  /** A candidate later in the list is as stuck as it was at the start. */
  lemma StuckStays(d: Desk, mid: Desk, order: seq<SubscriptionId>, last: SubscriptionId, now: Time)
    requires Timeline(d) && Timeline(mid) && SweptAll(d, mid, order, now) && last in d.subscriptions && last !in order
    ensures last in mid.subscriptions && (Stuck(mid, last, now) <==> Stuck(d, last, now))
  {
    assert SweptOne(d, mid, order, now, last);
  }

  ghost predicate SomeStuck(d: Desk, order: seq<SubscriptionId>, now: Time)
    requires Timeline(d)
  {
    exists s :: s in order && Stuck(d, s, now)
  }

  lemma {:induction false} SweepOverThrowsExactlyWhen(d: Desk, order: seq<SubscriptionId>, now: Time)
    requires Orderly(d) && Distinct(order) && forall s :: s in order ==> s in d.subscriptions
    ensures SweepOver(d, order, now).1 <==> SomeStuck(d, order, now)
  {
    if order != [] {
      var shorter, last := order[..|order| - 1], order[|order| - 1];
      assert order == shorter + [last] && last in order && last !in shorter;
      SweepOverThrowsExactlyWhen(d, shorter, now);
      MoreStuck(d, shorter, last, now);
      if !SweepOver(d, shorter, now).1 {
        var mid := SweepOver(d, shorter, now).0;
        SweepOverAdvancesAll(d, shorter, now);
        SweepKeepsOrderly(d, shorter, now);
        StuckStays(d, mid, shorter, last, now);
        RenewalThrowsWhenStuck(mid, last, now);
      }
    }
  }

  lemma MoreStuck(d: Desk, order: seq<SubscriptionId>, last: SubscriptionId, now: Time)
    requires Timeline(d)
    ensures SomeStuck(d, order + [last], now) <==> SomeStuck(d, order, now) || Stuck(d, last, now)
  {
    assert forall s :: s in order + [last] <==> s in order || s == last;
  }

  /** A sweep throws exactly when some renewal that is due leaves the range of dates. */
  lemma SweepThrowsExactlyWhen(d: Desk, now: Time)
    requires Orderly(d)
    ensures Sweep(d, now).1 <==> exists s :: Stuck(d, s, now)
  {
    CandidatesAreOpen(d);
    SweepOverThrowsExactlyWhen(d, Candidates(d), now);
    forall s | Stuck(d, s, now)
      ensures s in Candidates(d)
    {
    }
  }

  // ----- when sweeping goes through for good -----

  /** Renewals from one end on stay within the range of dates until `now` is covered. */
  ghost predicate Reaches(from: Time, interval: Interval, count: int, now: Time)
    decreases if from <= now then now - from + 1 else 0
  {
    from > now
    || (AdvanceInterval(from, interval, count).Ok?
        && (EndIsAfterStart(from, interval, count);
            Reaches(AdvanceInterval(from, interval, count).value, interval, count, now)))
  }

  /** Every live subscription with a plan can be renewed past `now`. */
  ghost predicate AllReach(d: Desk, now: Time)
    requires Timeline(d)
  {
    forall s :: s in d.subscriptions && IsLive(d.subscriptions[s]) && d.subscriptions[s].plan in d.plans
        ==> OneReaches(d, s, now)
  }

  ghost predicate OneReaches(d: Desk, s: SubscriptionId, now: Time)
    requires Timeline(d) && s in d.subscriptions && d.subscriptions[s].plan in d.plans
  {
    var plan := d.plans[d.subscriptions[s].plan];
    Reaches(EndOf(d, s), plan.interval, plan.count, now)
  }

  lemma ReachingGoesThrough(d: Desk, now: Time)
    requires Orderly(d) && AllReach(d, now)
    ensures !Sweep(d, now).1
  {
    SweepThrowsExactlyWhen(d, now);
    forall s
      ensures !Stuck(d, s, now)
    {
      ReachingIsNotStuck(d, s, now);
    }
  }

  lemma ReachingIsNotStuck(d: Desk, s: SubscriptionId, now: Time)
    requires Orderly(d) && AllReach(d, now)
    ensures !Stuck(d, s, now)
  {
    if Due(d, s, now) && d.subscriptions[s].status != Cancelled {
      assert OneReaches(d, s, now);
    }
  }

  lemma SweptReaches(d: Desk, after: Desk, order: seq<SubscriptionId>, now: Time, s: SubscriptionId)
    requires Timeline(d) && Timeline(after) && after.plans == d.plans && s in d.subscriptions
    requires SweptOne(d, after, order, now, s) && (s in order || !Due(d, s, now))
    ensures s in after.subscriptions && after.subscriptions[s].plan == d.subscriptions[s].plan
    ensures IsLive(after.subscriptions[s]) <==> IsLive(d.subscriptions[s])
    ensures IsLive(d.subscriptions[s]) && d.subscriptions[s].plan in d.plans ==>
              (OneReaches(after, s, now) <==> OneReaches(d, s, now))
  {
  }

  /** A sweep that goes through neither makes a subscription reachable nor costs it that. */
  lemma SweepKeepsReach(d: Desk, now: Time)
    requires Orderly(d) && !Sweep(d, now).1
    ensures Orderly(Sweep(d, now).0)
    ensures AllReach(Sweep(d, now).0, now) <==> AllReach(d, now)
  {
    CandidatesAreOpen(d);
    SweepKeepsOrderly(d, Candidates(d), now);
    SweepOverAdvancesAll(d, Candidates(d), now);
    var after := Sweep(d, now).0;
    forall s | s in d.subscriptions
      ensures s in after.subscriptions && after.subscriptions[s].plan == d.subscriptions[s].plan
      ensures IsLive(after.subscriptions[s]) <==> IsLive(d.subscriptions[s])
      ensures IsLive(d.subscriptions[s]) && d.subscriptions[s].plan in d.plans ==>
                (OneReaches(after, s, now) <==> OneReaches(d, s, now))
    {
      assert SweptOne(d, after, Candidates(d), now, s);
      SweptReaches(d, after, Candidates(d), now, s);
    }
  }

  /** What sweeping has left, unless it threw, and whether everybody can still be renewed past `now`. */
  ghost predicate KeptReach(outcome: (Desk, bool), now: Time, reach: bool) {
    !outcome.1 ==> Orderly(outcome.0) && (AllReach(outcome.0, now) <==> reach)
  }

  lemma OneMoreKeepsReach(d: Desk, now: Time, k: nat, earlier: (Desk, bool), reach: bool, outcome: (Desk, bool))
    requires k > 0 && Sweeps(d, now, k - 1) == earlier && Sweeps(d, now, k) == outcome && KeptReach(earlier, now, reach)
    ensures KeptReach(outcome, now, reach)
  {
    if !outcome.1 {
      SweepKeepsReach(earlier.0, now);
    }
  }

  lemma NoSweepKeepsReach(d: Desk, now: Time, outcome: (Desk, bool), reach: bool)
    requires Orderly(d) && reach == AllReach(d, now) && outcome == (d, false)
    ensures KeptReach(outcome, now, reach)
  {
  }

  /** As long as no sweep has thrown, reaching `now` is as possible as it was at first. */
  lemma {:induction false} SweepsKeepReach(d: Desk, now: Time, k: nat, outcome: (Desk, bool), reach: bool)
    requires Orderly(d) && reach == AllReach(d, now) && Sweeps(d, now, k) == outcome
    ensures KeptReach(outcome, now, reach)
  {
    if k == 0 {
      NoSweepKeepsReach(d, now, outcome, reach);
    } else {
      SweepsKeepReach(d, now, k - 1, Sweeps(d, now, k - 1), reach);
      OneMoreKeepsReach(d, now, k, Sweeps(d, now, k - 1), reach, outcome);
    }
  }

  /** What a sweep left, if it went through, and that everybody can still be renewed past `now`. */
  ghost predicate GoesOn(outcome: (Desk, bool), now: Time) {
    !outcome.1 && Orderly(outcome.0) && AllReach(outcome.0, now)
  }

  lemma SweepGoesOn(d: Desk, now: Time)
    requires GoesOn((d, false), now)
    ensures GoesOn(Sweep(d, now), now)
  {
    ReachingGoesThrough(d, now);
    SweepKeepsReach(d, now);
  }

  /** One more sweep, from wherever the earlier ones left things. */
  lemma OneMoreGoesOn(d: Desk, now: Time, k: nat, earlier: (Desk, bool), outcome: (Desk, bool))
    requires k > 0 && Sweeps(d, now, k - 1) == earlier && Sweeps(d, now, k) == outcome && GoesOn(earlier, now)
    ensures GoesOn(outcome, now)
  {
    SweepGoesOn(earlier.0, now);
  }

  lemma {:induction false} ReachingSweepsGoThrough(d: Desk, now: Time, k: nat, outcome: (Desk, bool))
    requires Orderly(d) && AllReach(d, now) && Sweeps(d, now, k) == outcome
    ensures GoesOn(outcome, now)
  {
    if k > 0 {
      ReachingSweepsGoThrough(d, now, k - 1, Sweeps(d, now, k - 1));
      OneMoreGoesOn(d, now, k, Sweeps(d, now, k - 1), outcome);
    }
  }

  lemma CaughtUpReaches(d: Desk, now: Time)
    requires Timeline(d) && CaughtUp(d, now)
    ensures AllReach(d, now)
  {
  }

  /** After some number of sweeps nothing is left to do at this instant. */
  ghost predicate Done(outcome: (Desk, bool), now: Time) {
    && !outcome.1
    && Timeline(outcome.0)
    && CaughtUp(outcome.0, now)
    && Sweep(outcome.0, now) == outcome
  }

  lemma DoneMeansReachable(d: Desk, now: Time, k: nat, outcome: (Desk, bool))
    requires Orderly(d) && Sweeps(d, now, k) == outcome && Done(outcome, now)
    ensures AllReach(d, now)
  {
    SweepsKeepReach(d, now, k, outcome, AllReach(d, now));
    CaughtUpReaches(outcome.0, now);
  }

  lemma FixpointIsDone(log: seq<Subscriptions.Timed>, now: Time) returns (n: nat)
    ensures forall k :: k >= n ==> Sweeps(RunDesk(log), now, k).1 || Done(Sweeps(RunDesk(log), now, k), now)
  {
    n := SweepingReachesAFixpoint(log, now);
  }

  /**
   Sweeping at one instant goes through for ever exactly when, at the start, every live subscription
   with a plan can be renewed past that instant; and then some number of sweeps leaves everybody
   covered past it and every ended cancelled subscription expired, after which a further sweep
   changes nothing. Otherwise some sweep throws, and so do all that follow.
   */
  lemma SweepingCatchesUpExactlyWhen(log: seq<Subscriptions.Timed>, now: Time) returns (n: nat)
    requires LeavesReferences(log)
    ensures Orderly(RunDesk(log))
    ensures if AllReach(RunDesk(log), now)
            then (forall k :: !Sweeps(RunDesk(log), now, k).1)
                && (forall k :: k >= n ==> Done(Sweeps(RunDesk(log), now, k), now))
            else forall k :: k >= n ==> Sweeps(RunDesk(log), now, k).1
  {
    EveryRunIsOrderly(log);
    n := FixpointIsDone(log, now);
    CatchesUpExactlyWhen(RunDesk(log), now, n);
  }

  lemma CatchesUpExactlyWhen(d: Desk, now: Time, n: nat)
    requires Orderly(d)
    requires forall k :: k >= n ==> Sweeps(d, now, k).1 || Done(Sweeps(d, now, k), now)
    ensures if AllReach(d, now)
            then (forall k :: !Sweeps(d, now, k).1) && (forall k :: k >= n ==> Done(Sweeps(d, now, k), now))
            else forall k :: k >= n ==> Sweeps(d, now, k).1
  {
    if AllReach(d, now) {
      forall k: nat
        ensures !Sweeps(d, now, k).1
      {
        ReachingSweepsGoThrough(d, now, k, Sweeps(d, now, k));
      }
    } else {
      forall k | k >= n
        ensures Sweeps(d, now, k).1
      {
        if Done(Sweeps(d, now, k), now) {
          DoneMeansReachable(d, now, k, Sweeps(d, now, k));
        }
      }
    }
  }

  // ----- what one stuck renewal costs the others -----

  /** A sweep that throws leaves what the candidates before the one it threw at made of the desk. */
  lemma {:induction false} ThrownIsAPrefix(d: Desk, order: seq<SubscriptionId>, now: Time) returns (m: nat)
    requires Orderly(d) && Distinct(order) && forall s :: s in order ==> s in d.subscriptions
    requires SweepOver(d, order, now).1
    ensures m < |order| && !SweepOver(d, order[..m], now).1
    ensures SweepOver(d, order, now).0 == SweepOver(d, order[..m], now).0
  {
    var shorter, last := order[..|order| - 1], order[|order| - 1];
    assert last in order && forall s :: s in shorter ==> s in order;
    if SweepOver(d, shorter, now).1 {
      m := ThrownIsAPrefix(d, shorter, now);
      assert shorter[..m] == order[..m];
    } else {
      m := |order| - 1;
      ThrownAtTheLast(d, shorter, last, now, SweepOver(d, shorter, now).0);
    }
  }

  lemma ThrownAtTheLast(d: Desk, shorter: seq<SubscriptionId>, last: SubscriptionId, now: Time, mid: Desk)
    requires Orderly(d) && Distinct(shorter) && (forall s :: s in shorter ==> s in d.subscriptions)
    requires last in d.subscriptions && SweepOver(d, shorter, now) == (mid, false)
    ensures RenewOne(mid, last, now, false).1 == Threw ==> RenewOne(mid, last, now, false).0 == mid
  {
    SweepOverAdvancesAll(d, shorter, now);
    SweepKeepsOrderly(d, shorter, now);
    RenewalThrowsWhenStuck(mid, last, now);
  }

  function CreatedAt(d: Desk): map<SubscriptionId, Time> {
    map s | s in d.subscriptions :: d.subscriptions[s].createdAt
  }

  /** Whether a sweep comes to one subscription before it comes to another. */
  predicate SweptBefore(d: Desk, s: SubscriptionId, t: SubscriptionId)
    requires s in d.subscriptions && t in d.subscriptions
  {
    Positions.Precedes(CreatedAt(d), s, t)
  }

  lemma StuckIsNotBefore(d: Desk, order: seq<SubscriptionId>, m: nat, now: Time, s: SubscriptionId)
    requires Orderly(d) && Distinct(order) && m <= |order| && forall r :: r in order ==> r in d.subscriptions
    requires Stuck(d, s, now) && !SweepOver(d, order[..m], now).1
    ensures s !in order[..m]
  {
    SweepOverThrowsExactlyWhen(d, order[..m], now);
  }

  /** What comes after a candidate that was not reached was not reached either. */
  lemma LaterIsNotBefore(d: Desk, order: seq<SubscriptionId>, m: nat, s: SubscriptionId, t: SubscriptionId)
    requires s in d.subscriptions && t in d.subscriptions && (t == s || SweptBefore(d, s, t))
    requires (forall r :: r in order ==> r in d.subscriptions) && Ascending(CreatedAt(d), order)
    requires m <= |order| && s in order && s !in order[..m]
    ensures t !in order[..m]
  {
    var b :| 0 <= b < |order| && order[b] == s;
    assert forall i :: 0 <= i < m ==> order[i] in order[..m];
    forall a | 0 <= a < m
      ensures order[..m][a] != t
    {
      assert a < b && order[a] in order;
    }
  }

  /** What a sweep has left alone, and what stays to be swept by. */
  ghost predicate Spared(d: Desk, after: Desk, t: SubscriptionId)
    requires Timeline(d) && t in d.subscriptions
  {
    && Orderly(after) && Untouched(d, after, t) && after.plans == d.plans
    && after.subscriptions.Keys == d.subscriptions.Keys
  }

  lemma UnreachedIsSpared(d: Desk, reached: seq<SubscriptionId>, now: Time, t: SubscriptionId, after: Desk)
    requires Orderly(d) && Distinct(reached) && forall r :: r in reached ==> r in d.subscriptions
    requires !SweepOver(d, reached, now).1 && after == SweepOver(d, reached, now).0
    requires t in d.subscriptions && t !in reached
    ensures Spared(d, after, t)
  {
    SweepOverAdvancesAll(d, reached, now);
    SweepKeepsOrderly(d, reached, now);
    assert SweptOne(d, after, reached, now, t);
  }

  lemma CandidatesAscend(d: Desk)
    ensures (forall r :: r in Candidates(d) ==> r in d.subscriptions) && Ascending(CreatedAt(d), Candidates(d))
  {
    PositionOrderIsOrdered(CreatedAt(d), set r | r in d.subscriptions && d.subscriptions[r].status != Ended);
  }

  /** Where a sweep stops when some renewal is stuck. */
  lemma SweepStops(d: Desk, order: seq<SubscriptionId>, now: Time, s: SubscriptionId, t: SubscriptionId)
    returns (reached: seq<SubscriptionId>)
    requires Orderly(d) && Distinct(order) && (forall r :: r in order ==> r in d.subscriptions)
    requires Ascending(CreatedAt(d), order) && s in order && Stuck(d, s, now)
    requires t in d.subscriptions && (t == s || SweptBefore(d, s, t))
    ensures Distinct(reached) && t !in reached && forall r :: r in reached ==> r in d.subscriptions
    ensures !SweepOver(d, reached, now).1 && SweepOver(d, order, now).0 == SweepOver(d, reached, now).0
  {
    SweepOverThrowsExactlyWhen(d, order, now);
    var m := ThrownIsAPrefix(d, order, now);
    reached := order[..m];
    StuckIsNotBefore(d, order, m, now, s);
    LaterIsNotBefore(d, order, m, s, t);
  }

  /** One sweep past a stuck renewal: neither it nor anything after it is touched. */
  lemma SweepStopsAtTheStuck(d: Desk, now: Time, s: SubscriptionId, t: SubscriptionId)
    requires Orderly(d) && Stuck(d, s, now) && t in d.subscriptions && (t == s || SweptBefore(d, s, t))
    ensures Spared(d, Sweep(d, now).0, t)
  {
    CandidatesAreOpen(d);
    CandidatesAscend(d);
    var reached := SweepStops(d, Candidates(d), now, s, t);
    UnreachedIsSpared(d, reached, now, t, Sweep(d, now).0);
  }

  /** Sweeps at any instants, each tried whether or not the one before it threw. */
  ghost function Tries(d: Desk, times: seq<Time>): Desk {
    if times == [] then d else Sweep(Tries(d, times[..|times| - 1]), times[|times| - 1]).0
  }

  lemma StillStuck(d: Desk, mid: Desk, now: Time, at: Time, s: SubscriptionId, t: SubscriptionId)
    requires Timeline(d) && Stuck(d, s, now) && t in d.subscriptions && (t == s || SweptBefore(d, s, t))
    requires Spared(d, mid, s) && Spared(d, mid, t) && now <= at
    ensures Stuck(mid, s, at) && (t == s || SweptBefore(mid, s, t))
  {
  }

  lemma SparedTwice(d: Desk, mid: Desk, after: Desk, t: SubscriptionId)
    requires Timeline(d) && t in d.subscriptions && Spared(d, mid, t) && t in mid.subscriptions && Spared(mid, after, t)
    ensures Spared(d, after, t)
  {
  }

  /**
   One renewal that cannot be made starves the rest: however often and whenever later sweeps are
   tried, no subscription that comes after it is renewed or expired.
   */
  lemma {:induction false} OneBadDateStarvesTheRest(d: Desk, now: Time, s: SubscriptionId, t: SubscriptionId,
      times: seq<Time>)
    requires Orderly(d) && Stuck(d, s, now) && t in d.subscriptions && (t == s || SweptBefore(d, s, t))
    requires forall i :: 0 <= i < |times| ==> now <= times[i]
    ensures Spared(d, Tries(d, times), s) && Spared(d, Tries(d, times), t)
  {
    if times != [] {
      OneBadDateStarvesTheRest(d, now, s, t, times[..|times| - 1]);
      OneMoreTry(d, Tries(d, times[..|times| - 1]), now, times[|times| - 1], s, t);
    }
  }

  lemma OneMoreTry(d: Desk, mid: Desk, now: Time, at: Time, s: SubscriptionId, t: SubscriptionId)
    requires Orderly(d) && Stuck(d, s, now) && t in d.subscriptions && (t == s || SweptBefore(d, s, t))
    requires Spared(d, mid, s) && Spared(d, mid, t) && now <= at
    ensures Spared(d, Sweep(mid, at).0, s) && Spared(d, Sweep(mid, at).0, t)
  {
    StillStuck(d, mid, now, at, s, t);
    SweepStopsAtTheStuck(mid, at, s, s);
    SweepStopsAtTheStuck(mid, at, s, t);
    SparedTwice(d, mid, Sweep(mid, at).0, s);
    SparedTwice(d, mid, Sweep(mid, at).0, t);
  }

  // ----- an input for which it happens -----

  /** A plan charged every 100,019,000 days, taken from the first instant a date can have. */
  const FAR_RUN: seq<Subscriptions.Timed> := [
    Subscriptions.Timed(0, MoneyWork(MoneyRuns.OpenWallet("owner", "SAR"))),
    Subscriptions.Timed(0, OfferPlan(DayInterval, 100_019_000, "SAR", 0)),
    Subscriptions.Timed(0, SubscribeTo("owner", 0, 0, -MAX_TIME, false))]

  lemma FarPlanIsOffered()
    ensures var d := RunDesk(FAR_RUN[..2]);
            && d.till.books.wallets == map[0 := Money.Wallet("owner", "SAR", Money.Active)]
            && d.plans == map[0 := Plan(DayInterval, 100_019_000, "SAR", 0, Offered)]
            && d.subscriptions == map[] && d.periods == map[] && d.nextId == 1
  {
    var first := FAR_RUN[..1];
    assert FAR_RUN[..2][..1] == first && first[..0] == [];
    assert RunDesk(first) == EMPTY_DESK.(till := FirstWallet());
  }

  ghost function FirstWallet(): (till: MoneyRuns.Till)
    ensures till.books.wallets == map[0 := Money.Wallet("owner", "SAR", Money.Active)]
  {
    MoneyRuns.ApplyOne(MoneyRuns.EMPTY_TILL.books, Money.InsertWallet(0, Money.Wallet("owner", "SAR", Money.Active)));
    MoneyRuns.Step(MoneyRuns.EMPTY_TILL, 0, MoneyRuns.OpenWallet("owner", "SAR"))
  }

  /** Its first period ended in 2022; its second would end after the last instant a date can have. */
  lemma FarRenewalIsStuck()
    ensures Orderly(RunDesk(FAR_RUN)) && Stuck(RunDesk(FAR_RUN), 1, 1_700_000_000_000)
  {
    EveryRunIsOrderly(FAR_RUN);
    FarPlanIsOffered();
    var d, after := RunDesk(FAR_RUN[..2]), RunDesk(FAR_RUN);
    assert FAR_RUN[..|FAR_RUN| - 1] == FAR_RUN[..2];
    assert after == Subscribe(d, "owner", 0, 0, -MAX_TIME, 0, false).0;
    EveryRunIsOrderly(FAR_RUN[..2]);
    FarPeriodEnds(d, after);
  }

  lemma FarPeriodEnds(d: Desk, after: Desk)
    requires Timeline(d) && d.till.books.wallets == map[0 := Money.Wallet("owner", "SAR", Money.Active)]
    requires d.plans == map[0 := Plan(DayInterval, 100_019_000, "SAR", 0, Offered)]
    requires d.subscriptions == map[] && d.periods == map[] && d.nextId == 1
    requires after == Subscribe(d, "owner", 0, 0, -MAX_TIME, 0, false).0 && Timeline(after)
    ensures Stuck(after, 1, 1_700_000_000_000)
  {
    var end := 1_641_600_000_000;
    assert AdvanceInterval(-MAX_TIME, DayInterval, 100_019_000) == Ok(end);
    var begun := WithFirst(d, NewRow("owner", 0, 0, 0), -MAX_TIME, end);
    SubscribeInserts(d, "owner", 0, 0, -MAX_TIME, end, 0);
    assert after == ChargePeriod(begun, 2, 0, false).0;
    ChargeMovesNothing(begun, 2, 0, false);
    ChargeTouchesOneRow(begun, 2, 0, false);
    FarEnd(begun, after);
  }

  lemma FarEnd(begun: Desk, after: Desk)
    requires Timeline(begun) && Timeline(after) && Unmoved(begun, after) && RowsButOne(begun, after, 1)
    requires begun.plans == map[0 := Plan(DayInterval, 100_019_000, "SAR", 0, Offered)]
    requires begun.subscriptions == map[1 := NewRow("owner", 0, 0, 0)]
    requires begun.periods == map[2 := NewPeriod(1, begun.plans[0], 1, -MAX_TIME, 1_641_600_000_000)]
    ensures Stuck(after, 1, 1_700_000_000_000)
  {
    assert 2 in after.periods && after.periods.Keys == {2};
    assert HasPeriod(after.periods, 1);
    LatestExists(after.periods, 1);
    assert Latest(after.periods, 1) == Some(2);
    assert EndOf(after, 1) == 1_641_600_000_000;
  }
}
