/**
 What a renewal sweep reports, and that the report is exact: which subscriptions it expired, which
 period it began for which subscription, and which of those could not be collected.
 */
module SubscriptionReports {
  import opened Common
  import opened Money
  import opened MoneyRuns
  import opened Subscriptions
  import opened SubscriptionTimelines
  import opened SubscriptionSweeps

  /** What one sweep reports. */
  datatype SweepReport = SweepReport(
    renewed: seq<PeriodId>, expired: seq<SubscriptionId>, uncollectible: seq<PeriodId>, threw: bool)

  const NOTHING_YET := SweepReport([], [], [], false)

  datatype Work = Idle | Expiry | Renewal

  /** What a candidate gives the sweep to do. */
  ghost function WorkFor(d: Desk, s: SubscriptionId, now: Time): Work {
    if s !in d.subscriptions || d.subscriptions[s].status == Ended then Idle
    else
      match Latest(d.periods, s)
      case None => Idle
      case Some(latest) =>
        if d.periods[latest].endsAt > now then Idle
        else if d.subscriptions[s].status == Cancelled then Expiry
        else if d.subscriptions[s].plan !in d.plans then Idle
        else Renewal
  }

  /** A refused collection is noted and the sweep goes on; an exception ends it. */
  function Reported(report: SweepReport, work: Work, s: SubscriptionId, next: PeriodId, outcome: Outcome): SweepReport {
    if outcome == Threw then report.(threw := true)
    else
      match work
      case Idle => report
      case Expiry => report.(expired := report.expired + [s])
      case Renewal =>
        report.(renewed := report.renewed + [next],
                uncollectible := report.uncollectible + if outcome.Refused? then [next] else [])
  }

  /** The report of a sweep over a list, read off the desks in between. */
  ghost function ReportOf(start: Desk, order: seq<SubscriptionId>, now: Time): SweepReport {
    if order == [] then NOTHING_YET
    else
      var shorter, last := order[..|order| - 1], order[|order| - 1];
      var mid := SweepOver(start, shorter, now);
      if mid.1 then ReportOf(start, shorter, now)
      else Reported(ReportOf(start, shorter, now), WorkFor(mid.0, last, now), last, mid.0.nextId,
                    RenewOne(mid.0, last, now, false).1)
  }

  // ----- what a charge does to the periods -----

  ghost predicate PeriodsButOne(before: Periods, after: Periods, id: PeriodId) {
    after.Keys == before.Keys && forall q :: q in before && q != id ==> after[q] == before[q]
  }

  /** How the outcome of a charge shows on its period. */
  ghost predicate ShowsOn(after: Periods, id: PeriodId, outcome: Outcome) {
    && (outcome == Collected ==> id in after && after[id].status == Settled)
    && (outcome.Refused? ==> id in after && after[id].status == Uncollectible)
  }

  lemma SettleTouchesOnePeriod(d: Desk, id: PeriodId, hold: Option<HoldId>, now: Time)
    requires id in d.periods && d.periods[id].subscription in d.subscriptions
    ensures PeriodsButOne(d.periods, SettlePeriod(d, id, hold, now).0.periods, id)
    ensures SettlePeriod(d, id, hold, now).1 == Collected
            ==> SettlePeriod(d, id, hold, now).0.periods[id].status == Settled
  {
  }

  lemma FinishTouchesOnePeriod(d: Desk, id: PeriodId, hold: HoldId, now: Time)
    requires id in d.periods && d.periods[id].subscription in d.subscriptions
    ensures PeriodsButOne(d.periods, FinishCharge(d, id, hold, now).0.periods, id)
    ensures ShowsOn(FinishCharge(d, id, hold, now).0.periods, id, FinishCharge(d, id, hold, now).1)
  {
    SettleTouchesOnePeriod(d, id, Some(hold), now);
  }

  lemma ChargeTouchesOnePeriod(d: Desk, id: PeriodId, now: Time)
    requires id in d.periods && d.periods[id].subscription in d.subscriptions
    ensures PeriodsButOne(d.periods, ChargePeriod(d, id, now, false).0.periods, id)
    ensures ShowsOn(ChargePeriod(d, id, now, false).0.periods, id, ChargePeriod(d, id, now, false).1)
  {
    var p := d.periods[id];
    SettleTouchesOnePeriod(d, id, None, now);
    var staged := StageAuthorize(d.till.books, now, d.till.nextId, d.subscriptions[p.subscription].wallet,
                                 p.amount, PeriodReference(id), None);
    match Perform(d.till.books, staged)
    case Err(e) =>
    case Ok(held) =>
      FinishTouchesOnePeriod(d.(till := Step(d.till, now, ChargeHold(d, id))), id, held.0, now);
  }

  // ----- what a candidate gives to do -----

  lemma WorkIsDue(d: Desk, s: SubscriptionId, now: Time)
    requires Timeline(d) && s in d.subscriptions
    ensures WorkFor(d, s, now) == if !Due(d, s, now) then Idle else
            if d.subscriptions[s].status == Cancelled then Expiry else Renewal
  {
    assert HasPeriod(d.periods, s);
    LatestExists(d.periods, s);
  }

  lemma UnsweptWork(d: Desk, mid: Desk, order: seq<SubscriptionId>, last: SubscriptionId, now: Time)
    requires Timeline(d) && Timeline(mid) && SweptAll(d, mid, order, now) && last in d.subscriptions && last !in order
    ensures WorkFor(mid, last, now) == WorkFor(d, last, now)
  {
    assert SweptOne(d, mid, order, now, last);
    WorkIsDue(d, last, now);
    WorkIsDue(mid, last, now);
  }

  /** The candidates of a list that give a certain work to do, in the order of the list. */
  ghost function Those(d: Desk, order: seq<SubscriptionId>, now: Time, work: Work): seq<SubscriptionId> {
    if order == [] then []
    else
      var earlier := Those(d, order[..|order| - 1], now, work);
      if WorkFor(d, order[|order| - 1], now) == work then earlier + [order[|order| - 1]] else earlier
  }

  // ----- the report -----

  /** The period a sweep began for a subscription: where its coverage ended, one interval long, and charged. */
  ghost predicate BegunFor(d: Desk, periods: Periods, p: PeriodId, s: SubscriptionId)
    requires Timeline(d)
  {
    && s in d.subscriptions && d.subscriptions[s].plan in d.plans
    && p !in d.periods && p in periods && periods[p].subscription == s
    && periods[p].startsAt == EndOf(d, s) && EndAfter(d, s) == Ok(periods[p].endsAt)
    && (periods[p].status == Settled || periods[p].status == Uncollectible)
  }

  /** Those of a list of periods that could not be collected. */
  function Uncollected(periods: Periods, ids: seq<PeriodId>): seq<PeriodId> {
    if ids == [] then []
    else
      var earlier, last := Uncollected(periods, ids[..|ids| - 1]), ids[|ids| - 1];
      if last in periods && periods[last].status == Uncollectible then earlier + [last] else earlier
  }

  ghost predicate Exact(d: Desk, after: Desk, order: seq<SubscriptionId>, now: Time, report: SweepReport)
    requires Timeline(d)
  {
    var due := Those(d, order, now, Renewal);
    && d.periods.Keys <= after.periods.Keys
    && report.expired == Those(d, order, now, Expiry)
    && |report.renewed| == |due|
    && (forall i :: 0 <= i < |due| ==> BegunFor(d, after.periods, report.renewed[i], due[i]))
    && report.uncollectible == Uncollected(after.periods, report.renewed)
  }

  lemma {:induction false} UncollectedStays(before: Periods, after: Periods, ids: seq<PeriodId>)
    requires forall p :: p in ids ==> p in before && p in after && after[p] == before[p]
    ensures Uncollected(after, ids) == Uncollected(before, ids)
  {
    if ids != [] {
      assert ids[|ids| - 1] in ids;
      UncollectedStays(before, after, ids[..|ids| - 1]);
    }
  }

  /** Periods that stay as they are keep a report exact. */
  lemma ExactStays(d: Desk, mid: Desk, after: Desk, order: seq<SubscriptionId>, now: Time, report: SweepReport)
    requires Timeline(d) && Exact(d, mid, order, now, report)
    requires forall p :: p in mid.periods ==> p in after.periods && after.periods[p] == mid.periods[p]
    ensures Exact(d, after, order, now, report)
  {
    forall p | p in report.renewed
      ensures p in mid.periods
    {
      var i :| 0 <= i < |report.renewed| && report.renewed[i] == p;
      assert BegunFor(d, mid.periods, p, Those(d, order, now, Renewal)[i]);
    }
    UncollectedStays(mid.periods, after.periods, report.renewed);
    forall i | 0 <= i < |report.renewed|
      ensures BegunFor(d, after.periods, report.renewed[i], Those(d, order, now, Renewal)[i])
    {
      assert BegunFor(d, mid.periods, report.renewed[i], Those(d, order, now, Renewal)[i]);
    }
  }

  /** A renewal that goes through leaves every other period alone, and its own as its outcome says. */
  lemma RenewalBeginsOne(d: Desk, s: SubscriptionId, now: Time, after: Desk, outcome: Outcome)
    requires Timeline(d) && DueForRenewal(d, s, now) && NextEnd(d, s).Ok?
    requires (after, outcome) == RenewOne(d, s, now, false) && outcome != Threw
    ensures forall p :: p in d.periods ==> p in after.periods && after.periods[p] == d.periods[p]
    ensures BegunFor(d, after.periods, d.nextId, s)
    ensures outcome.Refused? <==> after.periods[d.nextId].status == Uncollectible
  {
    var begun, endsAt := RenewalBegins(d, s, now);
    RenewalInserts(d, s, now, false);
    NextEndIsEndAfter(d, s);
    ChargeShows(begun, d.nextId, now, after, outcome);
    ChargedBegins(d, s, begun, endsAt, after.periods, outcome);
  }

  lemma ChargeShows(begun: Desk, id: PeriodId, now: Time, after: Desk, outcome: Outcome)
    requires id in begun.periods && begun.periods[id].subscription in begun.subscriptions
    requires (after, outcome) == ChargePeriod(begun, id, now, false)
    ensures PeriodsButOne(begun.periods, after.periods, id) && ShowsOn(after.periods, id, outcome)
    ensures outcome == Threw || outcome == Collected || outcome.Refused?
  {
    ChargeTouchesOnePeriod(begun, id, now);
    ChargeEnds(begun, id, now);
  }

  lemma ChargedBegins(d: Desk, s: SubscriptionId, begun: Desk, endsAt: Time, periods: Periods, outcome: Outcome)
    requires Timeline(d) && s in d.subscriptions && d.subscriptions[s].plan in d.plans
    requires Latest(d.periods, s).Some? && Latest(d.periods, s).value in d.periods && EndAfter(d, s) == Ok(endsAt)
    requires begun == WithNext(d, s, Latest(d.periods, s).value, endsAt)
    requires PeriodsButOne(begun.periods, periods, d.nextId) && ShowsOn(periods, d.nextId, outcome)
    requires SamePlace(periods[d.nextId], begun.periods[d.nextId])
    requires outcome == Collected || outcome.Refused?
    ensures forall p :: p in d.periods ==> p in periods && periods[p] == d.periods[p]
    ensures BegunFor(d, periods, d.nextId, s)
    ensures outcome.Refused? <==> periods[d.nextId].status == Uncollectible
  {
  }

  lemma ChargeEnds(d: Desk, id: PeriodId, now: Time)
    requires id in d.periods && d.periods[id].subscription in d.subscriptions
    ensures var outcome := ChargePeriod(d, id, now, false).1;
            outcome == Threw || outcome == Collected || outcome.Refused?
  {
  }

  lemma WithRenewed(d: Desk, after: Desk, order: seq<SubscriptionId>, last: SubscriptionId, now: Time,
      report: SweepReport, p: PeriodId, longer: SweepReport)
    requires Timeline(d) && Exact(d, after, order, now, report) && WorkFor(d, last, now) == Renewal
    requires BegunFor(d, after.periods, p, last)
    requires longer == report.(renewed := report.renewed + [p],
                               uncollectible := report.uncollectible +
                                   if after.periods[p].status == Uncollectible then [p] else [])
    ensures Exact(d, after, order + [last], now, longer)
  {
    assert (order + [last])[..|order|] == order && (report.renewed + [p])[..|report.renewed|] == report.renewed;
  }

  lemma WithOther(d: Desk, after: Desk, order: seq<SubscriptionId>, last: SubscriptionId, now: Time,
      report: SweepReport)
    requires Timeline(d) && Exact(d, after, order, now, report) && WorkFor(d, last, now) != Renewal
    ensures Exact(d, after, order + [last], now,
                  if WorkFor(d, last, now) == Expiry then report.(expired := report.expired + [last]) else report)
  {
    assert (order + [last])[..|order|] == order;
  }

  lemma UnsweptBegins(d: Desk, mid: Desk, order: seq<SubscriptionId>, last: SubscriptionId, now: Time,
      periods: Periods, p: PeriodId)
    requires Timeline(d) && Timeline(mid) && SweptAll(d, mid, order, now) && last in d.subscriptions && last !in order
    requires d.periods.Keys <= mid.periods.Keys && BegunFor(mid, periods, p, last)
    ensures BegunFor(d, periods, p, last)
  {
    assert SweptOne(d, mid, order, now, last);
  }

  /** One more candidate of a sweep that goes through. */
  lemma OneMoreReported(d: Desk, mid: Desk, order: seq<SubscriptionId>, last: SubscriptionId, now: Time,
      report: SweepReport)
    requires Timeline(d) && Timeline(mid) && SweptAll(d, mid, order, now) && last in d.subscriptions && last !in order
    requires Exact(d, mid, order, now, report) && RenewOne(mid, last, now, false).1 != Threw
    ensures Exact(d, RenewOne(mid, last, now, false).0, order + [last], now,
                  Reported(report, WorkFor(mid, last, now), last, mid.nextId, RenewOne(mid, last, now, false).1))
  {
    var (after, outcome) := RenewOne(mid, last, now, false);
    UnsweptWork(d, mid, order, last, now);
    assert SweptOne(d, mid, order, now, last);
    WorkIsDue(mid, last, now);
    if WorkFor(mid, last, now) == Renewal {
      DueIsDueForRenewal(mid, last, now);
      RenewalInserts(mid, last, now, false);
      RenewalBeginsOne(mid, last, now, RenewOne(mid, last, now, false).0, RenewOne(mid, last, now, false).1);
      ExactStays(d, mid, after, order, now, report);
      UnsweptBegins(d, mid, order, last, now, after.periods, mid.nextId);
      WithRenewed(d, after, order, last, now, report, mid.nextId, Reported(report, Renewal, last, mid.nextId, outcome));
    } else {
      OthersKeepPeriods(mid, last, now);
      ExactStays(d, mid, after, order, now, report);
      WithOther(d, after, order, last, now, report);
    }
  }

  lemma OthersKeepPeriods(d: Desk, s: SubscriptionId, now: Time)
    requires Timeline(d) && s in d.subscriptions && WorkFor(d, s, now) != Renewal
    ensures RenewOne(d, s, now, false).0.periods == d.periods
  {
    WorkIsDue(d, s, now);
    if !Due(d, s, now) {
      NothingDueIsIdle(d, s, now);
    } else {
      assert HasPeriod(d.periods, s);
      LatestExists(d.periods, s);
    }
  }

  /**
   The report of a sweep that went through is exact: it lists the subscriptions that were due to
   expire, in order; for each that was due to renew, in order, the period begun for it; and of those
   periods the ones that ended up uncollectible.
   */
  lemma {:induction false} ReportIsExact(d: Desk, order: seq<SubscriptionId>, now: Time)
    requires Timeline(d) && Distinct(order) && forall s :: s in order ==> s in d.subscriptions
    requires !SweepOver(d, order, now).1
    ensures Exact(d, SweepOver(d, order, now).0, order, now, ReportOf(d, order, now))
  {
    if order != [] {
      var shorter, last := order[..|order| - 1], order[|order| - 1];
      assert order == shorter + [last] && last in order && last !in shorter;
      ReportIsExact(d, shorter, now);
      SweepOverAdvancesAll(d, shorter, now);
      OneMoreReported(d, SweepOver(d, shorter, now).0, shorter, last, now, ReportOf(d, shorter, now));
    }
  }
}
