/**
 What the subscription commands do, said of the rows before and after: when coverage ends, which
 period a renewal begins, and when a charge is collected and what it then moves.
 */
module SubscriptionEffects {
  import opened Common
  import opened Calendar
  import opened Money
  import opened MoneyRuns
  import opened MoneyEffects
  import opened MoneyLedgerLaws
  import opened Subscriptions
  import opened SubscriptionTimelines
  import opened SubscriptionBilling
  import opened SubscriptionReports
  import opened SubscriptionRefusals

  /** Nothing but this subscription and its periods. */
  ghost predicate OnlyAbout(d: Desk, after: Desk, s: SubscriptionId) {
    && after.plans == d.plans
    && after.subscriptions.Keys == d.subscriptions.Keys && d.periods.Keys <= after.periods.Keys
    && (forall t :: t in d.subscriptions && t != s ==> after.subscriptions[t] == d.subscriptions[t])
    && (forall p :: p in d.periods && d.periods[p].subscription != s ==> after.periods[p] == d.periods[p])
  }

  predicate SameSubscriber(before: Subscription, after: Subscription) {
    after.owner == before.owner && after.plan == before.plan && after.wallet == before.wallet
    && after.createdAt == before.createdAt
  }

  // ----- cancelling -----

  predicate IsCurrent(periods: Periods, s: SubscriptionId, now: Time, p: PeriodId) {
    p in periods && periods[p].subscription == s && periods[p].startsAt <= now && now < periods[p].endsAt
  }

  /** At the end of the current period if that was paid for, and now if it was not, or if there is none. */
  ghost predicate EndsWithPaidTime(periods: Periods, s: SubscriptionId, now: Time, endedAt: Option<Time>) {
    && (forall p :: IsCurrent(periods, s, now, p) && periods[p].status == Settled ==>
          endedAt == Some(periods[p].endsAt))
    && ((forall p :: IsCurrent(periods, s, now, p) ==> periods[p].status != Settled) ==> endedAt == Some(now))
  }

  predicate CancelledAs(before: Subscription, after: Subscription, reason: string, now: Time) {
    && SameSubscriber(before, after)
    && after.status == Cancelled && after.cancelledAt == Some(now) && after.cancelReason == reason
  }

  predicate WaivedAs(before: Period, after: Period) {
    SamePlace(after, before) && after.status == Waived && after.hold.None? && after.settledAt.None?
    && after.refusal.None?
  }

  /** The current period is waived if it was not paid for, and no other period changes. */
  ghost predicate WaivesTheUnpaid(before: Periods, after: Periods, s: SubscriptionId, now: Time) {
    after.Keys == before.Keys
    && forall p :: p in before ==>
      if IsCurrent(before, s, now, p) && before[p].status != Settled then WaivedAs(before[p], after[p])
      else after[p] == before[p]
  }

  lemma CoveringIsCurrent(d: Desk, s: SubscriptionId, now: Time)
    requires Timeline(d)
    ensures forall p: PeriodId :: IsCurrent(d.periods, s, now, p) <==> Covering(d.periods, s, now) == Some(p)
  {
    forall p: PeriodId | IsCurrent(d.periods, s, now, p)
      ensures Covering(d.periods, s, now) == Some(p)
    {
      assert Covers(d.periods[p], now);
      assert Covering(d.periods, s, now).Some?;
      AtMostOneCovers(d.periods, p, Covering(d.periods, s, now).value, now);
    }
  }

  /** The subscription row as a cancellation means to write it, and the period it waives. */
  lemma WaivingGoesThrough(d: Desk, id: PeriodId, row: Subscription, waived: Period)
    requires Timeline(d) && id in d.periods && WaivedAs(d.periods[id], waived) && SubscriptionShape(row)
    ensures WriteBoth(d, id, waived, row)
         == Some(d.(periods := d.periods[id := waived], subscriptions := d.subscriptions[waived.subscription := row]))
  {
    RewriteIsWritable(d, id, waived);
  }

  /**
   A cancellation throws exactly when no reason is given, or the subscription is unknown or expired;
   a second one changes nothing. Otherwise the subscription is cancelled, ends with the time that was
   paid for, and a current period that was not paid for is waived; nothing else changes.
   */
  lemma CancellationIsExact(d: Desk, s: SubscriptionId, reason: string, now: Time)
    requires Timeline(d)
    ensures var (after, outcome) := Cancel(d, s, reason, now);
            && (outcome == Threw <==> reason == "" || s !in d.subscriptions || d.subscriptions[s].status == Ended)
            && if reason == "" || s !in d.subscriptions || !IsLive(d.subscriptions[s]) then after == d
               else
                 && after.till == d.till && after.nextId == d.nextId && OnlyAbout(d, after, s)
                 && CancelledAs(d.subscriptions[s], after.subscriptions[s], reason, now)
                 && EndsWithPaidTime(d.periods, s, now, after.subscriptions[s].endedAt)
                 && WaivesTheUnpaid(d.periods, after.periods, s, now)
  {
    if reason != "" && s in d.subscriptions && IsLive(d.subscriptions[s]) {
      var row, current := d.subscriptions[s], Covering(d.periods, s, now);
      CoveringIsCurrent(d, s, now);
      if current.Some? && d.periods[current.value].status != Settled {
        var cancelled := row.(status := Cancelled, cancelledAt := Some(now), cancelReason := reason,
                              endedAt := Some(now));
        var waived := d.periods[current.value].(status := Waived, hold := None, settledAt := None, refusal := None);
        WaivingGoesThrough(d, current.value, cancelled, waived);
      }
    }
  }

  // ----- renewing -----

  /** All the time the subscription was given is over. */
  ghost predicate RanOut(periods: Periods, s: SubscriptionId, now: Time) {
    forall p :: p in periods && periods[p].subscription == s ==> periods[p].endsAt <= now
  }

  predicate EndedAs(before: Subscription, after: Subscription, now: Time) {
    && SameSubscriber(before, after) && after.cancelReason == before.cancelReason
    && after.status == Ended && after.cancelledAt.None?
    && after.endedAt == if before.endedAt.Some? then before.endedAt else Some(now)
  }

  /** The period right after all the others, one interval long, at the plan's price. */
  ghost predicate BeginsNext(d: Desk, next: Period, s: SubscriptionId, plan: Plan) {
    && next.subscription == s && next.currency == plan.currency && next.amount == plan.amount
    && AdvanceInterval(next.startsAt, plan.interval, plan.count) == Ok(next.endsAt)
    && exists q :: q in d.periods && d.periods[q].subscription == s
                   && d.periods[q].endsAt == next.startsAt && d.periods[q].sequence + 1 == next.sequence
                   && forall p :: p in d.periods && d.periods[p].subscription == s ==>
                        d.periods[p].endsAt <= next.startsAt && d.periods[p].sequence < next.sequence
  }

  /** One period more, and nothing else but what charging it does. */
  ghost predicate RenewedBy(d: Desk, after: Desk, s: SubscriptionId)
    requires s in d.subscriptions && d.subscriptions[s].plan in d.plans
  {
    && OnlyAbout(d, after, s) && after.nextId == d.nextId + 1
    && d.nextId !in d.periods && after.periods.Keys == d.periods.Keys + {d.nextId}
    && (forall p :: p in d.periods ==> after.periods[p] == d.periods[p])
    && BeginsNext(d, after.periods[d.nextId], s, d.plans[d.subscriptions[s].plan])
  }

  ghost predicate NextOutOfRange(d: Desk, s: SubscriptionId)
    requires s in d.subscriptions && d.subscriptions[s].plan in d.plans
  {
    var plan := d.plans[d.subscriptions[s].plan];
    exists q :: IsLatest(d.periods, s, q) && AdvanceInterval(d.periods[q].endsAt, plan.interval, plan.count).Err?
  }

  lemma LatestEndsLast(d: Desk, s: SubscriptionId, now: Time)
    requires Timeline(d) && s in d.subscriptions
    ensures Latest(d.periods, s).Some? && IsLatest(d.periods, s, Latest(d.periods, s).value)
    ensures RanOut(d.periods, s, now) <==> d.periods[Latest(d.periods, s).value].endsAt <= now
  {
    assert HasPeriod(d.periods, s);
    LatestExists(d.periods, s);
    var latest := Latest(d.periods, s).value;
    forall p | p in d.periods && d.periods[p].subscription == s
      ensures d.periods[p].endsAt <= d.periods[latest].endsAt
    {
      EndsBeforeTheLatest(d, s, latest, p);
    }
  }

  lemma NextBegins(d: Desk, s: SubscriptionId, latest: PeriodId, endsAt: Time)
    requires Timeline(d) && s in d.subscriptions && d.subscriptions[s].plan in d.plans && IsLatest(d.periods, s, latest)
    requires var plan := d.plans[d.subscriptions[s].plan];
             AdvanceInterval(d.periods[latest].endsAt, plan.interval, plan.count) == Ok(endsAt)
    ensures BeginsNext(d, NextOf(d, s, latest, endsAt), s, d.plans[d.subscriptions[s].plan])
  {
    forall p | p in d.periods && d.periods[p].subscription == s
      ensures d.periods[p].endsAt <= d.periods[latest].endsAt
    {
      EndsBeforeTheLatest(d, s, latest, p);
    }
  }

  /**
   The sweep leaves a subscription alone exactly until its time ran out. A cancelled one then ends,
   when its cancellation said; a live one gets the next period, at the plan's price, which is then
   charged under its own name; or the sweep throws because that period would leave the range of dates.
   */
  lemma RenewalIsExact(d: Desk, s: SubscriptionId, now: Time, crash: bool)
    requires Tidy(d)
    ensures var (after, outcome) := RenewOne(d, s, now, crash);
            if s !in d.subscriptions || d.subscriptions[s].status == Ended || !RanOut(d.periods, s, now) then
              (after, outcome) == (d, Nothing)
            else if d.subscriptions[s].status == Cancelled then
              && outcome == Nothing && after == d.(subscriptions := after.subscriptions) && OnlyAbout(d, after, s)
              && EndedAs(d.subscriptions[s], after.subscriptions[s], now)
            else if NextOutOfRange(d, s) then (after, outcome) == (d, Threw)
            else RenewedBy(d, after, s)
  {
    if s in d.subscriptions && d.subscriptions[s].status != Ended {
      LatestEndsLast(d, s, now);
      if IsLive(d.subscriptions[s]) && RanOut(d.periods, s, now) {
        RenewalInserts(d, s, now, crash);
        NextEndIsTheLatests(d, s);
        if NextEnd(d, s).Ok? {
          RenewedInFull(d, s, Latest(d.periods, s).value, now, crash, RenewOne(d, s, now, crash).0);
        }
      }
    }
  }

  lemma RenewedInFull(d: Desk, s: SubscriptionId, latest: PeriodId, now: Time, crash: bool, after: Desk)
    requires Timeline(d) && s in d.subscriptions && d.subscriptions[s].plan in d.plans
    requires Latest(d.periods, s) == Some(latest) && IsLatest(d.periods, s, latest) && NextEnd(d, s).Ok?
    requires var begun := WithNext(d, s, latest, NextEnd(d, s).value);
             Timeline(begun) && after == ChargePeriod(begun, d.nextId, now, crash).0
    ensures RenewedBy(d, after, s)
  {
    var begun := WithNext(d, s, latest, NextEnd(d, s).value);
    NextBegins(d, s, latest, NextEnd(d, s).value);
    ChargeMovesNothing(begun, d.nextId, now, crash);
    ChargeTouchesItsRows(begun, d.nextId, now, crash);
    RenewedIsCharged(d, s, begun, after);
  }

  lemma NextEndIsTheLatests(d: Desk, s: SubscriptionId)
    requires Timeline(d) && s in d.subscriptions && d.subscriptions[s].plan in d.plans
    requires Latest(d.periods, s).Some? && IsLatest(d.periods, s, Latest(d.periods, s).value)
    ensures NextEnd(d, s).Err? <==> NextOutOfRange(d, s)
  {
    if NextOutOfRange(d, s) {
      var plan := d.plans[d.subscriptions[s].plan];
      var q :| IsLatest(d.periods, s, q) && AdvanceInterval(d.periods[q].endsAt, plan.interval, plan.count).Err?;
      LatestIs(d.periods, s, q);
    }
  }

  /** A desk with one period more, and then charged for it, differs from the first in that period only. */
  lemma RenewedIsCharged(d: Desk, s: SubscriptionId, begun: Desk, after: Desk)
    requires Timeline(d) && s in d.subscriptions && d.subscriptions[s].plan in d.plans
    requires d.nextId in begun.periods && begun.periods == d.periods[d.nextId := begun.periods[d.nextId]]
    requires begun.plans == d.plans && begun.nextId == d.nextId + 1 && begun.subscriptions == d.subscriptions
    requires begun.periods[d.nextId].subscription == s
    requires Unmoved(begun, after) && TouchesItsRows(begun, after, d.nextId)
    requires BeginsNext(d, begun.periods[d.nextId], s, d.plans[d.subscriptions[s].plan])
    ensures RenewedBy(d, after, s)
  {
    assert SamePlace(after.periods[d.nextId], begun.periods[d.nextId]);
  }

  // ----- charging -----

  /** A charge rewrites its period and its period's subscription, and no other row. */
  ghost predicate TouchesItsRows(d: Desk, after: Desk, id: PeriodId)
    requires id in d.periods
  {
    && PeriodsButOne(d.periods, after.periods, id)
    && after.subscriptions.Keys == d.subscriptions.Keys
    && forall t :: t in d.subscriptions && t != d.periods[id].subscription ==>
         after.subscriptions[t] == d.subscriptions[t]
  }

  lemma FinishTouchesItsRows(d: Desk, id: PeriodId, hold: HoldId, now: Time)
    requires id in d.periods && d.periods[id].subscription in d.subscriptions
    ensures TouchesItsRows(d, FinishCharge(d, id, hold, now).0, id)
  {
  }

  lemma ChargeTouchesItsRows(d: Desk, id: PeriodId, now: Time, crash: bool)
    requires id in d.periods && d.periods[id].subscription in d.subscriptions
    ensures TouchesItsRows(d, ChargePeriod(d, id, now, crash).0, id)
  {
    var p := d.periods[id];
    var staged := StageAuthorize(d.till.books, now, d.till.nextId, d.subscriptions[p.subscription].wallet,
                                 p.amount, PeriodReference(id), None);
    match Perform(d.till.books, staged)
    case Err(e) =>
    case Ok(held) =>
      FinishTouchesItsRows(d.(till := Step(d.till, now, ChargeHold(d, id))), id, held.0, now);
  }

  predicate IsUnpaid(p: Period) {
    p.status == Pending || p.status == Uncollectible
  }

  predicate PaidAt(before: Period, after: Period, now: Time) {
    && SamePlace(after, before) && after.status == Settled && after.settledAt == Some(now) && after.refusal.None?
    && (after.hold.None? <==> before.amount == 0)
  }

  predicate RefusedFor(before: Period, after: Period, why: Failure) {
    && SamePlace(after, before) && after.status == Uncollectible && after.refusal == Some(why)
    && after.hold.None? && after.settledAt.None?
  }

  /** The same subscription; only one standing becomes another. */
  predicate Turns(before: Subscription, after: Subscription, from: SubscriptionStatus, to: SubscriptionStatus) {
    && after.status == (if before.status == from then to else before.status)
    && after.(status := before.status) == before
  }

  /** How the outcome of a charge shows on its period and on the subscription. */
  ghost predicate ShowsOnRows(d: Desk, after: Desk, id: PeriodId, outcome: Outcome, now: Time)
    requires id in d.periods && d.periods[id].subscription in d.subscriptions
  {
    var s := d.periods[id].subscription;
    && TouchesItsRows(d, after, id)
    && match outcome
       case Collected =>
         && PaidAt(d.periods[id], after.periods[id], now)
         && Turns(d.subscriptions[s], after.subscriptions[s], PastDue, Running)
       case Refused(why) =>
         && RefusedFor(d.periods[id], after.periods[id], why)
         && Turns(d.subscriptions[s], after.subscriptions[s], Running, PastDue)
       case _ => after.periods == d.periods && after.subscriptions == d.subscriptions
  }

  lemma FinishShows(d: Desk, id: PeriodId, hold: HoldId, now: Time)
    requires id in d.periods && d.periods[id].subscription in d.subscriptions && d.periods[id].amount != 0
    ensures ShowsOnRows(d, FinishCharge(d, id, hold, now).0, id, FinishCharge(d, id, hold, now).1, now)
  {
  }

  /** Whatever a charge comes to, its period and subscription say so, and no other row changes. */
  lemma ChargeShowsOnRows(d: Desk, id: PeriodId, now: Time, crash: bool)
    requires id in d.periods && d.periods[id].subscription in d.subscriptions && IsUnpaid(d.periods[id])
    ensures var (after, outcome) := ChargePeriod(d, id, now, crash); ShowsOnRows(d, after, id, outcome, now)
  {
    var p := d.periods[id];
    if p.amount != 0 {
      var staged := StageAuthorize(d.till.books, now, d.till.nextId, d.subscriptions[p.subscription].wallet,
                                   p.amount, PeriodReference(id), None);
      match Perform(d.till.books, staged)
      case Err(e) =>
      case Ok(held) =>
        FinishShows(d.(till := Step(d.till, now, ChargeHold(d, id))), id, held.0, now);
    }
  }

  // ----- what a charge moves -----

  /** What the hold under the period's reference has taken from its wallet already. */
  function TakenBefore(b: Books, h: HoldId): int {
    if h in b.holds then b.holds[h].captured else 0
  }

  /** The period's hold is captured for its whole amount, and its wallet pays what was still missing. */
  ghost predicate PaysFor(b: Books, after: Books, h: HoldId, reference: string, amount: int) {
    && h in after.holds && after.holds[h].reference == reference && after.holds[h].captured == amount
    && Moves(b, after, ClearingCaptured, WalletAccount(after.holds[h].wallet), amount - TakenBefore(b, h))
    && forall k :: k in b.holds && k != h ==> k in after.holds && after.holds[k] == b.holds[k]
  }

  lemma CapturePays(t: Till, hold: HoldId, now: Time)
    requires TillSound(t) && hold in t.books.holds && MayCapture(t.books, now, hold, "", None)
    ensures var after := Step(t, now, CaptureAll(hold)).books;
            PaysFor(t.books, after, hold, t.books.holds[hold].reference, t.books.holds[hold].amount)
  {
    var after := Step(t, now, CaptureAll(hold)).books;
    CaptureIsExact(t.books, t.nextId, now, hold, "", None);
    CaptureAllCaptures(t, now, hold);
    StepKeepsLaws(t, now, CaptureAll(hold));
    OtherMoneyKeepsHolds(t, now, CaptureAll(hold));
  }

  ghost predicate IsItsHold(d: Desk, id: PeriodId, h: HoldId) {
    h in d.till.books.holds && d.till.books.holds[h].reference == PeriodReference(id)
  }

  /** Capturing the hold of a period: collected exactly when the capture may be made, refused otherwise. */
  lemma FinishIsExact(d: Desk, id: PeriodId, hold: HoldId, now: Time)
    requires Tidy(d) && id in d.periods && d.periods[id].amount != 0
    requires IsItsHold(d, id, hold) && (MayCapture(d.till.books, now, hold, "", None) ==> Fits(d, id, hold))
    ensures var (after, outcome) := FinishCharge(d, id, hold, now);
            if MayCapture(d.till.books, now, hold, "", None) then
              && outcome == Collected
              && PaysFor(d.till.books, after.till.books, hold, PeriodReference(id), d.periods[id].amount)
            else outcome.Refused? && after.till == d.till
  {
    HoldSettlesWhenItFits(d, id, hold, now);
    CaptureRefusals(d.till, now, hold);
    CaptureIsExact(d.till.books, d.till.nextId, now, hold, "", None);
    if MayCapture(d.till.books, now, hold, "", None) {
      CapturePays(d.till, hold, now);
    } else {
      MarkGoesThrough(d, id, SettlePeriod(d, id, Some(hold), now).1.why);
    }
  }

  /**
   A period can be collected when it costs nothing, or its subscription's wallet can give the hold it
   needs, and a hold taken for it earlier can still be captured or was captured already.
   */
  ghost predicate IsCollectable(d: Desk, id: PeriodId, now: Time)
    requires id in d.periods && d.periods[id].subscription in d.subscriptions
  {
    var p := d.periods[id];
    p.amount == 0
    || (&& MayAuthorize(d.till.books, now, d.subscriptions[p.subscription].wallet, p.amount, PeriodReference(id), None)
        && forall h :: IsItsHold(d, id, h) ==> MayCapture(d.till.books, now, h, "", None))
  }

  /** What a charge leaves at the till, by what it came to. */
  ghost predicate Pays(d: Desk, after: Desk, id: PeriodId, collected: bool)
    requires id in d.periods && d.periods[id].subscription in d.subscriptions
  {
    if !collected || d.periods[id].amount == 0 then after.till == d.till
    else
      exists h :: PaysFor(d.till.books, after.till.books, h, PeriodReference(id), d.periods[id].amount)
                  && (h !in d.till.books.holds ==>
                        after.till.books.holds[h].wallet == d.subscriptions[d.periods[id].subscription].wallet)
  }

  /** A hold taken for the period before: the charge goes on with it. */
  lemma RetriedCharge(d: Desk, id: PeriodId, h: HoldId, now: Time)
    requires Tidy(d) && id in d.periods && IsUnpaid(d.periods[id]) && d.periods[id].amount != 0
    requires IsItsHold(d, id, h) && !Foreign(d, id, now)
    ensures ChargePeriod(d, id, now, false) == FinishCharge(d, id, h, now)
  {
    AnsweredIsIdle(d.till, now, ChargeHold(d, id));
    NothingStagedCommits(d.till.books);
    assert DistinctHoldReferences(d.till.books);
  }

  /** The first hold of a period can always be captured at once. */
  lemma NewHoldPays(d: Desk, mid: Desk, id: PeriodId, h: HoldId, now: Time)
    requires Tidy(mid) && id in mid.periods && mid == d.(till := mid.till) && mid.periods[id].amount != 0
    requires IsItsHold(mid, id, h) && Fits(mid, id, h)
    requires h !in d.till.books.holds && OnlyHold(d.till.books, mid.till.books, h)
    requires mid.till.books.ledger == d.till.books.ledger
    requires var row := mid.till.books.holds[h]; row.status == Authorized && row.captured == 0 && row.expiresAt.None?
    requires mid.till.books.holds[h].wallet == d.subscriptions[d.periods[id].subscription].wallet
    ensures var (after, outcome) := FinishCharge(mid, id, h, now); outcome == Collected && Pays(d, after, id, true)
  {
    var (after, outcome) := FinishCharge(mid, id, h, now);
    assert SoundHold(mid.till.books, h);
    FinishIsExact(mid, id, h, now);
    assert PaysFor(d.till.books, after.till.books, h, PeriodReference(id), d.periods[id].amount);
    CapturePaysTheSameWallet(mid.till, h, now);
  }

  lemma CapturePaysTheSameWallet(t: Till, h: HoldId, now: Time)
    requires TillSound(t) && h in t.books.holds
    ensures h in Step(t, now, CaptureAll(h)).books.holds
            && Step(t, now, CaptureAll(h)).books.holds[h].wallet == t.books.holds[h].wallet
  {
    OtherMoneyKeepsHolds(t, now, CaptureAll(h));
  }

  lemma FreshHold(d: Desk, id: PeriodId, now: Time)
    requires Tidy(d) && id in d.periods && IsUnpaid(d.periods[id]) && d.periods[id].amount != 0
    requires (forall h :: !IsItsHold(d, id, h)) && IsCollectable(d, id, now)
    ensures var mid, h := d.(till := Step(d.till, now, ChargeHold(d, id))), d.till.nextId;
            && ChargePeriod(d, id, now, false) == FinishCharge(mid, id, h, now)
            && h !in d.till.books.holds && OnlyHold(d.till.books, mid.till.books, h) && IsItsHold(mid, id, h)
            && Fits(mid, id, h) && mid.till.books.ledger == d.till.books.ledger
            && var row := mid.till.books.holds[h];
               && row.status == Authorized && row.captured == 0 && row.expiresAt.None?
               && row.wallet == d.subscriptions[d.periods[id].subscription].wallet
  {
    var wallet := d.subscriptions[d.periods[id].subscription].wallet;
    assert !HoldReferenceTaken(d.till.books, PeriodReference(id)) by {
      if HoldReferenceTaken(d.till.books, PeriodReference(id)) {
        var h :| h in d.till.books.holds && d.till.books.holds[h].reference == PeriodReference(id);
        assert IsItsHold(d, id, h);
      }
    }
    AuthorizeIsExact(d.till.books, d.till.nextId, now, wallet, d.periods[id].amount, PeriodReference(id), None);
  }

  lemma FreshCharge(d: Desk, id: PeriodId, now: Time)
    requires Tidy(d) && id in d.periods && IsUnpaid(d.periods[id]) && d.periods[id].amount != 0
    requires (forall h :: !IsItsHold(d, id, h)) && IsCollectable(d, id, now)
    ensures var (after, outcome) := ChargePeriod(d, id, now, false); outcome == Collected && Pays(d, after, id, true)
  {
    FreshHold(d, id, now);
    HeldIsTidy(d, id, now);
    NewHoldPays(d, d.(till := Step(d.till, now, ChargeHold(d, id))), id, d.till.nextId, now);
  }

  /** Where no hold can be had the charge is refused. */
  lemma RefusedHold(d: Desk, id: PeriodId, now: Time)
    requires Tidy(d) && id in d.periods && IsUnpaid(d.periods[id]) && d.periods[id].amount != 0
    requires !MayAuthorize(d.till.books, now, d.subscriptions[d.periods[id].subscription].wallet, d.periods[id].amount,
                           PeriodReference(id), None)
    ensures var (after, outcome) := ChargePeriod(d, id, now, false); outcome.Refused? && after.till == d.till
  {
    var wallet := d.subscriptions[d.periods[id].subscription].wallet;
    AuthorizeIsExact(d.till.books, d.till.nextId, now, wallet, d.periods[id].amount, PeriodReference(id), None);
    AuthorizeRefusals(d.till, now, wallet, d.periods[id].amount, PeriodReference(id));
    var staged := StageAuthorize(d.till.books, now, d.till.nextId, wallet, d.periods[id].amount, PeriodReference(id),
                                 None);
    MarkGoesThrough(d, id, Perform(d.till.books, staged).error);
  }

  /**
   A charge that is not stopped by somebody else's hold collects an unpaid period exactly when it can
   be collected, and is refused otherwise. Collected, the period's one hold is captured for its whole
   amount and its wallet pays what was missing; refused, or free, no money moves.
   */
  lemma ChargeIsExact(d: Desk, id: PeriodId, now: Time)
    requires Tidy(d) && id in d.periods && IsUnpaid(d.periods[id]) && !Foreign(d, id, now)
    ensures var (after, outcome) := ChargePeriod(d, id, now, false);
            && (outcome == Collected <==> IsCollectable(d, id, now))
            && (outcome.Refused? <==> !IsCollectable(d, id, now))
            && Pays(d, after, id, outcome == Collected)
            && ShowsOnRows(d, after, id, outcome, now)
  {
    ChargeShowsOnRows(d, id, now, false);
    if d.periods[id].amount == 0 {
      FreeSettles(d, id, now);
    } else if h :| IsItsHold(d, id, h) {
      KnownCharge(d, id, h, now);
    } else if IsCollectable(d, id, now) {
      FreshCharge(d, id, now);
    } else {
      RefusedHold(d, id, now);
    }
  }

  /** With a hold there already, the period can be collected exactly when that hold can be captured. */
  lemma KnownIsCollectable(d: Desk, id: PeriodId, h: HoldId, now: Time)
    requires Tidy(d) && id in d.periods && d.periods[id].amount != 0 && IsItsHold(d, id, h)
    ensures IsCollectable(d, id, now) <==> MayCapture(d.till.books, now, h, "", None)
  {
    assert DistinctHoldReferences(d.till.books);
    assert HoldReferenceTaken(d.till.books, PeriodReference(id));
  }

  lemma CapturableFits(d: Desk, id: PeriodId, h: HoldId, now: Time)
    requires Tidy(d) && id in d.periods && IsItsHold(d, id, h) && !Foreign(d, id, now)
    requires MayCapture(d.till.books, now, h, "", None)
    ensures Fits(d, id, h)
  {
    CaptureIsExact(d.till.books, d.till.nextId, now, h, "", None);
    CaptureRefusals(d.till, now, h);
    ForeignIsTheHold(d, id, now, h);
  }

  lemma KnownCharge(d: Desk, id: PeriodId, h: HoldId, now: Time)
    requires Tidy(d) && id in d.periods && IsUnpaid(d.periods[id]) && d.periods[id].amount != 0
    requires IsItsHold(d, id, h) && !Foreign(d, id, now)
    ensures var (after, outcome) := ChargePeriod(d, id, now, false);
            && (outcome == Collected <==> IsCollectable(d, id, now))
            && (outcome.Refused? <==> !IsCollectable(d, id, now))
            && Pays(d, after, id, outcome == Collected)
  {
    RetriedCharge(d, id, h, now);
    KnownIsCollectable(d, id, h, now);
    if MayCapture(d.till.books, now, h, "", None) {
      CapturableFits(d, id, h, now);
    }
    FinishIsExact(d, id, h, now);
  }

  // ----- who is subscribed -----

  /** The subscriber is the same, and nobody's subscription comes back to life. */
  predicate Carries(before: Subscription, after: Subscription) {
    SameSubscriber(before, after) && (IsLive(after) ==> IsLive(before))
  }

  ghost predicate Carried(d: Desk, after: Desk) {
    && after.subscriptions.Keys == d.subscriptions.Keys && after.plans == d.plans
    && (forall s :: s in d.subscriptions ==> Carries(d.subscriptions[s], after.subscriptions[s]))
    && (forall w :: w in d.till.books.wallets ==>
          w in after.till.books.wallets && after.till.books.wallets[w] == d.till.books.wallets[w])
  }

  lemma SettleCarries(d: Desk, id: PeriodId, hold: HoldId, now: Time)
    requires TillSound(d.till) && id in d.periods && d.periods[id].subscription in d.subscriptions
    ensures Carried(d, SettlePeriod(d, id, Some(hold), now).0)
  {
    MoneyKeepsWallets(d.till, now, CaptureAll(hold));
  }

  lemma MarkCarries(d: Desk, id: PeriodId, why: Failure)
    requires id in d.periods && d.periods[id].subscription in d.subscriptions
    ensures Carried(d, MarkUncollectible(d, id, why).0)
  {
  }

  lemma FinishCarries(d: Desk, id: PeriodId, hold: HoldId, now: Time)
    requires TillSound(d.till) && id in d.periods && d.periods[id].subscription in d.subscriptions
    ensures Carried(d, FinishCharge(d, id, hold, now).0)
  {
    var (after, outcome) := SettlePeriod(d, id, Some(hold), now);
    SettleCarries(d, id, hold, now);
    if outcome.Refused? {
      MarkCarries(d, id, outcome.why);
    }
  }

  lemma CarriedOn(d: Desk, mid: Desk, after: Desk)
    requires Carried(d, mid) && Carried(mid, after)
    ensures Carried(d, after)
  {
  }

  /** The hold is taken, and what follows carries everybody along. */
  lemma HeldCarries(d: Desk, mid: Desk, id: PeriodId, hold: HoldId, now: Time)
    requires Billed(d) && id in d.periods && d.periods[id].subscription in d.subscriptions
    requires mid == d.(till := Step(d.till, now, ChargeHold(d, id)))
    ensures Carried(d, mid) && Carried(d, FinishCharge(mid, id, hold, now).0)
  {
    MoneyKeepsWallets(d.till, now, ChargeHold(d, id));
    StepKeepsLaws(d.till, now, ChargeHold(d, id));
    FinishCarries(mid, id, hold, now);
    CarriedOn(d, mid, FinishCharge(mid, id, hold, now).0);
  }

  lemma ChargeCarries(d: Desk, id: PeriodId, now: Time, crash: bool)
    requires Billed(d) && Filed(d)
    ensures Carried(d, ChargePeriod(d, id, now, crash).0)
  {
    if id in d.periods && IsUnpaid(d.periods[id]) && d.periods[id].amount != 0 {
      var p := d.periods[id];
      var staged := StageAuthorize(d.till.books, now, d.till.nextId, d.subscriptions[p.subscription].wallet,
                                   p.amount, PeriodReference(id), None);
      match Perform(d.till.books, staged)
      case Err(e) => MarkCarries(d, id, e);
      case Ok(held) =>
        HeldCarries(d, d.(till := Step(d.till, now, ChargeHold(d, id))), id, held.0, now);
    }
  }

  /** Everybody pays from a wallet of their own, and has one live subscription to a plan at most. */
  ghost predicate Owned(d: Desk) {
    && (forall s :: s in d.subscriptions ==>
          && d.subscriptions[s].wallet in d.till.books.wallets
          && d.till.books.wallets[d.subscriptions[s].wallet].owner == d.subscriptions[s].owner)
    && (forall s, t :: s in d.subscriptions && t in d.subscriptions && Rivals(d.subscriptions[s], d.subscriptions[t])
          ==> s == t)
  }

  predicate Rivals(s: Subscription, t: Subscription) {
    IsLive(s) && IsLive(t) && s.owner == t.owner && s.plan == t.plan
  }

  lemma CarriedStaysOwned(d: Desk, after: Desk)
    requires Owned(d) && Carried(d, after)
    ensures Owned(after)
  {
    forall s, t | s in after.subscriptions && t in after.subscriptions
                  && Rivals(after.subscriptions[s], after.subscriptions[t])
      ensures s == t
    {
      assert Rivals(d.subscriptions[s], d.subscriptions[t]);
    }
  }

  lemma FirstIsOwned(d: Desk, owner: string, plan: PlanId, wallet: WalletId, startsAt: Time, endsAt: Time, now: Time)
    requires Owned(d) && Filed(d) && MaySubscribe(d, owner, plan, wallet)
    ensures Owned(WithFirst(d, NewRow(owner, plan, wallet, now), startsAt, endsAt))
  {
  }

  lemma SubscribeKeepsOwned(d: Desk, owner: string, plan: PlanId, wallet: WalletId, startsAt: Time, now: Time,
      crash: bool)
    requires Owned(d) && Billed(d) && Timeline(d)
    ensures Owned(Subscribe(d, owner, plan, wallet, startsAt, now, crash).0)
  {
    SubscribeCharges(d, owner, plan, wallet, startsAt, now, crash);
    if Subscribe(d, owner, plan, wallet, startsAt, now, crash) != (d, Threw) {
      var end := AdvanceInterval(startsAt, d.plans[plan].interval, d.plans[plan].count).value;
      var begun := WithFirst(d, NewRow(owner, plan, wallet, now), startsAt, end);
      FirstIsOwned(d, owner, plan, wallet, startsAt, end, now);
      InsertedIsBilled(d, begun, d.nextId + 1);
      ChargeCarries(begun, d.nextId + 1, now, crash);
      CarriedStaysOwned(begun, ChargePeriod(begun, d.nextId + 1, now, crash).0);
    }
  }

  lemma BegunCarries(d: Desk, begun: Desk, id: PeriodId, now: Time, crash: bool)
    requires Billed(d) && Carried(d, begun) && begun.till == d.till && Shaped(begun) && Filed(begun)
    requires id !in d.periods && id in begun.periods && begun.periods == d.periods[id := begun.periods[id]]
             && begun.periods[id].status == Pending
    ensures Carried(d, ChargePeriod(begun, id, now, crash).0)
  {
    InsertedIsBilled(d, begun, id);
    ChargeCarries(begun, id, now, crash);
    CarriedOn(d, begun, ChargePeriod(begun, id, now, crash).0);
  }

  lemma RenewCarries(d: Desk, s: SubscriptionId, now: Time, crash: bool)
    requires Billed(d) && Timeline(d)
    ensures Carried(d, RenewOne(d, s, now, crash).0)
  {
    if DueForRenewal(d, s, now) {
      RenewalInserts(d, s, now, crash);
      if NextEnd(d, s).Ok? {
        BegunCarries(d, WithNext(d, s, Latest(d.periods, s).value, NextEnd(d, s).value), d.nextId, now, crash);
      }
    } else {
      IdleCarries(d, s, now, crash);
    }
  }

  lemma IdleCarries(d: Desk, s: SubscriptionId, now: Time, crash: bool)
    requires Timeline(d) && !DueForRenewal(d, s, now)
    ensures Carried(d, RenewOne(d, s, now, crash).0)
  {
  }

  lemma CancelCarries(d: Desk, s: SubscriptionId, reason: string, now: Time)
    ensures Carried(d, Cancel(d, s, reason, now).0)
  {
  }

  lemma StepKeepsOwned(d: Desk, now: Time, c: Subscriptions.Command)
    requires Owned(d) && Billed(d) && Timeline(d)
    ensures Owned(DeskStep(d, now, c))
  {
    match c
    case MoneyWork(command) => MoneyKeepsWallets(d.till, now, command);
    case SubscribeTo(owner, plan, wallet, startsAt, crash) =>
      SubscribeKeepsOwned(d, owner, plan, wallet, startsAt, now, crash);
    case Charge(period, crash) =>
      ChargeCarries(d, period, now, crash);
      CarriedStaysOwned(d, DeskStep(d, now, c));
    case CancelSubscription(s, reason) =>
      CancelCarries(d, s, reason, now);
      CarriedStaysOwned(d, DeskStep(d, now, c));
    case Renew(s, crash) =>
      RenewCarries(d, s, now, crash);
      CarriedStaysOwned(d, DeskStep(d, now, c));
    case _ =>
  }

  /** After every run: each subscription is paid from its owner's wallet, and nobody has two to one plan. */
  lemma {:induction false} EveryRunIsOwned(log: seq<Subscriptions.Timed>)
    ensures Owned(RunDesk(log))
  {
    if log != [] {
      EveryRunIsOwned(log[..|log| - 1]);
      EveryRunIsBilled(log[..|log| - 1]);
      StepKeepsOwned(RunDesk(log[..|log| - 1]), log[|log| - 1].at, log[|log| - 1].command);
    }
  }

  // ----- plans -----

  predicate IsRetired(d: Desk, plan: PlanId) {
    plan in d.plans && d.plans[plan].status == Retired
  }

  lemma SubscribeKeepsPlans(d: Desk, owner: string, plan: PlanId, wallet: WalletId, startsAt: Time, now: Time,
      crash: bool)
    requires Timeline(d)
    ensures Subscribe(d, owner, plan, wallet, startsAt, now, crash).0.plans == d.plans
  {
    SubscribeCharges(d, owner, plan, wallet, startsAt, now, crash);
    if Subscribe(d, owner, plan, wallet, startsAt, now, crash) != (d, Threw) {
      var end := AdvanceInterval(startsAt, d.plans[plan].interval, d.plans[plan].count).value;
      ChargeMovesNothing(WithFirst(d, NewRow(owner, plan, wallet, now), startsAt, end), d.nextId + 1, now, crash);
    }
  }

  lemma RetiredStays(d: Desk, now: Time, c: Subscriptions.Command, plan: PlanId)
    requires Billed(d) && Timeline(d) && IsRetired(d, plan)
    ensures IsRetired(DeskStep(d, now, c), plan)
  {
    match c
    case SubscribeTo(owner, k, wallet, startsAt, crash) =>
      SubscribeKeepsPlans(d, owner, k, wallet, startsAt, now, crash);
    case Charge(period, crash) => ChargeMovesNothing(d, period, now, crash);
    case CancelSubscription(s, reason) => CancelMovesNothing(d, s, reason, now);
    case Renew(s, crash) => RenewCarries(d, s, now, crash);
    case _ =>
  }

  /** A plan that was retired takes nobody any more, however a run goes on. */
  lemma {:induction false} RetiredForEver(log: seq<Subscriptions.Timed>, at: Time, plan: PlanId,
      later: seq<Subscriptions.Timed>, owner: string, wallet: WalletId, startsAt: Time, now: Time, crash: bool)
    requires plan in RunDesk(log).plans
    ensures var after := RunFrom(DeskStep(RunDesk(log), at, RetirePlan(plan)), later);
            && Billed(after) && Timeline(after) && IsRetired(after, plan)
            && Subscribe(after, owner, plan, wallet, startsAt, now, crash) == (after, Threw)
  {
    EveryRunIsBilled(log);
    if later == [] {
      StepKeepsBilled(RunDesk(log), at, RetirePlan(plan));
      StepKeepsTimeline(RunDesk(log), at, RetirePlan(plan));
    } else {
      var shorter, last := later[..|later| - 1], later[|later| - 1];
      RetiredForEver(log, at, plan, shorter, owner, wallet, startsAt, now, crash);
      var mid := RunFrom(DeskStep(RunDesk(log), at, RetirePlan(plan)), shorter);
      StepKeepsBilled(mid, last.at, last.command);
      StepKeepsTimeline(mid, last.at, last.command);
      RetiredStays(mid, last.at, last.command, plan);
    }
  }
}
