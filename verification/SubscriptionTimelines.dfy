/**
 Coverage: over every run a subscription's periods are numbered 1 to n, each starts exactly where
 the one before it ended, and at most one covers any instant.
 */
module SubscriptionTimelines {
  import opened Common
  import opened Calendar
  import opened Money
  import opened MoneyRuns
  import opened Subscriptions

  /** The period before this one, ending where this one starts. */
  ghost predicate Precedes(periods: Periods, q: PeriodId, p: PeriodId) {
    && q in periods && p in periods
    && periods[q].subscription == periods[p].subscription
    && periods[q].sequence + 1 == periods[p].sequence
    && periods[q].endsAt == periods[p].startsAt
  }

  predicate SameNumber(p: Period, q: Period) {
    p.subscription == q.subscription && p.sequence == q.sequence
  }

  ghost predicate Numbered(periods: Periods) {
    && (forall p :: p in periods ==> periods[p].sequence >= 1 && periods[p].startsAt < periods[p].endsAt)
    && (forall p, q :: p in periods && q in periods && SameNumber(periods[p], periods[q]) ==> p == q)
  }

  ghost predicate HasPrevious(periods: Periods, p: PeriodId) {
    exists q :: Precedes(periods, q, p)
  }

  ghost predicate Contiguous(periods: Periods) {
    && Numbered(periods)
    && (forall p {:trigger HasPrevious(periods, p)} ::
        p in periods && periods[p].sequence > 1 ==> HasPrevious(periods, p))
  }

  ghost predicate Shaped(d: Desk) {
    && (forall s :: s in d.subscriptions ==> SubscriptionShape(d.subscriptions[s]))
    && (forall p :: p in d.periods ==> PeriodShape(d.periods[p]))
  }

  ghost predicate HasPeriod(periods: Periods, s: SubscriptionId) {
    exists p :: p in periods && periods[p].subscription == s
  }

  ghost predicate Filed(d: Desk) {
    && (forall p :: p in d.periods ==> d.periods[p].subscription in d.subscriptions && p < d.nextId)
    && (forall s :: s in d.subscriptions ==> s < d.nextId)
    && (forall s {:trigger HasPeriod(d.periods, s)} :: s in d.subscriptions ==> HasPeriod(d.periods, s))
    && (forall k :: k in d.plans ==> k < d.nextId)
  }

  ghost predicate Timeline(d: Desk) {
    Contiguous(d.periods) && Shaped(d) && Filed(d)
  }

  // ----- what a timeline means -----

  /** Later numbers start no earlier than earlier ones end. */
  lemma {:induction false} LaterStartsLater(periods: Periods, p: PeriodId, q: PeriodId)
    requires Contiguous(periods) && p in periods && q in periods
    requires periods[p].subscription == periods[q].subscription && periods[p].sequence < periods[q].sequence
    ensures periods[p].endsAt <= periods[q].startsAt
    decreases periods[q].sequence
  {
    assert HasPrevious(periods, q);
    var r :| Precedes(periods, r, q);
    if periods[r].sequence > periods[p].sequence {
      LaterStartsLater(periods, p, r);
    } else {
      assert SameNumber(periods[r], periods[p]);
    }
  }

  lemma AtMostOneCovers(periods: Periods, p: PeriodId, q: PeriodId, at: Time)
    requires Contiguous(periods) && p in periods && q in periods && periods[p].subscription == periods[q].subscription
    requires Covers(periods[p], at) && Covers(periods[q], at)
    ensures p == q
  {
    if periods[p].sequence < periods[q].sequence {
      LaterStartsLater(periods, p, q);
    } else if periods[q].sequence < periods[p].sequence {
      LaterStartsLater(periods, q, p);
    }
  }

  /** Every number up to a period's own is taken. */
  lemma {:induction false} NoNumberIsMissing(periods: Periods, p: PeriodId, k: int) returns (q: PeriodId)
    requires Contiguous(periods) && p in periods && 1 <= k <= periods[p].sequence
    ensures q in periods && periods[q].subscription == periods[p].subscription && periods[q].sequence == k
    decreases periods[p].sequence
  {
    q := p;
    if k < periods[p].sequence {
      assert HasPrevious(periods, p);
      var r :| Precedes(periods, r, p);
      q := NoNumberIsMissing(periods, r, k);
    }
  }

  /** Every instant from the first period's start to the latest one's end is covered. */
  lemma {:induction false} NoGap(periods: Periods, first: PeriodId, last: PeriodId, at: Time) returns (q: PeriodId)
    requires Contiguous(periods) && first in periods && last in periods
    requires periods[first].subscription == periods[last].subscription && periods[first].sequence == 1
    requires periods[first].startsAt <= at < periods[last].endsAt
    ensures q in periods && periods[q].subscription == periods[last].subscription && Covers(periods[q], at)
    decreases periods[last].sequence
  {
    q := last;
    if at < periods[last].startsAt {
      assert periods[last].sequence != 1 by {
        assert SameNumber(periods[first], periods[last]) ==> first == last;
      }
      assert HasPrevious(periods, last);
      var r :| Precedes(periods, r, last);
      q := NoGap(periods, first, r, at);
    }
  }

  // ----- the latest period -----

  lemma {:induction false} LatestAmong(periods: Periods, s: SubscriptionId, ids: set<PeriodId>) returns (p: PeriodId)
    requires ids <= periods.Keys && exists q :: q in ids && periods[q].subscription == s
    ensures p in ids && periods[p].subscription == s
    ensures forall q :: q in ids && periods[q].subscription == s ==> periods[q].sequence <= periods[p].sequence
    decreases |ids|
  {
    p :| p in ids && periods[p].subscription == s;
    var rest := ids - {p};
    if exists q :: q in rest && periods[q].subscription == s {
      var r := LatestAmong(periods, s, rest);
      if periods[r].sequence > periods[p].sequence {
        p := r;
      }
    }
  }

  lemma LatestExists(periods: Periods, s: SubscriptionId)
    requires HasPeriod(periods, s)
    ensures Latest(periods, s).Some? && IsLatest(periods, s, Latest(periods, s).value)
  {
    var p := LatestAmong(periods, s, periods.Keys);
    assert IsLatest(periods, s, p);
  }

  lemma LatestIs(periods: Periods, s: SubscriptionId, p: PeriodId)
    requires Numbered(periods) && IsLatest(periods, s, p)
    ensures Latest(periods, s) == Some(p)
  {
  }

  // ----- what commands do to a timeline -----

  /** The same period, whatever became of its money. */
  predicate SamePlace(p: Period, q: Period) {
    && p.subscription == q.subscription && p.sequence == q.sequence
    && p.startsAt == q.startsAt && p.endsAt == q.endsAt
    && p.currency == q.currency && p.amount == q.amount
  }

  ghost predicate Unmoved(before: Desk, after: Desk) {
    && after.periods.Keys == before.periods.Keys
    && (forall p :: p in before.periods ==> SamePlace(after.periods[p], before.periods[p]))
    && after.subscriptions.Keys == before.subscriptions.Keys
    && after.plans == before.plans
    && after.nextId == before.nextId
  }

  lemma SamePlacesAreContiguous(before: Periods, after: Periods)
    requires Contiguous(before) && after.Keys == before.Keys
    requires forall p :: p in before ==> SamePlace(after[p], before[p])
    ensures Contiguous(after)
  {
    forall p, q | p in after && q in after && SameNumber(after[p], after[q])
      ensures p == q
    {
      assert SameNumber(before[p], before[q]);
    }
    forall p | p in after && after[p].sequence > 1
      ensures HasPrevious(after, p)
    {
      assert HasPrevious(before, p);
      var q :| Precedes(before, q, p);
      assert Precedes(after, q, p);
    }
  }

  lemma UnmovedStaysFiled(before: Desk, after: Desk)
    requires Filed(before) && Unmoved(before, after)
    ensures Filed(after)
  {
    forall s | s in after.subscriptions
      ensures HasPeriod(after.periods, s)
    {
      assert HasPeriod(before.periods, s);
      var p :| p in before.periods && before.periods[p].subscription == s;
      assert p in after.periods && after.periods[p].subscription == s;
    }
  }

  lemma UnmovedKeepsTimeline(before: Desk, after: Desk)
    requires Timeline(before) && Unmoved(before, after) && Shaped(after)
    ensures Timeline(after)
  {
    SamePlacesAreContiguous(before.periods, after.periods);
    UnmovedStaysFiled(before, after);
  }

  lemma WriteBothInPlace(d: Desk, id: PeriodId, p: Period, s: Subscription)
    requires Shaped(d) && id in d.periods && SamePlace(p, d.periods[id]) && p.subscription in d.subscriptions
    ensures var after := WriteBoth(d, id, p, s);
            after.Some? ==> Unmoved(d, after.value) && Shaped(after.value)
  {
  }

  /** Collecting a period, however it ends, moves no period. */
  lemma SettleMovesNothing(d: Desk, id: PeriodId, hold: Option<HoldId>, now: Time)
    requires Shaped(d) && id in d.periods && d.periods[id].subscription in d.subscriptions
    ensures Unmoved(d, SettlePeriod(d, id, hold, now).0) && Shaped(SettlePeriod(d, id, hold, now).0)
  {
    var s := d.subscriptions[d.periods[id].subscription];
    var settled := SettledAs(d.periods[id], hold, now);
    WriteBothInPlace(d, id, settled, RevivedBy(s));
    if hold.Some? {
      var paid := d.(till := Step(d.till, now, CaptureAll(hold.value)));
      WriteBothInPlace(paid, id, settled, RevivedBy(s));
    }
  }

  lemma MarkMovesNothing(d: Desk, id: PeriodId, why: Failure)
    requires Shaped(d) && id in d.periods && d.periods[id].subscription in d.subscriptions
    ensures Unmoved(d, MarkUncollectible(d, id, why).0) && Shaped(MarkUncollectible(d, id, why).0)
  {
    WriteBothInPlace(d, id, UncollectibleAs(d.periods[id], why),
                     PastDueAs(d.subscriptions[d.periods[id].subscription]));
  }

  lemma FinishMovesNothing(d: Desk, id: PeriodId, hold: HoldId, now: Time)
    requires Shaped(d) && id in d.periods && d.periods[id].subscription in d.subscriptions
    ensures Unmoved(d, FinishCharge(d, id, hold, now).0) && Shaped(FinishCharge(d, id, hold, now).0)
  {
    SettleMovesNothing(d, id, Some(hold), now);
    var outcome := SettlePeriod(d, id, Some(hold), now).1;
    if outcome.Refused? {
      MarkMovesNothing(d, id, outcome.why);
    }
  }

  lemma ChargeMovesNothing(d: Desk, id: PeriodId, now: Time, crash: bool)
    requires Shaped(d)
    ensures Unmoved(d, ChargePeriod(d, id, now, crash).0) && Shaped(ChargePeriod(d, id, now, crash).0)
  {
    if id in d.periods && d.periods[id].subscription in d.subscriptions {
      var p := d.periods[id];
      SettleMovesNothing(d, id, None, now);
      var staged := StageAuthorize(d.till.books, now, d.till.nextId, d.subscriptions[p.subscription].wallet,
                                   p.amount, PeriodReference(id), None);
      match Perform(d.till.books, staged)
      case Err(e) => MarkMovesNothing(d, id, e);
      case Ok(held) =>
        var mid := d.(till := Step(d.till, now, ChargeHold(d, id)));
        FinishMovesNothing(mid, id, held.0, now);
    }
  }

  lemma InsertKeepsContiguous(periods: Periods, id: PeriodId, p: Period)
    requires Contiguous(periods) && id !in periods && p.sequence >= 1 && p.startsAt < p.endsAt
    requires forall q :: q in periods ==> !SameNumber(periods[q], p)
    requires p.sequence > 1 ==> HasPrevious(periods[id := p], id)
    ensures Contiguous(periods[id := p])
  {
    var after := periods[id := p];
    forall q | q in after && after[q].sequence > 1
      ensures HasPrevious(after, q)
    {
      if q != id {
        assert HasPrevious(periods, q);
        var r :| Precedes(periods, r, q);
        assert Precedes(after, r, q);
      }
    }
  }

  /** Adding a period to a subscription that has one, or the first one together with its subscription. */
  lemma InsertKeepsFiled(d: Desk, id: PeriodId, p: Period, row: Subscription, next: nat)
    requires Filed(d) && id !in d.periods && id < next && p.subscription < next && d.nextId <= next
    ensures Filed(d.(periods := d.periods[id := p], subscriptions := d.subscriptions[p.subscription := row],
                     nextId := next))
  {
    var after := d.(periods := d.periods[id := p], subscriptions := d.subscriptions[p.subscription := row],
                    nextId := next);
    assert after.periods[id].subscription == p.subscription;
    forall t | t in after.subscriptions
      ensures HasPeriod(after.periods, t)
    {
      if t != p.subscription {
        assert HasPeriod(d.periods, t);
        var q :| q in d.periods && d.periods[q].subscription == t;
        assert q in after.periods && after.periods[q].subscription == t;
      }
    }
  }

  /** A subscription begun with its first period. */
  lemma FirstPeriodKeepsTimeline(d: Desk, s: SubscriptionId, p: PeriodId, first: Period, row: Subscription)
    requires Timeline(d) && s == d.nextId && p == d.nextId + 1
    requires first.subscription == s && first.sequence == 1 && PeriodShape(first) && SubscriptionShape(row)
    ensures Timeline(d.(periods := d.periods[p := first], subscriptions := d.subscriptions[s := row],
                        nextId := d.nextId + 2))
  {
    InsertKeepsContiguous(d.periods, p, first);
    InsertKeepsFiled(d, p, first, row, d.nextId + 2);
  }

  /** Whether this is the period that comes right after the latest one. */
  ghost predicate Follows(d: Desk, s: SubscriptionId, latest: PeriodId, next: Period) {
    && s in d.subscriptions && IsLatest(d.periods, s, latest)
    && next.subscription == s
    && next.sequence == d.periods[latest].sequence + 1
    && next.startsAt == d.periods[latest].endsAt
  }

  lemma NextPeriodKeepsTimeline(d: Desk, s: SubscriptionId, latest: PeriodId, next: Period, row: Subscription)
    requires Timeline(d) && Follows(d, s, latest, next) && PeriodShape(next) && SubscriptionShape(row)
    ensures Timeline(d.(periods := d.periods[d.nextId := next], subscriptions := d.subscriptions[s := row],
                        nextId := d.nextId + 1))
  {
    assert Precedes(d.periods[d.nextId := next], latest, d.nextId);
    InsertKeepsContiguous(d.periods, d.nextId, next);
    InsertKeepsFiled(d, d.nextId, next, row, d.nextId + 1);
  }

  lemma EndsBeforeTheLatest(d: Desk, s: SubscriptionId, latest: PeriodId, q: PeriodId)
    requires Contiguous(d.periods) && IsLatest(d.periods, s, latest) && q in d.periods && d.periods[q].subscription == s
    ensures d.periods[q].endsAt <= d.periods[latest].endsAt
  {
    if d.periods[q].sequence < d.periods[latest].sequence {
      LaterStartsLater(d.periods, q, latest);
    } else {
      assert SameNumber(d.periods[q], d.periods[latest]);
    }
  }

  /** The store's own rules never stand in the way of a renewal. */
  lemma RenewalIsWritable(d: Desk, s: SubscriptionId, latest: PeriodId, next: Period)
    requires Timeline(d) && Follows(d, s, latest, next) && PeriodShape(next) && next.status == Pending
    ensures WriteBoth(d, d.nextId, next, d.subscriptions[s])
         == Some(d.(periods := d.periods[d.nextId := next], subscriptions := d.subscriptions[s := d.subscriptions[s]]))
  {
    forall q | q in d.periods && d.periods[q].subscription == s
      ensures !Overlap(next, d.periods[q]) && d.periods[q].sequence != next.sequence
    {
      EndsBeforeTheLatest(d, s, latest, q);
    }
  }

  /** Nor of a new subscription. */
  lemma FirstPeriodIsWritable(d: Desk, s: SubscriptionId, p: PeriodId, first: Period, row: Subscription)
    requires Filed(d) && s >= d.nextId && first.subscription == s && PeriodShape(first) && first.status == Pending
             && SubscriptionShape(row)
    ensures WriteBoth(d, p, first, row)
            == Some(d.(periods := d.periods[p := first], subscriptions := d.subscriptions[s := row]))
  {
  }

  lemma RowChangeMovesNothing(d: Desk, s: SubscriptionId, row: Subscription)
    requires Shaped(d) && s in d.subscriptions && SubscriptionShape(row)
    ensures Unmoved(d, d.(subscriptions := d.subscriptions[s := row]))
            && Shaped(d.(subscriptions := d.subscriptions[s := row]))
  {
  }

  lemma CancelMovesNothing(d: Desk, s: SubscriptionId, reason: string, now: Time)
    requires Shaped(d) && Filed(d)
    ensures Unmoved(d, Cancel(d, s, reason, now).0) && Shaped(Cancel(d, s, reason, now).0)
  {
    if reason != "" && s in d.subscriptions && d.subscriptions[s].status != Ended
        && d.subscriptions[s].status != Cancelled {
      var current, row := Covering(d.periods, s, now), d.subscriptions[s];
      var unpaid := current.Some? && d.periods[current.value].status != Settled;
      var endedAt := if current.Some? && !unpaid then d.periods[current.value].endsAt else now;
      var cancelled := row.(status := Cancelled, cancelledAt := Some(now), cancelReason := reason,
                            endedAt := Some(endedAt));
      if unpaid {
        var waived := d.periods[current.value].(status := Waived, hold := None, settledAt := None, refusal := None);
        WriteBothInPlace(d, current.value, waived, cancelled);
      } else {
        RowChangeMovesNothing(d, s, cancelled);
      }
    }
  }

  lemma ExpiryKeepsTimeline(d: Desk, s: SubscriptionId, now: Time)
    requires Timeline(d) && s in d.subscriptions
    ensures Timeline(d.(subscriptions := d.subscriptions[s := ExpiredAs(d.subscriptions[s], now)]))
  {
    UnmovedKeepsTimeline(d, d.(subscriptions := d.subscriptions[s := ExpiredAs(d.subscriptions[s], now)]));
  }

  lemma ChargeKeepsTimeline(d: Desk, id: PeriodId, now: Time, crash: bool)
    requires Timeline(d)
    ensures Timeline(ChargePeriod(d, id, now, crash).0)
  {
    ChargeMovesNothing(d, id, now, crash);
    UnmovedKeepsTimeline(d, ChargePeriod(d, id, now, crash).0);
  }

  /** The desk with the next period inserted, before it is charged. */
  ghost function WithNext(d: Desk, s: SubscriptionId, latest: PeriodId, endsAt: Time): Desk
    requires s in d.subscriptions && d.subscriptions[s].plan in d.plans && latest in d.periods
  {
    var next := NextOf(d, s, latest, endsAt);
    d.(periods := d.periods[d.nextId := next], subscriptions := d.subscriptions[s := d.subscriptions[s]],
       nextId := d.nextId + 1)
  }

  ghost function NextOf(d: Desk, s: SubscriptionId, latest: PeriodId, endsAt: Time): Period
    requires s in d.subscriptions && d.subscriptions[s].plan in d.plans && latest in d.periods
  {
    NewPeriod(s, d.plans[d.subscriptions[s].plan], d.periods[latest].sequence + 1, d.periods[latest].endsAt, endsAt)
  }

  /** A subscription the sweep has to renew now, and what its next period would end at. */
  ghost predicate DueForRenewal(d: Desk, s: SubscriptionId, now: Time) {
    && s in d.subscriptions && IsLive(d.subscriptions[s]) && d.subscriptions[s].plan in d.plans
    && Latest(d.periods, s).Some? && d.periods[Latest(d.periods, s).value].endsAt <= now
  }

  ghost function NextEnd(d: Desk, s: SubscriptionId): Result<Time, InvalidInterval>
    requires s in d.subscriptions && d.subscriptions[s].plan in d.plans && Latest(d.periods, s).Some?
  {
    var plan := d.plans[d.subscriptions[s].plan];
    AdvanceInterval(d.periods[Latest(d.periods, s).value].endsAt, plan.interval, plan.count)
  }

  /** A renewal that is due either leaves the range of dates or inserts the next period and charges it. */
  lemma RenewalInserts(d: Desk, s: SubscriptionId, now: Time, crash: bool)
    requires Timeline(d) && DueForRenewal(d, s, now)
    ensures NextEnd(d, s).Err? ==> RenewOne(d, s, now, crash) == (d, Threw)
    ensures NextEnd(d, s).Ok? ==>
              var latest := Latest(d.periods, s).value;
              && Timeline(WithNext(d, s, latest, NextEnd(d, s).value))
              && d.periods[latest].endsAt < NextEnd(d, s).value
              && RenewOne(d, s, now, crash)
                  == ChargePeriod(WithNext(d, s, latest, NextEnd(d, s).value), d.nextId, now, crash)
  {
    if NextEnd(d, s).Ok? {
      NextIsInserted(d, s, now, NextEnd(d, s).value);
    }
  }

  lemma NextIsInserted(d: Desk, s: SubscriptionId, now: Time, endsAt: Time)
    requires Timeline(d) && DueForRenewal(d, s, now) && NextEnd(d, s) == Ok(endsAt)
    ensures var latest := Latest(d.periods, s).value;
            && d.periods[latest].endsAt < endsAt
            && Timeline(WithNext(d, s, latest, endsAt))
            && WriteBoth(d, d.nextId, NextOf(d, s, latest, endsAt), d.subscriptions[s])
               == Some(WithNext(d, s, latest, endsAt).(nextId := d.nextId))
  {
    assert HasPeriod(d.periods, s);
    LatestExists(d.periods, s);
    var latest := Latest(d.periods, s).value;
    var plan := d.plans[d.subscriptions[s].plan];
    EndIsAfterStart(d.periods[latest].endsAt, plan.interval, plan.count);
    NextPeriodKeepsTimeline(d, s, latest, NextOf(d, s, latest, endsAt), d.subscriptions[s]);
    RenewalIsWritable(d, s, latest, NextOf(d, s, latest, endsAt));
  }

  lemma RenewKeepsTimeline(d: Desk, s: SubscriptionId, now: Time, crash: bool)
    requires Timeline(d)
    ensures Timeline(RenewOne(d, s, now, crash).0)
  {
    if DueForRenewal(d, s, now) {
      RenewalInserts(d, s, now, crash);
      if NextEnd(d, s).Ok? {
        ChargeKeepsTimeline(WithNext(d, s, Latest(d.periods, s).value, NextEnd(d, s).value), d.nextId, now, crash);
      }
    } else if s in d.subscriptions && d.subscriptions[s].status == Cancelled {
      ExpiryKeepsTimeline(d, s, now);
    }
  }

  function NewRow(owner: string, plan: PlanId, wallet: WalletId, now: Time): Subscription {
    Subscription(owner, plan, wallet, Running, now, None, "", None)
  }

  /** The desk with a new subscription and its first period, before it is charged. */
  function WithFirst(d: Desk, row: Subscription, startsAt: Time, endsAt: Time): Desk
    requires row.plan in d.plans
  {
    d.(periods := d.periods[d.nextId + 1 := NewPeriod(d.nextId, d.plans[row.plan], 1, startsAt, endsAt)],
       subscriptions := d.subscriptions[d.nextId := row],
       nextId := d.nextId + 2)
  }

  lemma SubscribeInserts(d: Desk, owner: string, plan: PlanId, wallet: WalletId, startsAt: Time, endsAt: Time,
      now: Time)
    requires Timeline(d) && plan in d.plans && startsAt < endsAt
    ensures var row := NewRow(owner, plan, wallet, now);
            var first := NewPeriod(d.nextId, d.plans[plan], 1, startsAt, endsAt);
            && Timeline(WithFirst(d, row, startsAt, endsAt))
            && WriteBoth(d, d.nextId + 1, first, row)
               == Some(WithFirst(d, row, startsAt, endsAt).(nextId := d.nextId))
  {
    var row := NewRow(owner, plan, wallet, now);
    var first := NewPeriod(d.nextId, d.plans[plan], 1, startsAt, endsAt);
    FirstPeriodKeepsTimeline(d, d.nextId, d.nextId + 1, first, row);
    FirstPeriodIsWritable(d, d.nextId, d.nextId + 1, first, row);
  }

  /** A new subscription either is refused before it is written, or is written and charged. */
  lemma SubscribeCharges(d: Desk, owner: string, plan: PlanId, wallet: WalletId, startsAt: Time, now: Time, crash: bool)
    requires Timeline(d)
    ensures var outcome := Subscribe(d, owner, plan, wallet, startsAt, now, crash);
            outcome == (d, Threw)
            || (MaySubscribe(d, owner, plan, wallet)
                && AdvanceInterval(startsAt, d.plans[plan].interval, d.plans[plan].count).Ok?
                && var begun := WithFirst(d, NewRow(owner, plan, wallet, now), startsAt,
                                          AdvanceInterval(startsAt, d.plans[plan].interval, d.plans[plan].count).value);
                   Timeline(begun) && outcome == ChargePeriod(begun, d.nextId + 1, now, crash))
  {
    if MaySubscribe(d, owner, plan, wallet) {
      var end := AdvanceInterval(startsAt, d.plans[plan].interval, d.plans[plan].count);
      if end.Ok? {
        EndIsAfterStart(startsAt, d.plans[plan].interval, d.plans[plan].count);
        SubscribeInserts(d, owner, plan, wallet, startsAt, end.value, now);
      }
    }
  }

  lemma SubscribeKeepsTimeline(d: Desk, owner: string, plan: PlanId, wallet: WalletId, startsAt: Time, now: Time,
      crash: bool)
    requires Timeline(d)
    ensures Timeline(Subscribe(d, owner, plan, wallet, startsAt, now, crash).0)
  {
    SubscribeCharges(d, owner, plan, wallet, startsAt, now, crash);
    if Subscribe(d, owner, plan, wallet, startsAt, now, crash) != (d, Threw) {
      var end := AdvanceInterval(startsAt, d.plans[plan].interval, d.plans[plan].count).value;
      ChargeKeepsTimeline(WithFirst(d, NewRow(owner, plan, wallet, now), startsAt, end), d.nextId + 1, now, crash);
    }
  }

  lemma StepKeepsTimeline(d: Desk, now: Time, c: Subscriptions.Command)
    requires Timeline(d)
    ensures Timeline(DeskStep(d, now, c))
  {
    match c
    case MoneyWork(command) => UnmovedKeepsTimeline(d, DeskStep(d, now, c));
    case OfferPlan(_, _, _, _) =>
    case RetirePlan(_) =>
    case SubscribeTo(owner, plan, wallet, startsAt, crash) =>
      SubscribeKeepsTimeline(d, owner, plan, wallet, startsAt, now, crash);
    case Charge(period, crash) =>
      ChargeKeepsTimeline(d, period, now, crash);
    case CancelSubscription(s, reason) =>
      CancelMovesNothing(d, s, reason, now);
      UnmovedKeepsTimeline(d, DeskStep(d, now, c));
    case Renew(s, crash) => RenewKeepsTimeline(d, s, now, crash);
  }

  lemma {:induction false} EveryRunIsContiguous(log: seq<Subscriptions.Timed>)
    ensures Timeline(RunDesk(log))
  {
    if log != [] {
      EveryRunIsContiguous(log[..|log| - 1]);
      StepKeepsTimeline(RunDesk(log[..|log| - 1]), log[|log| - 1].at, log[|log| - 1].command);
    }
  }

  /**
   Coverage over every run: of one subscription, two periods that share an instant or a number
   are the same period, every number below a used one is used, and consecutive periods meet.
   */
  lemma CoverageLaws(log: seq<Subscriptions.Timed>, p: PeriodId, q: PeriodId, at: Time, k: int) returns (r: PeriodId)
    requires var periods := RunDesk(log).periods;
             p in periods && q in periods && periods[p].subscription == periods[q].subscription
    requires 1 <= k <= RunDesk(log).periods[p].sequence
    ensures var periods := RunDesk(log).periods;
            && (Covers(periods[p], at) && Covers(periods[q], at) ==> p == q)
            && (periods[p].sequence == periods[q].sequence ==> p == q)
            && (periods[p].sequence + 1 == periods[q].sequence ==> periods[p].endsAt == periods[q].startsAt)
            && r in periods && periods[r].subscription == periods[p].subscription && periods[r].sequence == k
  {
    EveryRunIsContiguous(log);
    var periods := RunDesk(log).periods;
    if Covers(periods[p], at) && Covers(periods[q], at) {
      AtMostOneCovers(periods, p, q, at);
    }
    if periods[p].sequence + 1 == periods[q].sequence {
      assert HasPrevious(periods, q);
    var before :| Precedes(periods, before, q);
      assert before == p;
    }
    r := NoNumberIsMissing(periods, p, k);
  }
}
