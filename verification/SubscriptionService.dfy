/**
 The reference subscription store and the service over it, as scans and loops over objects.
 Every method is proved against the functions of `Subscriptions`.
 */
module SubscriptionService {
  import opened Common
  import opened Calendar
  import opened Positions
  import opened Money
  import opened MoneyRuns
  import opened MoneyStore
  import MS = MoneyService
  import opened Subscriptions
  import opened SubscriptionTimelines
  import opened SubscriptionSweeps
  import opened SubscriptionBilling
  import opened SubscriptionReports

  class InMemorySubscriptionRepository {
    var plans: map<PlanId, Plan>
    var subscriptions: map<SubscriptionId, Subscription>
    var periods: Periods

    constructor ()
      ensures plans == map[] && subscriptions == map[] && periods == map[]
    {
      plans, subscriptions, periods := map[], map[], map[];
    }

    method PeriodOverlapClash(id: PeriodId, p: Period) returns (clash: bool)
      ensures clash == OverlapClash(periods, id, p)
    {
      var rest := periods.Keys;
      while rest != {}
        invariant rest <= periods.Keys
        invariant forall q :: q in periods && q !in rest && q != id && periods[q].subscription == p.subscription ==>
                    !Overlap(p, periods[q])
        decreases rest
      {
        var q :| q in rest;
        rest := rest - {q};
        if periods[q].subscription == p.subscription && q != id && Overlap(p, periods[q]) {
          return true;
        }
      }
      clash := false;
    }

    method SequenceTaken(id: PeriodId, p: Period) returns (clash: bool)
      ensures clash == SequenceClash(periods, id, p)
    {
      var rest := periods.Keys;
      while rest != {}
        invariant rest <= periods.Keys
        invariant forall q :: q in periods && q !in rest && q != id && periods[q].subscription == p.subscription ==>
                    periods[q].sequence != p.sequence
        decreases rest
      {
        var q :| q in rest;
        rest := rest - {q};
        if periods[q].subscription == p.subscription && periods[q].sequence == p.sequence && q != id {
          return true;
        }
      }
      clash := false;
    }

    method AuthorizationClash(id: PeriodId, p: Period) returns (clash: bool)
      ensures clash == HoldClash(periods, id, p)
    {
      if p.hold.None? {
        return false;
      }
      var rest := periods.Keys;
      while rest != {}
        invariant rest <= periods.Keys
        invariant forall q :: q in periods && q !in rest && q != id ==> periods[q].hold != p.hold
        decreases rest
      {
        var q :| q in rest;
        rest := rest - {q};
        if periods[q].hold == p.hold && q != id {
          return true;
        }
      }
      clash := false;
    }

    /** The checks of `writePeriod` that run at once; the money check waits for the commit. */
    method WritePeriod(id: PeriodId, p: Period) returns (ok: bool)
      modifies this`periods
      ensures ok == Writable(old(periods), id, p)
      ensures periods == if ok then old(periods)[id := p] else old(periods)
    {
      var overlap := PeriodOverlapClash(id, p);
      var sequence := SequenceTaken(id, p);
      var hold := AuthorizationClash(id, p);
      ok := PeriodShape(p) && !overlap && !sequence && !hold;
      if ok {
        periods := periods[id := p];
      }
    }

    method LatestPeriod(s: SubscriptionId) returns (latest: Option<PeriodId>)
      ensures latest.Some? ==> IsLatest(periods, s, latest.value)
      ensures latest.None? ==> !HasPeriod(periods, s)
    {
      latest := None;
      var rest := periods.Keys;
      while rest != {}
        invariant rest <= periods.Keys
        invariant latest.Some? ==> latest.value in periods && periods[latest.value].subscription == s
        invariant forall q :: q in periods && q !in rest && periods[q].subscription == s ==>
                    latest.Some? && periods[q].sequence <= periods[latest.value].sequence
        decreases rest
      {
        var q :| q in rest;
        rest := rest - {q};
        if periods[q].subscription == s && (latest.None? || periods[latest.value].sequence < periods[q].sequence) {
          latest := Some(q);
        }
      }
    }

    method FindPeriodCovering(s: SubscriptionId, at: Time) returns (found: Option<PeriodId>)
      ensures found.Some?
              ==> found.value in periods && periods[found.value].subscription == s && Covers(periods[found.value], at)
      ensures found.None? ==> Covering(periods, s, at).None?
    {
      var rest := periods.Keys;
      while rest != {}
        invariant rest <= periods.Keys
        invariant forall q :: q in periods && q !in rest && periods[q].subscription == s ==> !Covers(periods[q], at)
        decreases rest
      {
        var q :| q in rest;
        rest := rest - {q};
        if periods[q].subscription == s && Covers(periods[q], at) {
          return Some(q);
        }
      }
      found := None;
    }

    /** The scan of `listSubscriptionsForOwner` for a live subscription to the same plan. */
    method LiveSubscription(owner: string, plan: PlanId) returns (found: bool)
      ensures found
              <==> exists s :: s in subscriptions && subscriptions[s].owner == owner && subscriptions[s].plan == plan
                                     && IsLive(subscriptions[s])
    {
      var rest := subscriptions.Keys;
      while rest != {}
        invariant rest <= subscriptions.Keys
        invariant forall s ::
                    s in subscriptions && s !in rest && subscriptions[s].owner == owner && subscriptions[s].plan == plan
                    ==> !IsLive(subscriptions[s])
        decreases rest
      {
        var s :| s in rest;
        rest := rest - {s};
        if subscriptions[s].owner == owner && subscriptions[s].plan == plan && IsLive(subscriptions[s]) {
          return true;
        }
      }
      found := false;
    }
  }

  class SubscriptionService {
    const repo: InMemorySubscriptionRepository
    const money: MS.MoneyService
    var nextId: nat

    constructor (repo: InMemorySubscriptionRepository, money: MS.MoneyService)
      ensures this.repo == repo && this.money == money && nextId == 0
    {
      this.repo, this.money := repo, money;
      nextId := 0;
    }

    ghost function Desk(): Desk
      reads this, repo, money, money.repo
    {
      Subscriptions.Desk(money.State(), repo.plans, repo.subscriptions, repo.periods, nextId)
    }

    ghost predicate Valid()
      reads this, money, money.repo
    {
      money.Valid()
    }

    /** One transaction over a period and its subscription, with the money already in place. */
    method WriteBothWithin(id: PeriodId, p: Period, s: Subscription) returns (ok: bool)
      requires Valid()
      modifies repo`periods, repo`subscriptions
      ensures Valid() && ok == WriteBoth(old(Desk()), id, p, s).Some?
      ensures Desk() == if ok then WriteBoth(old(Desk()), id, p, s).value else old(Desk())
    {
      var before := repo.periods;
      ok := repo.WritePeriod(id, p);
      if ok && !(SubscriptionShape(s) && MoneyAgrees(p, money.repo.authorizations)) {
        repo.periods := before;
        ok := false;
      }
      if ok {
        repo.subscriptions := repo.subscriptions[p.subscription := s];
      }
    }

    /** The capture and the billing record in one unit of work: both, or neither. */
    method SettlePeriod(id: PeriodId, hold: Option<HoldId>, now: Time) returns (outcome: Outcome)
      requires Valid() && id in repo.periods && repo.periods[id].subscription in repo.subscriptions
      modifies repo`periods, repo`subscriptions, money.repo
      ensures Valid() && (Desk(), outcome) == Subscriptions.SettlePeriod(old(Desk()), id, hold, now)
    {
      var s := repo.subscriptions[repo.periods[id].subscription];
      var settled := SettledAs(repo.periods[id], hold, now);
      if hold.None? {
        var ok := WriteBothWithin(id, settled, RevivedBy(s));
        return if ok then Collected else Threw;
      }
      var staged := StageCapture(money.repo.Rows(), now, hold.value, "", None);
      if staged.Refused? {
        return Outcome.Refused(staged.why);
      }
      outcome := CaptureAndRecord(id, settled, RevivedBy(s), hold.value, staged.writes, now);
    }

    method CaptureAndRecord(id: PeriodId, settled: Period, s: Subscription, hold: HoldId, writes: seq<Write>, now: Time)
      returns (outcome: Outcome)
      requires Valid() && id in repo.periods && repo.periods[id].subscription in repo.subscriptions
      requires settled == SettledAs(repo.periods[id], Some(hold), now)
      requires s == RevivedBy(repo.subscriptions[repo.periods[id].subscription])
      requires StageCapture(money.repo.Rows(), now, hold, "", None).Staged?
      requires StageCapture(money.repo.Rows(), now, hold, "", None).writes == writes
      modifies repo`periods, repo`subscriptions, money.repo
      ensures Valid() && (Desk(), outcome) == Subscriptions.SettlePeriod(old(Desk()), id, Some(hold), now)
    {
      ghost var start := money.repo.Rows();
      var journal := new MemoryJournal();
      var applied := money.repo.RunMutations(writes, journal);
      if applied {
        applied := money.repo.Verify(journal);
        VerifiedMeansDeferredHold(money.repo.Rows(), writes, journal.Checks());
      }
      if !applied {
        money.repo.Rollback(journal);
        assert money.repo.Rows() == start;
        RefusedCommitsAreConstraints(start, writes);
        return Outcome.Refused(ConstraintViolated);
      }
      CaptureKeepsFresh(start, now, hold, money.nextId);
      var written := WriteBothWithin(id, settled, s);
      if !written {
        money.repo.Rollback(journal);
        return Threw;
      }
      outcome := Collected;
    }

    method MarkUncollectible(id: PeriodId, why: Failure) returns (outcome: Outcome)
      requires Valid() && id in repo.periods && repo.periods[id].subscription in repo.subscriptions
      modifies repo`periods, repo`subscriptions
      ensures Valid() && (Desk(), outcome) == Subscriptions.MarkUncollectible(old(Desk()), id, why)
    {
      var ok := WriteBothWithin(id, UncollectibleAs(repo.periods[id], why),
                                PastDueAs(repo.subscriptions[repo.periods[id].subscription]));
      outcome := if ok then Outcome.Refused(why) else Threw;
    }

    /** `chargePeriod`: the settled answer first, then the hold, then the capture. */
    method ChargePeriod(id: PeriodId, now: Time) returns (outcome: Outcome)
      requires Valid() && DistinctHoldReferences(money.repo.Rows())
      modifies repo`periods, repo`subscriptions, money`nextId, money.repo
      ensures Valid() && (Desk(), outcome) == Subscriptions.ChargePeriod(old(Desk()), id, now, false)
    {
      if id !in repo.periods {
        return Threw;
      }
      var p := repo.periods[id];
      if p.status == Settled {
        return Collected;
      }
      if p.status == Waived || p.subscription !in repo.subscriptions {
        return Threw;
      }
      if p.amount == 0 {
        outcome := SettlePeriod(id, None, now);
        return;
      }
      var held := money.Authorize(now, repo.subscriptions[p.subscription].wallet, p.amount, PeriodReference(id), None);
      if held.Err? {
        if IsConflict(held.error) || IsNotFound(held.error) {
          outcome := MarkUncollectible(id, held.error);
        } else {
          outcome := Threw;
        }
        return;
      }
      outcome := SettlePeriod(id, Some(held.value), now);
      if outcome.Refused? {
        if IsConflict(outcome.why) {
          outcome := MarkUncollectible(id, outcome.why);
        } else {
          outcome := Threw;
        }
      }
    }

    /** What the sweep does for one candidate. */
    method RenewOne(s: SubscriptionId, now: Time) returns (outcome: Outcome, work: Work)
      requires Valid() && DistinctHoldReferences(money.repo.Rows()) && Numbered(repo.periods)
      modifies this`nextId, repo`periods, repo`subscriptions, money`nextId, money.repo
      ensures Valid() && (Desk(), outcome) == Subscriptions.RenewOne(old(Desk()), s, now, false)
      ensures work == WorkFor(old(Desk()), s, now)
    {
      if s !in repo.subscriptions || repo.subscriptions[s].status == Ended {
        return Nothing, Idle;
      }
      var found := repo.LatestPeriod(s);
      if found.None? {
        return Nothing, Idle;
      }
      LatestIs(repo.periods, s, found.value);
      if repo.periods[found.value].endsAt > now {
        return Nothing, Idle;
      }
      outcome, work := ExpireOrRenew(s, found.value, now);
    }

    /** A candidate whose latest period has ended. */
    method ExpireOrRenew(s: SubscriptionId, latest: PeriodId, now: Time) returns (outcome: Outcome, work: Work)
      requires Valid() && DistinctHoldReferences(money.repo.Rows())
      requires s in repo.subscriptions && repo.subscriptions[s].status != Ended
      requires Latest(repo.periods, s) == Some(latest) && latest in repo.periods && repo.periods[latest].endsAt <= now
      modifies this`nextId, repo`periods, repo`subscriptions, money`nextId, money.repo
      ensures Valid() && (Desk(), outcome) == Subscriptions.RenewOne(old(Desk()), s, now, false)
      ensures work == WorkFor(old(Desk()), s, now)
    {
      var row := repo.subscriptions[s];
      if row.status == Cancelled {
        repo.subscriptions := repo.subscriptions[s := ExpiredAs(row, now)];
        return Nothing, Expiry;
      }
      if row.plan !in repo.plans {
        return Nothing, Idle;
      }
      var plan := repo.plans[row.plan];
      var endsAt := AdvanceInterval(repo.periods[latest].endsAt, plan.interval, plan.count);
      if endsAt.Err? {
        return Threw, Renewal;
      }
      work := Renewal;
      var last := repo.periods[latest];
      RenewalInsertsThenCharges(Desk(), s, latest, endsAt.value, now);
      outcome := InsertAndCharge(NewPeriod(s, plan, last.sequence + 1, last.endsAt, endsAt.value), row, now);
    }

    /** The next period commits first; collecting it is a step of its own. */
    method InsertAndCharge(next: Period, row: Subscription, now: Time) returns (outcome: Outcome)
      requires Valid() && DistinctHoldReferences(money.repo.Rows())
      modifies this`nextId, repo`periods, repo`subscriptions, money`nextId, money.repo
      ensures Valid()
      ensures (Desk(), outcome) == InsertThenCharge(old(Desk()), next, row, now)
    {
      var id := nextId;
      var written := WriteBothWithin(id, next, row);
      if !written {
        return Threw;
      }
      nextId := nextId + 1;
      outcome := ChargePeriod(id, now);
    }

    /**
     `subscribe`: writes both rows or neither and then charges. The answer names the two rows by
     their identifiers, and is empty when nothing was written.
     */
    method Subscribe(owner: string, plan: PlanId, wallet: WalletId, startsAt: Time, now: Time)
      returns (outcome: Outcome, created: Option<(SubscriptionId, PeriodId)>)
      requires Valid() && DistinctHoldReferences(money.repo.Rows())
      modifies this`nextId, repo`periods, repo`subscriptions, money`nextId, money.repo
      ensures Valid()
              && (Desk(), outcome) == Subscriptions.Subscribe(old(Desk()), owner, plan, wallet, startsAt, now, false)
      ensures created == if nextId == old(nextId) then None else Some((old(nextId), old(nextId) + 1))
      ensures created.None? ==> outcome == Threw && Desk() == old(Desk())
    {
      if plan !in repo.plans || repo.plans[plan].status != Offered || wallet !in money.repo.wallets {
        return Threw, None;
      }
      var terms := repo.plans[plan];
      var payer := money.repo.wallets[wallet];
      if payer.currency != terms.currency || payer.owner != owner {
        return Threw, None;
      }
      var live := repo.LiveSubscription(owner, plan);
      if live {
        return Threw, None;
      }
      var endsAt := AdvanceInterval(startsAt, terms.interval, terms.count);
      if endsAt.Err? {
        return Threw, None;
      }
      var id := nextId + 1;
      var written := WriteBothWithin(id, NewPeriod(nextId, terms, 1, startsAt, endsAt.value),
                                     Subscription(owner, plan, wallet, Running, now, None, "", None));
      if !written {
        return Threw, None;
      }
      created := Some((nextId, id));
      nextId := nextId + 2;
      outcome := ChargePeriod(id, now);
    }

    /** `cancelSubscription`, with the period it voided, if any. */
    method CancelSubscription(s: SubscriptionId, reason: string, now: Time)
      returns (outcome: Outcome, voided: Option<PeriodId>)
      requires Valid() && Contiguous(repo.periods)
      modifies repo`periods, repo`subscriptions
      ensures Valid() && (Desk(), outcome) == Cancel(old(Desk()), s, reason, now)
      ensures voided.None? ==> repo.periods == old(repo.periods)
      ensures voided.Some? ==> Voids(old(repo.periods), repo.periods, voided.value, s, now)
    {
      voided := None;
      if reason == "" || s !in repo.subscriptions {
        return Threw, None;
      }
      var row := repo.subscriptions[s];
      if row.status == Cancelled {
        return Nothing, None;
      }
      if row.status == Ended {
        return Threw, None;
      }
      var current := repo.FindPeriodCovering(s, now);
      CoveringIs(repo.periods, s, now, current);
      var unpaid := current.Some? && repo.periods[current.value].status != Settled;
      var endedAt := if current.Some? && !unpaid then repo.periods[current.value].endsAt else now;
      var cancelled := row.(status := Cancelled, cancelledAt := Some(now), cancelReason := reason,
                            endedAt := Some(endedAt));
      if unpaid {
        var waived := repo.periods[current.value].(status := Waived, hold := None, settledAt := None, refusal := None);
        var ok := WriteBothWithin(current.value, waived, cancelled);
        outcome := if ok then Nothing else Threw;
        voided := if ok then current else None;
        return;
      }
      if !SubscriptionShape(cancelled) {
        return Threw, None;
      }
      repo.subscriptions := repo.subscriptions[s := cancelled];
      outcome := Nothing;
    }

    /** The sweep: every candidate in order, until one throws. */
    method RenewDuePeriods(now: Time) returns (report: SweepReport)
      requires Valid() && Billed(Desk()) && Timeline(Desk())
      modifies this`nextId, repo`periods, repo`subscriptions, money`nextId, money.repo
      ensures Valid() && (Desk(), report.threw) == SubscriptionSweeps.Sweep(old(Desk()), now)
      ensures report == ReportOf(old(Desk()), Candidates(old(Desk())), now)
    {
      ghost var start := Desk();
      var created := map s | s in repo.subscriptions :: repo.subscriptions[s].createdAt;
      var order := InPositionOrder(created, set s | s in repo.subscriptions && repo.subscriptions[s].status != Ended);
      SweepStaysRenewable(start, order, now);
      report := SweepList(order, now, start);
    }

    method SweepList(order: seq<SubscriptionId>, now: Time, ghost start: Desk) returns (report: SweepReport)
      requires Valid() && start == Desk()
      requires forall n :: 0 <= n <= |order| ==> Renewable(SweepOver(start, order[..n], now).0)
      modifies this`nextId, repo`periods, repo`subscriptions, money`nextId, money.repo
      ensures Valid() && (Desk(), report.threw) == SweepOver(start, order, now)
      ensures report == ReportOf(start, order, now)
    {
      report := NOTHING_YET;
      for n := 0 to |order|
        invariant Valid() && (Desk(), report.threw) == SweepOver(start, order[..n], now)
        invariant report == ReportOf(start, order[..n], now)
      {
        assert order[..n + 1][..n] == order[..n];
        assert Renewable(SweepOver(start, order[..n], now).0);
        if !report.threw {
          var id := nextId;
          var outcome, work := RenewOne(order[n], now);
          report := Reported(report, work, order[n], id, outcome);
        }
      }
      assert order[..|order|] == order;
    }
  }

  /** The next period of a renewal, committed and then charged. */
  ghost function InsertThenCharge(d: Desk, next: Period, row: Subscription, now: Time): (Desk, Outcome) {
    match WriteBoth(d, d.nextId, next, row)
    case None => (d, Threw)
    case Some(after) => Subscriptions.ChargePeriod(after.(nextId := d.nextId + 1), d.nextId, now, false)
  }

  lemma RenewalInsertsThenCharges(d: Desk, s: SubscriptionId, latest: PeriodId, endsAt: Time, now: Time)
    requires s in d.subscriptions && IsLive(d.subscriptions[s]) && d.subscriptions[s].plan in d.plans
    requires Latest(d.periods, s) == Some(latest) && latest in d.periods && d.periods[latest].endsAt <= now
    requires var plan := d.plans[d.subscriptions[s].plan];
             AdvanceInterval(d.periods[latest].endsAt, plan.interval, plan.count) == Ok(endsAt)
    ensures var last := d.periods[latest];
            var next := NewPeriod(s, d.plans[d.subscriptions[s].plan], last.sequence + 1, last.endsAt, endsAt);
            Subscriptions.RenewOne(d, s, now, false) == InsertThenCharge(d, next, d.subscriptions[s], now)
  {
  }

  /** A subscription that was taken is there, with its first period beginning where it was asked to. */
  lemma SubscriptionIsCreated(d: Desk, owner: string, plan: PlanId, wallet: WalletId, startsAt: Time, now: Time,
      after: Desk)
    requires Timeline(d) && after == Subscriptions.Subscribe(d, owner, plan, wallet, startsAt, now, false).0
    requires after.nextId != d.nextId
    ensures d.nextId !in d.subscriptions && d.nextId in after.subscriptions && plan in d.plans
    ensures after.subscriptions[d.nextId].plan == plan && IsLive(after.subscriptions[d.nextId])
    ensures d.nextId + 1 !in d.periods && d.nextId + 1 in after.periods
    ensures var end := AdvanceInterval(startsAt, d.plans[plan].interval, d.plans[plan].count);
            && end.Ok?
            && SamePlace(after.periods[d.nextId + 1], NewPeriod(d.nextId, d.plans[plan], 1, startsAt, end.value))
  {
    var end, begun := FirstIsCharged(d, owner, plan, wallet, startsAt, now, after);
    FirstStays(d, NewRow(owner, plan, wallet, now), startsAt, end, begun, after);
  }

  lemma FirstIsCharged(d: Desk, owner: string, plan: PlanId, wallet: WalletId, startsAt: Time, now: Time, after: Desk)
    returns (end: Time, begun: Desk)
    requires Timeline(d) && after == Subscriptions.Subscribe(d, owner, plan, wallet, startsAt, now, false).0
    requires after.nextId != d.nextId
    ensures plan in d.plans && AdvanceInterval(startsAt, d.plans[plan].interval, d.plans[plan].count) == Ok(end)
    ensures begun == WithFirst(d, NewRow(owner, plan, wallet, now), startsAt, end)
    ensures Unmoved(begun, after) && RowsButOne(begun, after, d.nextId)
  {
    SubscribeCharges(d, owner, plan, wallet, startsAt, now, false);
    end := AdvanceInterval(startsAt, d.plans[plan].interval, d.plans[plan].count).value;
    begun := WithFirst(d, NewRow(owner, plan, wallet, now), startsAt, end);
    ChargedStays(begun, d.nextId + 1, now, after);
  }

  lemma ChargedStays(begun: Desk, id: PeriodId, now: Time, after: Desk)
    requires Timeline(begun) && id in begun.periods && begun.periods[id].subscription in begun.subscriptions
    requires after == Subscriptions.ChargePeriod(begun, id, now, false).0
    ensures Unmoved(begun, after) && RowsButOne(begun, after, begun.periods[id].subscription)
  {
    ChargeMovesNothing(begun, id, now, false);
    ChargeTouchesOneRow(begun, id, now, false);
  }

  lemma FirstStays(d: Desk, row: Subscription, startsAt: Time, end: Time, begun: Desk, after: Desk)
    requires Timeline(d) && row.plan in d.plans && row.status == Running && begun == WithFirst(d, row, startsAt, end)
    requires Unmoved(begun, after) && RowsButOne(begun, after, d.nextId)
    ensures d.nextId !in d.subscriptions && d.nextId in after.subscriptions
    ensures after.subscriptions[d.nextId].plan == row.plan && IsLive(after.subscriptions[d.nextId])
    ensures d.nextId + 1 !in d.periods && d.nextId + 1 in after.periods
    ensures SamePlace(after.periods[d.nextId + 1], NewPeriod(d.nextId, d.plans[row.plan], 1, startsAt, end))
  {
  }

  /** The unpaid period covering an instant is voided, and nothing else of the periods changes. */
  predicate Voids(before: Periods, after: Periods, p: PeriodId, s: SubscriptionId, at: Time) {
    && p in before && before[p].subscription == s && Covers(before[p], at) && before[p].status != Settled
    && p in after && after == before[p := after[p]] && after[p].status == Waived && after[p].hold.None?
  }

  /** What the service relies on between two candidates. */
  ghost predicate Renewable(d: Desk) {
    DistinctHoldReferences(d.till.books) && Numbered(d.periods)
  }

  lemma {:induction false} SweepKeepsLaws(start: Desk, order: seq<SubscriptionId>, now: Time)
    requires Billed(start) && Timeline(start)
    ensures Billed(SweepOver(start, order, now).0) && Timeline(SweepOver(start, order, now).0)
  {
    if order != [] {
      SweepKeepsLaws(start, order[..|order| - 1], now);
      var mid := SweepOver(start, order[..|order| - 1], now).0;
      RenewKeepsBilled(mid, order[|order| - 1], now, false);
      RenewKeepsTimeline(mid, order[|order| - 1], now, false);
    }
  }

  lemma SweepStaysRenewable(start: Desk, order: seq<SubscriptionId>, now: Time)
    requires Billed(start) && Timeline(start)
    ensures forall n :: 0 <= n <= |order| ==> Renewable(SweepOver(start, order[..n], now).0)
  {
    forall n | 0 <= n <= |order|
      ensures Renewable(SweepOver(start, order[..n], now).0)
    {
      SweepKeepsLaws(start, order[..n], now);
    }
  }

  lemma CoveringIs(periods: Periods, s: SubscriptionId, at: Time, found: Option<PeriodId>)
    requires Contiguous(periods)
    requires found.Some?
             ==> found.value in periods && periods[found.value].subscription == s && Covers(periods[found.value], at)
    requires found.None? ==> Covering(periods, s, at).None?
    ensures Covering(periods, s, at) == found
  {
    if found.Some? {
      var other := Covering(periods, s, at).value;
      AtMostOneCovers(periods, found.value, other, at);
    }
  }

  /** A commit is only ever refused by a constraint of the store. */
  lemma {:induction false} RefusedCommitsAreConstraints(b: Books, writes: seq<Write>)
    ensures ApplyAll(b, writes).Err? ==> ApplyAll(b, writes).error == ConstraintViolated
    ensures Commit(b, writes).Err? ==> Commit(b, writes).error == ConstraintViolated
  {
    if writes != [] {
      RefusedCommitsAreConstraints(b, writes[..|writes| - 1]);
    }
  }

  lemma CaptureKeepsFresh(b: Books, now: Time, hold: HoldId, next: nat)
    requires FreshFrom(b, next)
    requires StageCapture(b, now, hold, "", None).Staged? && Commit(b, StageCapture(b, now, hold, "", None).writes).Ok?
    ensures FreshFrom(Commit(b, StageCapture(b, now, hold, "", None).writes).value, next)
  {
    var writes := StageCapture(b, now, hold, "", None).writes;
    if writes != [] {
      MS.LegLands(b, hold, writes[0].hold, writes[1].transaction);
    }
  }
}
