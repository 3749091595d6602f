/**
 Exactly-once billing: however often a period is charged, and wherever the process dies in
 between, one hold pays for it, a settled period was captured for exactly its amount, and it
 stays settled and paid for ever.
 */
module SubscriptionBilling {
  import opened Common
  import opened Calendar
  import opened Money
  import opened MoneyRuns
  import opened MoneyLedgerLaws
  import opened Subscriptions
  import opened SubscriptionTimelines

  /** The period's own hold, captured in full, for exactly its amount. */
  ghost predicate PaidBy(books: Books, id: PeriodId, p: Period) {
    if p.amount == 0 then p.hold.None?
    else
      && p.hold.Some? && p.hold.value in books.holds
      && var h := books.holds[p.hold.value];
         h.status == HoldStatus.Captured && h.captured == h.amount == p.amount
         && h.currency == p.currency && h.reference == PeriodReference(id)
  }

  ghost predicate AllPaid(d: Desk) {
    forall p :: p in d.periods && d.periods[p].status == Settled ==> PaidBy(d.till.books, p, d.periods[p])
  }

  ghost predicate Billed(d: Desk) {
    TillSound(d.till) && AllPaid(d) && Shaped(d)
  }

  /** A settled period is still the same settled period afterwards. */
  ghost predicate SettledStays(before: Desk, after: Desk) {
    forall p :: p in before.periods && before.periods[p].status == Settled ==>
      p in after.periods && after.periods[p] == before.periods[p]
  }

  // ----- the money half -----

  lemma MoneyKeepsPaid(t: Till, now: Time, c: MoneyRuns.Command, id: PeriodId, p: Period)
    requires TillSound(t) && PaidBy(t.books, id, p)
    ensures PaidBy(Step(t, now, c).books, id, p)
  {
    StepKeepsLaws(t, now, c);
  }

  lemma MoneyKeepsBilled(d: Desk, now: Time, c: MoneyRuns.Command)
    requires Billed(d)
    ensures Billed(d.(till := Step(d.till, now, c)))
  {
    StepKeepsLaws(d.till, now, c);
    forall p | p in d.periods && d.periods[p].status == Settled
      ensures PaidBy(Step(d.till, now, c).books, p, d.periods[p])
    {
      MoneyKeepsPaid(d.till, now, c, p, d.periods[p]);
    }
  }

  /** Asking for a hold under a reference gives the one hold of that reference, old or new. */
  lemma AuthorizeGivesTheHold(t: Till, now: Time, wallet: WalletId, amount: int, reference: string)
    requires TillSound(t)
    requires Perform(t.books, StageAuthorize(t.books, now, t.nextId, wallet, amount, reference, None)).Ok?
    ensures var held := Perform(t.books,
                                StageAuthorize(t.books, now, t.nextId, wallet, amount, reference, None)).value.0;
            var after := Step(t, now, Authorize(wallet, amount, reference, None)).books;
            held in after.holds && after.holds[held].reference == reference
  {
    NothingStagedCommits(t.books);
    var change := AuthorizeChange(t.books, t.nextId, now, wallet, amount, reference, None);
  }

  /** A whole capture that succeeds, first time or repeated, leaves the hold fully captured. */
  lemma CaptureAllCaptures(t: Till, now: Time, hold: HoldId)
    requires TillSound(t) && Perform(t.books, StageCapture(t.books, now, hold, "", None)).Ok?
    ensures var after := Step(t, now, CaptureAll(hold)).books;
            && hold in after.holds && hold in t.books.holds
            && after.holds[hold].status == HoldStatus.Captured
            && after.holds[hold].captured == after.holds[hold].amount
            && after.holds[hold].reference == t.books.holds[hold].reference
  {
    StepKeepsLaws(t, now, CaptureAll(hold));
    SuccessIsAnswered(t, now, CaptureAll(hold));
    var after := Step(t, now, CaptureAll(hold)).books;
    assert SoundHold(after, hold);
  }

  // ----- the billing half -----

  lemma WriteKeepsBilled(d: Desk, id: PeriodId, p: Period, s: Subscription)
    requires Billed(d) && WriteBoth(d, id, p, s).Some?
    requires p.status == Settled ==> PaidBy(d.till.books, id, p)
    requires id in d.periods ==> d.periods[id].status != Settled
    ensures Billed(WriteBoth(d, id, p, s).value) && SettledStays(d, WriteBoth(d, id, p, s).value)
  {
  }

  lemma SettleIsPaid(d: Desk, id: PeriodId, hold: Option<HoldId>, now: Time)
    requires Billed(d) && id in d.periods && d.periods[id].subscription in d.subscriptions
             && d.periods[id].status != Settled
    requires hold.None? <==> d.periods[id].amount == 0
    requires hold.Some?
             ==> hold.value in d.till.books.holds && d.till.books.holds[hold.value].reference == PeriodReference(id)
    ensures Billed(SettlePeriod(d, id, hold, now).0) && SettledStays(d, SettlePeriod(d, id, hold, now).0)
    ensures SettlePeriod(d, id, hold, now).1 == Collected ==>
              SettlePeriod(d, id, hold, now).0.periods[id].status == Settled
  {
    var s := d.subscriptions[d.periods[id].subscription];
    var settled := SettledAs(d.periods[id], hold, now);
    if hold.None? {
      if WriteBoth(d, id, settled, RevivedBy(s)).Some? {
        WriteKeepsBilled(d, id, settled, RevivedBy(s));
      }
    } else if Perform(d.till.books, StageCapture(d.till.books, now, hold.value, "", None)).Ok? {
      var paid := d.(till := Step(d.till, now, CaptureAll(hold.value)));
      MoneyKeepsBilled(d, now, CaptureAll(hold.value));
      CaptureAllCaptures(d.till, now, hold.value);
      if WriteBoth(paid, id, settled, RevivedBy(s)).Some? {
        WriteKeepsBilled(paid, id, settled, RevivedBy(s));
      }
    }
  }

  lemma MarkKeepsBilled(d: Desk, id: PeriodId, why: Failure)
    requires Billed(d) && id in d.periods && d.periods[id].subscription in d.subscriptions
             && d.periods[id].status != Settled
    ensures Billed(MarkUncollectible(d, id, why).0) && SettledStays(d, MarkUncollectible(d, id, why).0)
  {
    var marked, s := UncollectibleAs(d.periods[id], why), PastDueAs(d.subscriptions[d.periods[id].subscription]);
    if WriteBoth(d, id, marked, s).Some? {
      WriteKeepsBilled(d, id, marked, s);
    }
  }

  lemma FinishKeepsBilled(d: Desk, id: PeriodId, hold: HoldId, now: Time)
    requires Billed(d) && id in d.periods && d.periods[id].subscription in d.subscriptions
             && d.periods[id].status != Settled
    requires d.periods[id].amount != 0
    requires hold in d.till.books.holds && d.till.books.holds[hold].reference == PeriodReference(id)
    ensures Billed(FinishCharge(d, id, hold, now).0) && SettledStays(d, FinishCharge(d, id, hold, now).0)
    ensures FinishCharge(d, id, hold, now).1 == Collected
            ==> FinishCharge(d, id, hold, now).0.periods[id].status == Settled
  {
    SettleIsPaid(d, id, Some(hold), now);
    var outcome := SettlePeriod(d, id, Some(hold), now).1;
    if outcome.Refused? {
      MarkKeepsBilled(d, id, outcome.why);
    }
  }

  /** Charging a period, once or again, crashing or not. */
  lemma ChargeKeepsBilled(d: Desk, id: PeriodId, now: Time, crash: bool)
    requires Billed(d)
    ensures Billed(ChargePeriod(d, id, now, crash).0) && SettledStays(d, ChargePeriod(d, id, now, crash).0)
    ensures ChargePeriod(d, id, now, crash).1 == Collected ==>
              id in ChargePeriod(d, id, now, crash).0.periods
                  && ChargePeriod(d, id, now, crash).0.periods[id].status == Settled
  {
    if id in d.periods && d.periods[id].subscription in d.subscriptions && d.periods[id].status != Settled
        && d.periods[id].status != Waived {
      var p := d.periods[id];
      if p.amount == 0 {
        SettleIsPaid(d, id, None, now);
      } else {
        var wallet := d.subscriptions[p.subscription].wallet;
        match Perform(d.till.books, StageAuthorize(d.till.books, now, d.till.nextId, wallet, p.amount,
                                                   PeriodReference(id), None))
        case Err(e) => MarkKeepsBilled(d, id, e);
        case Ok(held) =>
          MoneyKeepsBilled(d, now, ChargeHold(d, id));
          AuthorizeGivesTheHold(d.till, now, wallet, p.amount, PeriodReference(id));
          FinishKeepsBilled(d.(till := Step(d.till, now, ChargeHold(d, id))), id, held.0, now);
      }
    }
  }

  // ----- every command -----

  ghost predicate Kept(before: Desk, after: Desk) {
    Billed(after) && SettledStays(before, after)
  }

  lemma InsertedIsBilled(d: Desk, after: Desk, id: PeriodId)
    requires Billed(d) && id !in d.periods && after.till == d.till && Shaped(after)
    requires id in after.periods && after.periods == d.periods[id := after.periods[id]]
             && after.periods[id].status == Pending
    ensures Kept(d, after)
  {
  }

  lemma RenewKeepsBilled(d: Desk, s: SubscriptionId, now: Time, crash: bool)
    requires Billed(d) && Timeline(d)
    ensures Kept(d, RenewOne(d, s, now, crash).0)
  {
    if DueForRenewal(d, s, now) {
      RenewalInserts(d, s, now, crash);
      if NextEnd(d, s).Ok? {
        var begun := WithNext(d, s, Latest(d.periods, s).value, NextEnd(d, s).value);
        InsertedIsBilled(d, begun, d.nextId);
        ChargeKeepsBilled(begun, d.nextId, now, crash);
      }
    } else if s in d.subscriptions && d.subscriptions[s].status == Cancelled {
      ExpiryKeepsTimeline(d, s, now);
    }
  }

  lemma SubscribeKeepsBilled(d: Desk, owner: string, plan: PlanId, wallet: WalletId, startsAt: Time, now: Time,
      crash: bool)
    requires Billed(d) && Timeline(d)
    ensures Kept(d, Subscribe(d, owner, plan, wallet, startsAt, now, crash).0)
  {
    SubscribeCharges(d, owner, plan, wallet, startsAt, now, crash);
    if Subscribe(d, owner, plan, wallet, startsAt, now, crash) != (d, Threw) {
      var end := AdvanceInterval(startsAt, d.plans[plan].interval, d.plans[plan].count).value;
      FirstIsBilled(d, NewRow(owner, plan, wallet, now), startsAt, end, now, crash);
    }
  }

  lemma FirstIsBilled(d: Desk, row: Subscription, startsAt: Time, end: Time, now: Time, crash: bool)
    requires Billed(d) && Timeline(d) && row.plan in d.plans && Timeline(WithFirst(d, row, startsAt, end))
    ensures Kept(d, ChargePeriod(WithFirst(d, row, startsAt, end), d.nextId + 1, now, crash).0)
  {
    var begun := WithFirst(d, row, startsAt, end);
    InsertedIsBilled(d, begun, d.nextId + 1);
    ChargeKeepsBilled(begun, d.nextId + 1, now, crash);
  }

  lemma CancelKeepsBilled(d: Desk, s: SubscriptionId, reason: string, now: Time)
    requires Billed(d) && Timeline(d)
    ensures Kept(d, Cancel(d, s, reason, now).0)
  {
    CancelMovesNothing(d, s, reason, now);
    var current := Covering(d.periods, s, now);
    var after := Cancel(d, s, reason, now).0;
    assert after.till == d.till;
    forall p | p in d.periods
      ensures after.periods[p] == d.periods[p] || (after.periods[p].status == Waived && d.periods[p].status != Settled)
    {
    }
  }

  lemma StepKeepsBilled(d: Desk, now: Time, c: Subscriptions.Command)
    requires Billed(d) && Timeline(d)
    ensures Kept(d, DeskStep(d, now, c))
  {
    match c
    case MoneyWork(command) => MoneyKeepsBilled(d, now, command);
    case OfferPlan(_, _, _, _) =>
    case RetirePlan(_) =>
    case SubscribeTo(owner, plan, wallet, startsAt, crash) =>
      SubscribeKeepsBilled(d, owner, plan, wallet, startsAt, now, crash);
    case Charge(period, crash) => ChargeKeepsBilled(d, period, now, crash);
    case CancelSubscription(s, reason) => CancelKeepsBilled(d, s, reason, now);
    case Renew(s, crash) => RenewKeepsBilled(d, s, now, crash);
  }

  lemma {:induction false} EveryRunIsBilled(log: seq<Subscriptions.Timed>)
    ensures Billed(RunDesk(log)) && Timeline(RunDesk(log))
  {
    EveryRunIsContiguous(log);
    if log == [] {
      EmptyTillSound();
    } else {
      EveryRunIsBilled(log[..|log| - 1]);
      StepKeepsBilled(RunDesk(log[..|log| - 1]), log[|log| - 1].at, log[|log| - 1].command);
    }
  }

  // ----- the claims -----

  /**
   Exactly once: in every run, of all holds at most one carries a period's reference; a settled
   period that cost something names that hold, and what the ledger says was captured for it is
   exactly the period's amount. Two settled periods never share a hold.
   */
  lemma BillingIsExactlyOnce(log: seq<Subscriptions.Timed>, id: PeriodId, h1: HoldId, h2: HoldId)
    requires id in RunDesk(log).periods
    requires h1 in RunDesk(log).till.books.holds && h2 in RunDesk(log).till.books.holds
    requires RunDesk(log).till.books.holds[h1].reference == PeriodReference(id)
             == RunDesk(log).till.books.holds[h2].reference
    ensures h1 == h2
    ensures var d := RunDesk(log);
            d.periods[id].status == Settled && d.periods[id].amount != 0 ==>
              d.periods[id].hold == Some(h1)
                  && Moved(d.till.books.ledger, Money.Kind.Capture, h1) == d.periods[id].amount
  {
    EveryRunIsBilled(log);
    var d := RunDesk(log);
    assert SoundHold(d.till.books, h1);
    if d.periods[id].status == Settled && d.periods[id].amount != 0 {
      assert PaidBy(d.till.books, id, d.periods[id]);
    }
  }

  lemma HoldsAreNotShared(log: seq<Subscriptions.Timed>, p: PeriodId, q: PeriodId)
    requires p in RunDesk(log).periods && q in RunDesk(log).periods
    requires RunDesk(log).periods[p].status == Settled && RunDesk(log).periods[q].status == Settled
    requires RunDesk(log).periods[p].hold.Some? && RunDesk(log).periods[p].hold == RunDesk(log).periods[q].hold
    ensures p == q
  {
    EveryRunIsBilled(log);
    var d := RunDesk(log);
    assert PaidBy(d.till.books, p, d.periods[p]) && PaidBy(d.till.books, q, d.periods[q]);
    assert PeriodShape(d.periods[p]) && PeriodShape(d.periods[q]);
    ReferencesDiffer(p, q);
  }

  ghost function RunFrom(d: Desk, log: seq<Subscriptions.Timed>): Desk {
    if log == [] then d
    else DeskStep(RunFrom(d, log[..|log| - 1]), log[|log| - 1].at, log[|log| - 1].command)
  }

  /** Settled for ever: no later command changes a settled period, or what paid for it. */
  lemma {:induction false} SettledForEver(log: seq<Subscriptions.Timed>, later: seq<Subscriptions.Timed>, id: PeriodId)
    requires id in RunDesk(log).periods && RunDesk(log).periods[id].status == Settled
    ensures var after := RunFrom(RunDesk(log), later);
            && Billed(after) && Timeline(after)
            && id in after.periods && after.periods[id] == RunDesk(log).periods[id]
            && PaidBy(after.till.books, id, after.periods[id])
  {
    EveryRunIsBilled(log);
    if later != [] {
      SettledForEver(log, later[..|later| - 1], id);
      var mid := RunFrom(RunDesk(log), later[..|later| - 1]);
      StepKeepsBilled(mid, later[|later| - 1].at, later[|later| - 1].command);
      StepKeepsTimeline(mid, later[|later| - 1].at, later[|later| - 1].command);
    }
  }

  /** A charge that says it collected has settled the period; charging it again moves nothing. */
  lemma CollectedOnce(log: seq<Subscriptions.Timed>, id: PeriodId, now: Time, again: Time, crash: bool)
    ensures var (after, outcome) := ChargePeriod(RunDesk(log), id, now, false);
            outcome == Collected ==> ChargePeriod(after, id, again, crash) == (after, Collected)
  {
    EveryRunIsBilled(log);
    ChargeKeepsBilled(RunDesk(log), id, now, false);
  }

  /** A retry after a crash between hold and capture takes no second hold. */
  lemma CrashTakesOneHold(log: seq<Subscriptions.Timed>, id: PeriodId, now: Time, again: Time)
    ensures var (crashed, outcome) := ChargePeriod(RunDesk(log), id, now, true);
            outcome == Crashed ==>
              id in crashed.periods && crashed.periods[id].subscription in crashed.subscriptions
              && Step(crashed.till, again, ChargeHold(crashed, id)) == crashed.till
  {
    EveryRunIsBilled(log);
    var d := RunDesk(log);
    var (crashed, outcome) := ChargePeriod(d, id, now, true);
    if outcome == Crashed {
      SuccessIsAnswered(d.till, now, ChargeHold(d, id));
      AnsweredIsIdle(crashed.till, again, ChargeHold(crashed, id));
    }
  }
}
