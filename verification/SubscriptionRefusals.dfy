/**
 What can stop a charge. The store's constraints never do, and the deferred money check does only
 when somebody else took a hold of another size or currency under the period's reference. Where
 nobody does that, a sweep only stops where a date leaves the range of dates.
 */
module SubscriptionRefusals {
  import opened Common
  import opened Calendar
  import opened Money
  import opened MoneyRuns
  import opened MoneyChanges
  import opened MoneyLedgerLaws
  import opened Subscriptions
  import opened SubscriptionTimelines
  import opened SubscriptionSweeps
  import opened SubscriptionBilling

  /** A money command that takes a hold under a reference reserved for a period. */
  ghost predicate TakesAPeriodReference(c: Subscriptions.Command) {
    c.MoneyWork? && c.command.Authorize? && exists p :: c.command.reference == PeriodReference(p)
  }

  ghost predicate Priced(d: Desk) {
    && (forall k :: k in d.plans ==> d.plans[k].amount <= MAX_SAFE_INTEGER)
    && (forall s :: s in d.subscriptions ==>
          && d.subscriptions[s].plan in d.plans
          && d.subscriptions[s].wallet in d.till.books.wallets
          && d.plans[d.subscriptions[s].plan].currency == d.till.books.wallets[d.subscriptions[s].wallet].currency)
    && (forall p :: p in d.periods ==>
          && d.periods[p].subscription in d.subscriptions
          && 0 <= d.periods[p].amount <= MAX_SAFE_INTEGER
          && d.periods[p].currency == d.till.books.wallets[d.subscriptions[d.periods[p].subscription].wallet].currency)
  }

  /** Every hold under a period's reference was taken for that period. */
  ghost predicate OwnHold(d: Desk, h: HoldId, p: PeriodId)
    requires h in d.till.books.holds
  {
    d.till.books.holds[h].reference == PeriodReference(p) ==>
      && p in d.periods
      && d.till.books.holds[h].amount == d.periods[p].amount
      && d.till.books.holds[h].currency == d.periods[p].currency
  }

  ghost predicate Reserved(d: Desk) {
    forall h, p :: h in d.till.books.holds ==> OwnHold(d, h, p)
  }

  /** What every run keeps, whatever references other callers choose. */
  ghost predicate Tidy(d: Desk) {
    Billed(d) && Timeline(d) && Priced(d)
  }

  ghost predicate StaysTidy(before: Desk, after: Desk) {
    Tidy(after) && (Reserved(before) ==> Reserved(after))
  }

  ghost predicate Orderly(d: Desk) {
    Tidy(d) && Reserved(d)
  }

  /** A hold the period did not take, under the period's reference, that a capture would still settle. */
  ghost predicate Foreign(d: Desk, id: PeriodId, now: Time)
    requires id in d.periods
  {
    exists h :: h in d.till.books.holds && IsForeign(d, id, now, h)
  }

  ghost predicate IsForeign(d: Desk, id: PeriodId, now: Time, h: HoldId)
    requires id in d.periods && h in d.till.books.holds
  {
    && d.till.books.holds[h].reference == PeriodReference(id)
    && !Fits(d, id, h)
    && StageCapture(d.till.books, now, h, "", None).Staged?
  }

  ghost predicate Fits(d: Desk, id: PeriodId, h: HoldId)
    requires id in d.periods && h in d.till.books.holds
  {
    && d.till.books.holds[h].amount == d.periods[id].amount
    && d.till.books.holds[h].currency == d.periods[id].currency
  }

  // ----- one charge goes through -----

  /** Rewriting a period in place meets no clash. */
  lemma RewriteIsWritable(d: Desk, id: PeriodId, p: Period)
    requires Contiguous(d.periods) && id in d.periods && SamePlace(p, d.periods[id]) && PeriodShape(p)
             && !HoldClash(d.periods, id, p)
    ensures Writable(d.periods, id, p)
  {
    forall q | q in d.periods && q != id && d.periods[q].subscription == p.subscription
      ensures !Overlap(p, d.periods[q]) && d.periods[q].sequence != p.sequence
    {
      assert !SameNumber(d.periods[q], d.periods[id]);
      if d.periods[q].sequence < p.sequence {
        LaterStartsLater(d.periods, q, id);
      } else {
        LaterStartsLater(d.periods, id, q);
      }
    }
  }

  lemma NoHoldClash(d: Desk, id: PeriodId, p: Period)
    requires Billed(d) && p.hold.Some? && p.hold.value in d.till.books.holds
    requires d.till.books.holds[p.hold.value].reference == PeriodReference(id)
    ensures !HoldClash(d.periods, id, p)
  {
    forall q | q in d.periods && q != id
      ensures d.periods[q].hold != p.hold
    {
      assert PeriodShape(d.periods[q]);
      if d.periods[q].hold == p.hold {
        assert PaidBy(d.till.books, q, d.periods[q]);
        ReferencesDiffer(q, id);
      }
    }
  }

  lemma MarkGoesThrough(d: Desk, id: PeriodId, why: Failure)
    requires Tidy(d) && id in d.periods
    ensures MarkUncollectible(d, id, why).1 == Outcome.Refused(why)
  {
    RewriteIsWritable(d, id, UncollectibleAs(d.periods[id], why));
    assert SubscriptionShape(d.subscriptions[d.periods[id].subscription]);
  }

  lemma FreeSettles(d: Desk, id: PeriodId, now: Time)
    requires Tidy(d) && id in d.periods && d.periods[id].amount == 0
    ensures SettlePeriod(d, id, None, now).1 == Collected
  {
    RewriteIsWritable(d, id, SettledAs(d.periods[id], None, now));
    assert SubscriptionShape(d.subscriptions[d.periods[id].subscription]);
  }

  /** A captured hold pays for the period exactly when it fits it. */
  lemma CapturedPaysWhenItFits(d: Desk, id: PeriodId, hold: HoldId, now: Time)
    requires Tidy(d) && id in d.periods && d.periods[id].amount != 0
    requires hold in d.till.books.holds && d.till.books.holds[hold].reference == PeriodReference(id)
    requires Perform(d.till.books, StageCapture(d.till.books, now, hold, "", None)).Ok?
    ensures var paid := d.(till := Step(d.till, now, CaptureAll(hold)));
            WriteBoth(paid, id, SettledAs(d.periods[id], Some(hold), now),
                      RevivedBy(d.subscriptions[d.periods[id].subscription])).Some?
            <==> Fits(d, id, hold)
  {
    var paid := d.(till := Step(d.till, now, CaptureAll(hold)));
    var settled := SettledAs(d.periods[id], Some(hold), now);
    MoneyKeepsBilled(d, now, CaptureAll(hold));
    CaptureAllCaptures(d.till, now, hold);
    OtherMoneyKeepsHolds(d.till, now, CaptureAll(hold));
    NoHoldClash(paid, id, settled);
    RewriteIsWritable(paid, id, settled);
    assert SubscriptionShape(d.subscriptions[d.periods[id].subscription]);
  }

  /** Capturing a hold under the period's reference is refused as a conflict, settles the period, or does not fit it. */
  lemma HoldSettlesWhenItFits(d: Desk, id: PeriodId, hold: HoldId, now: Time)
    requires Tidy(d) && id in d.periods && d.periods[id].amount != 0
    requires hold in d.till.books.holds && d.till.books.holds[hold].reference == PeriodReference(id)
    ensures var outcome := SettlePeriod(d, id, Some(hold), now).1;
            if StageCapture(d.till.books, now, hold, "", None).Staged? then
              outcome == if Fits(d, id, hold) then Collected else Threw
            else outcome.Refused? && IsConflict(outcome.why)
  {
    CaptureRefusals(d.till, now, hold);
    if Perform(d.till.books, StageCapture(d.till.books, now, hold, "", None)).Ok? {
      CapturedPaysWhenItFits(d, id, hold, now);
    }
  }

  lemma CaptureRefusals(t: Till, now: Time, hold: HoldId)
    requires TillSound(t) && hold in t.books.holds
    ensures var outcome := Perform(t.books, StageCapture(t.books, now, hold, "", None));
            && (outcome.Ok? <==> StageCapture(t.books, now, hold, "", None).Staged?)
            && (outcome.Err? ==> IsConflict(outcome.error))
  {
    SerialCommandsNeverTripAConstraint(t.books, t.nextId, now, CaptureAll(hold));
    assert SoundHold(t.books, hold);
  }

  lemma AuthorizeRefusals(t: Till, now: Time, wallet: WalletId, amount: int, reference: string)
    requires TillSound(t) && wallet in t.books.wallets && ValidAmount(amount)
    ensures var outcome := Perform(t.books, StageAuthorize(t.books, now, t.nextId, wallet, amount, reference, None));
            outcome.Err? ==> IsConflict(outcome.error) && !HoldReferenceTaken(t.books, reference)
  {
    SerialCommandsNeverTripAConstraint(t.books, t.nextId, now, Authorize(wallet, amount, reference, None));
  }

  // ----- the money steps keep prices and reservations -----

  lemma MoneyKeepsWallets(t: Till, now: Time, c: MoneyRuns.Command)
    requires TillSound(t)
    ensures forall w :: w in t.books.wallets ==>
              w in Step(t, now, c).books.wallets && Step(t, now, c).books.wallets[w] == t.books.wallets[w]
  {
    if !c.Sweep? {
      var change := SerialChange(t.books, t.nextId, now, c);
    }
  }

  lemma ChangeKeepsHolds(b: Books, change: Change)
    requires Legal(b, change) && !change.HoldOpened?
    ensures Apply(b, change).holds.Keys == b.holds.Keys
    ensures forall h :: h in b.holds ==> SameHold(b.holds[h], Apply(b, change).holds[h])
  {
  }

  lemma OtherMoneyKeepsHolds(t: Till, now: Time, c: MoneyRuns.Command)
    requires TillSound(t) && !c.Authorize?
    ensures Step(t, now, c).books.holds.Keys == t.books.holds.Keys
    ensures forall h :: h in t.books.holds ==> SameHold(t.books.holds[h], Step(t, now, c).books.holds[h])
  {
    if c.Sweep? {
      SweepKeepsSound(t.books, now);
    } else {
      var change := SerialChange(t.books, t.nextId, now, c);
      ChangeKeepsHolds(t.books, change);
    }
  }

  lemma AuthorizeAddsItsHold(t: Till, now: Time, wallet: WalletId, amount: int, reference: string,
      expiresAt: Option<Time>)
    requires TillSound(t)
    ensures var after := Step(t, now, Authorize(wallet, amount, reference, expiresAt)).books;
            && (forall h :: h in t.books.holds ==> h in after.holds && SameHold(t.books.holds[h], after.holds[h]))
            && (forall h :: h in after.holds && h !in t.books.holds ==>
                  && wallet in t.books.wallets
                  && after.holds[h].reference == reference && after.holds[h].amount == amount
                  && after.holds[h].currency == t.books.wallets[wallet].currency)
  {
    StepKeepsLaws(t, now, Authorize(wallet, amount, reference, expiresAt));
    NothingStagedCommits(t.books);
    var change := AuthorizeChange(t.books, t.nextId, now, wallet, amount, reference, expiresAt);
  }

  lemma MoneyKeepsPriced(d: Desk, now: Time, c: MoneyRuns.Command)
    requires Billed(d) && Priced(d)
    ensures Priced(d.(till := Step(d.till, now, c)))
  {
    MoneyKeepsWallets(d.till, now, c);
  }

  lemma MoneyKeepsReserved(d: Desk, now: Time, c: MoneyRuns.Command)
    requires Billed(d) && Reserved(d) && !TakesAPeriodReference(MoneyWork(c))
    ensures Reserved(d.(till := Step(d.till, now, c)))
  {
    var after := d.(till := Step(d.till, now, c));
    if c.Authorize? {
      AuthorizeAddsItsHold(d.till, now, c.wallet, c.amount, c.reference, c.expiresAt);
    } else {
      OtherMoneyKeepsHolds(d.till, now, c);
    }
    forall h, p | h in after.till.books.holds
      ensures OwnHold(after, h, p)
    {
      if h in d.till.books.holds {
        assert OwnHold(d, h, p);
      }
    }
  }

  /** The hold a charge takes is the period's own. */
  lemma ChargeHoldKeepsReserved(d: Desk, id: PeriodId, now: Time)
    requires Tidy(d) && Reserved(d) && id in d.periods
    ensures Reserved(d.(till := Step(d.till, now, ChargeHold(d, id))))
  {
    var after := d.(till := Step(d.till, now, ChargeHold(d, id)));
    var wallet := d.subscriptions[d.periods[id].subscription].wallet;
    AuthorizeAddsItsHold(d.till, now, wallet, d.periods[id].amount, PeriodReference(id), None);
    forall h, p | h in after.till.books.holds
      ensures OwnHold(after, h, p)
    {
      if h in d.till.books.holds {
        assert OwnHold(d, h, p);
      } else if after.till.books.holds[h].reference == PeriodReference(p) {
        ReferencesDiffer(id, p);
      }
    }
  }

  lemma HeldIsTidy(d: Desk, id: PeriodId, now: Time)
    requires Tidy(d) && id in d.periods
    ensures StaysTidy(d, d.(till := Step(d.till, now, ChargeHold(d, id))))
  {
    MoneyKeepsBilled(d, now, ChargeHold(d, id));
    MoneyKeepsPriced(d, now, ChargeHold(d, id));
    if Reserved(d) {
      ChargeHoldKeepsReserved(d, id, now);
    }
    UnmovedKeepsTimeline(d, d.(till := Step(d.till, now, ChargeHold(d, id))));
  }

  // ----- the charge -----

  lemma FinishThrowsExactlyWhen(d: Desk, id: PeriodId, hold: HoldId, now: Time)
    requires Tidy(d) && id in d.periods && d.periods[id].amount != 0
    requires hold in d.till.books.holds && d.till.books.holds[hold].reference == PeriodReference(id)
    ensures FinishCharge(d, id, hold, now).1 == Threw <==> IsForeign(d, id, now, hold)
  {
    HoldSettlesWhenItFits(d, id, hold, now);
    var outcome := SettlePeriod(d, id, Some(hold), now).1;
    if outcome.Refused? {
      MarkGoesThrough(d, id, outcome.why);
    }
  }

  /** Under one reference there is one hold, so it is the foreign one or there is none. */
  lemma ForeignIsTheHold(d: Desk, id: PeriodId, now: Time, h: HoldId)
    requires Tidy(d) && id in d.periods && h in d.till.books.holds
    requires d.till.books.holds[h].reference == PeriodReference(id)
    ensures Foreign(d, id, now) <==> IsForeign(d, id, now, h)
  {
    forall k | k in d.till.books.holds && d.till.books.holds[k].reference == PeriodReference(id)
      ensures k == h
    {
      assert DistinctHoldReferences(d.till.books);
    }
  }

  /** The hold a charge goes on with: the one that was there, or a new one that fits. */
  lemma HeldFitsOrWasThere(d: Desk, id: PeriodId, now: Time, held: HoldId)
    requires Tidy(d) && id in d.periods && d.periods[id].amount != 0
    requires Perform(d.till.books, StageAuthorize(d.till.books, now, d.till.nextId,
                                                  d.subscriptions[d.periods[id].subscription].wallet,
                                                  d.periods[id].amount, PeriodReference(id), None)).Ok?
    requires held
             == Perform(d.till.books, StageAuthorize(d.till.books, now, d.till.nextId,
                                                     d.subscriptions[d.periods[id].subscription].wallet,
                                                          d.periods[id].amount, PeriodReference(id), None)).value.0
    ensures var mid := d.(till := Step(d.till, now, ChargeHold(d, id)));
            && held in mid.till.books.holds && mid.till.books.holds[held].reference == PeriodReference(id)
            && (IsForeign(mid, id, now, held) <==> Foreign(d, id, now))
  {
    var mid := d.(till := Step(d.till, now, ChargeHold(d, id)));
    var wallet := d.subscriptions[d.periods[id].subscription].wallet;
    AuthorizeGivesTheHold(d.till, now, wallet, d.periods[id].amount, PeriodReference(id));
    if HoldReferenceTaken(d.till.books, PeriodReference(id)) {
      AnsweredIsIdle(d.till, now, ChargeHold(d, id));
      ForeignIsTheHold(d, id, now, held);
    } else {
      AuthorizeAddsItsHold(d.till, now, wallet, d.periods[id].amount, PeriodReference(id), None);
      assert held !in d.till.books.holds;
      assert Fits(mid, id, held);
    }
  }

  /**
   A charge reaches the caller as an exception exactly when there is no such period, it was voided,
   or somebody else's hold under its reference would be captured and does not fit it.
   */
  lemma ChargeThrowsExactlyWhen(d: Desk, id: PeriodId, now: Time, crash: bool)
    requires Tidy(d)
    ensures ChargePeriod(d, id, now, crash).1 == Threw
       <==> id !in d.periods || d.periods[id].status == Waived
            || (d.periods[id].status != Settled && d.periods[id].amount != 0 && !crash && Foreign(d, id, now))
  {
    if id in d.periods && d.periods[id].status != Waived && d.periods[id].status != Settled {
      var p := d.periods[id];
      if p.amount == 0 {
        FreeSettles(d, id, now);
      } else {
        var wallet := d.subscriptions[p.subscription].wallet;
        AuthorizeRefusals(d.till, now, wallet, p.amount, PeriodReference(id));
        match Perform(d.till.books, StageAuthorize(d.till.books, now, d.till.nextId, wallet, p.amount,
                                                   PeriodReference(id), None))
        case Err(e) => MarkGoesThrough(d, id, e);
        case Ok(held) =>
          HeldIsTidy(d, id, now);
          HeldFitsOrWasThere(d, id, now, held.0);
          FinishThrowsExactlyWhen(d.(till := Step(d.till, now, ChargeHold(d, id))), id, held.0, now);
      }
    }
  }

  /** Where every hold under a period's reference is the period's own, nothing is foreign. */
  lemma OwnIsNotForeign(d: Desk, id: PeriodId, now: Time)
    requires Reserved(d) && id in d.periods
    ensures !Foreign(d, id, now)
  {
    forall h | h in d.till.books.holds
      ensures !IsForeign(d, id, now, h)
    {
      assert OwnHold(d, h, id);
    }
  }

  // ----- every run -----

  /** A charge writes one period in place and runs money commands of its own. */
  lemma UnmovedKeepsPriced(before: Desk, after: Desk)
    requires Priced(before) && Unmoved(before, after) && SameTerms(before, after)
    requires forall w :: w in before.till.books.wallets ==>
               w in after.till.books.wallets && after.till.books.wallets[w] == before.till.books.wallets[w]
    ensures Priced(after)
  {
  }

  ghost predicate SameTerms(before: Desk, after: Desk) {
    forall s :: s in before.subscriptions ==>
      s in after.subscriptions && after.subscriptions[s].plan == before.subscriptions[s].plan
      && after.subscriptions[s].wallet == before.subscriptions[s].wallet
  }

  lemma UnmovedKeepsReserved(before: Desk, after: Desk)
    requires Reserved(before) && Unmoved(before, after) && after.till == before.till
    ensures Reserved(after)
  {
    forall h, p | h in after.till.books.holds
      ensures OwnHold(after, h, p)
    {
      assert OwnHold(before, h, p);
    }
  }

  lemma RewriteKeepsTidy(d: Desk, id: PeriodId, p: Period, s: Subscription)
    requires Tidy(d) && id in d.periods && SamePlace(p, d.periods[id]) && WriteBoth(d, id, p, s).Some?
    requires p.status == Settled ==> PaidBy(d.till.books, id, p)
    requires d.periods[id].status != Settled
    requires s.plan == d.subscriptions[p.subscription].plan && s.wallet == d.subscriptions[p.subscription].wallet
    ensures StaysTidy(d, WriteBoth(d, id, p, s).value)
  {
    WriteKeepsBilled(d, id, p, s);
    WriteBothInPlace(d, id, p, s);
    WriteBothKeepsTerms(d, id, p, s);
    RewrittenIsTidy(d, WriteBoth(d, id, p, s).value);
  }

  lemma WriteBothKeepsTerms(d: Desk, id: PeriodId, p: Period, s: Subscription)
    requires p.subscription in d.subscriptions && WriteBoth(d, id, p, s).Some?
    requires s.plan == d.subscriptions[p.subscription].plan && s.wallet == d.subscriptions[p.subscription].wallet
    ensures SameTerms(d, WriteBoth(d, id, p, s).value) && WriteBoth(d, id, p, s).value.till == d.till
  {
  }

  lemma RewrittenIsTidy(d: Desk, after: Desk)
    requires Tidy(d) && Billed(after) && Unmoved(d, after) && Shaped(after) && SameTerms(d, after)
             && after.till == d.till
    ensures StaysTidy(d, after)
  {
    UnmovedKeepsTimeline(d, after);
    UnmovedKeepsPriced(d, after);
    if Reserved(d) {
      UnmovedKeepsReserved(d, after);
    }
  }

  lemma MarkKeepsTidy(d: Desk, id: PeriodId, why: Failure)
    requires Tidy(d) && id in d.periods && d.periods[id].status != Settled
    ensures StaysTidy(d, MarkUncollectible(d, id, why).0)
  {
    var marked, s := UncollectibleAs(d.periods[id], why), PastDueAs(d.subscriptions[d.periods[id].subscription]);
    if WriteBoth(d, id, marked, s).Some? {
      RewriteKeepsTidy(d, id, marked, s);
    }
  }

  lemma CapturedIsTidy(d: Desk, hold: HoldId, now: Time)
    requires Tidy(d)
    ensures StaysTidy(d, d.(till := Step(d.till, now, CaptureAll(hold))))
  {
    MoneyKeepsBilled(d, now, CaptureAll(hold));
    MoneyKeepsPriced(d, now, CaptureAll(hold));
    if Reserved(d) {
      MoneyKeepsReserved(d, now, CaptureAll(hold));
    }
    UnmovedKeepsTimeline(d, d.(till := Step(d.till, now, CaptureAll(hold))));
  }

  lemma SettleKeepsTidy(d: Desk, id: PeriodId, hold: Option<HoldId>, now: Time)
    requires Tidy(d) && id in d.periods && d.periods[id].status != Settled
    requires hold.None? <==> d.periods[id].amount == 0
    requires hold.Some?
             ==> hold.value in d.till.books.holds && d.till.books.holds[hold.value].reference == PeriodReference(id)
    ensures StaysTidy(d, SettlePeriod(d, id, hold, now).0)
  {
    var s := d.subscriptions[d.periods[id].subscription];
    var settled := SettledAs(d.periods[id], hold, now);
    if hold.None? {
      if WriteBoth(d, id, settled, RevivedBy(s)).Some? {
        RewriteKeepsTidy(d, id, settled, RevivedBy(s));
      }
    } else if Perform(d.till.books, StageCapture(d.till.books, now, hold.value, "", None)).Ok? {
      var paid := d.(till := Step(d.till, now, CaptureAll(hold.value)));
      CapturedIsTidy(d, hold.value, now);
      CaptureAllCaptures(d.till, now, hold.value);
      if WriteBoth(paid, id, settled, RevivedBy(s)).Some? {
        RewriteKeepsTidy(paid, id, settled, RevivedBy(s));
      }
    }
  }

  lemma FinishKeepsTidy(d: Desk, id: PeriodId, hold: HoldId, now: Time)
    requires Tidy(d) && id in d.periods && d.periods[id].status != Settled && d.periods[id].amount != 0
    requires hold in d.till.books.holds && d.till.books.holds[hold].reference == PeriodReference(id)
    ensures StaysTidy(d, FinishCharge(d, id, hold, now).0)
  {
    SettleKeepsTidy(d, id, Some(hold), now);
    var outcome := SettlePeriod(d, id, Some(hold), now).1;
    if outcome.Refused? {
      MarkKeepsTidy(d, id, outcome.why);
    }
  }

  lemma ChargeKeepsTidy(d: Desk, id: PeriodId, now: Time, crash: bool)
    requires Tidy(d)
    ensures StaysTidy(d, ChargePeriod(d, id, now, crash).0)
  {
    if id in d.periods && d.periods[id].status != Waived && d.periods[id].status != Settled {
      var p := d.periods[id];
      if p.amount == 0 {
        SettleKeepsTidy(d, id, None, now);
      } else {
        var wallet := d.subscriptions[p.subscription].wallet;
        match Perform(d.till.books, StageAuthorize(d.till.books, now, d.till.nextId, wallet, p.amount,
                                                   PeriodReference(id), None))
        case Err(e) => MarkKeepsTidy(d, id, e);
        case Ok(held) =>
          HeldIsTidy(d, id, now);
          AuthorizeGivesTheHold(d.till, now, wallet, p.amount, PeriodReference(id));
          FinishKeepsTidy(d.(till := Step(d.till, now, ChargeHold(d, id))), id, held.0, now);
      }
    }
  }

  /** A new pending period for an identifier no hold was ever taken under. */
  lemma InsertKeepsReserved(d: Desk, after: Desk, id: PeriodId)
    requires Reserved(d) && id !in d.periods && after.till == d.till
    requires id in after.periods && after.periods == d.periods[id := after.periods[id]]
    ensures Reserved(after)
  {
    forall h, p | h in after.till.books.holds
      ensures OwnHold(after, h, p)
    {
      assert OwnHold(d, h, p);
    }
  }

  lemma NextIsTidy(d: Desk, s: SubscriptionId, latest: PeriodId, endsAt: Time)
    requires Tidy(d) && s in d.subscriptions && latest in d.periods && Timeline(WithNext(d, s, latest, endsAt))
    ensures StaysTidy(d, WithNext(d, s, latest, endsAt))
  {
    var begun := WithNext(d, s, latest, endsAt);
    InsertedIsBilled(d, begun, d.nextId);
    if Reserved(d) {
      InsertKeepsReserved(d, begun, d.nextId);
    }
  }

  lemma FirstIsTidy(d: Desk, row: Subscription, startsAt: Time, endsAt: Time)
    requires Tidy(d) && row.plan in d.plans && row.wallet in d.till.books.wallets
    requires d.plans[row.plan].currency == d.till.books.wallets[row.wallet].currency
    requires Timeline(WithFirst(d, row, startsAt, endsAt))
    ensures StaysTidy(d, WithFirst(d, row, startsAt, endsAt))
  {
    var begun := WithFirst(d, row, startsAt, endsAt);
    InsertedIsBilled(d, begun, d.nextId + 1);
    if Reserved(d) {
      InsertKeepsReserved(d, begun, d.nextId + 1);
    }
  }

  lemma RenewKeepsTidy(d: Desk, s: SubscriptionId, now: Time, crash: bool)
    requires Tidy(d)
    ensures StaysTidy(d, RenewOne(d, s, now, crash).0)
  {
    if DueForRenewal(d, s, now) {
      RenewalInserts(d, s, now, crash);
      if NextEnd(d, s).Ok? {
        var begun := WithNext(d, s, Latest(d.periods, s).value, NextEnd(d, s).value);
        NextIsTidy(d, s, Latest(d.periods, s).value, NextEnd(d, s).value);
        BegunThenCharged(d, begun, d.nextId, now, crash, RenewOne(d, s, now, crash).0);
      }
    } else if s in d.subscriptions && d.subscriptions[s].status == Cancelled {
      RenewKeepsBilled(d, s, now, crash);
      ExpiryKeepsTimeline(d, s, now);
      ExpiredIsTidy(d, s, now);
    }
  }

  /**
   A renewal throws exactly when its next end leaves the range of dates, or somebody else already
   took a hold that does not fit under the reference the next period will have.
   */
  lemma RenewalThrowsExactlyWhen(d: Desk, s: SubscriptionId, now: Time, crash: bool)
    requires Tidy(d)
    ensures RenewOne(d, s, now, crash).1 == Threw
       <==> && DueForRenewal(d, s, now)
            && (NextEnd(d, s).Err? || ForeignNext(d, s, now, crash))
  {
    if DueForRenewal(d, s, now) {
      RenewalInserts(d, s, now, crash);
      if NextEnd(d, s).Ok? {
        NextIsTidy(d, s, Latest(d.periods, s).value, NextEnd(d, s).value);
        ChargeThrowsExactlyWhen(Begun(d, s), d.nextId, now, crash);
      }
    }
  }

  /** The desk with the next period in place. */
  ghost function Begun(d: Desk, s: SubscriptionId): Desk
    requires s in d.subscriptions && d.subscriptions[s].plan in d.plans && Latest(d.periods, s).Some?
             && NextEnd(d, s).Ok?
  {
    WithNext(d, s, Latest(d.periods, s).value, NextEnd(d, s).value)
  }

  ghost predicate ForeignNext(d: Desk, s: SubscriptionId, now: Time, crash: bool)
    requires DueForRenewal(d, s, now) && NextEnd(d, s).Ok?
  {
    d.plans[d.subscriptions[s].plan].amount != 0 && !crash && Foreign(Begun(d, s), d.nextId, now)
  }

  lemma NothingForeignIsNext(d: Desk, s: SubscriptionId, now: Time, crash: bool)
    requires Orderly(d) && DueForRenewal(d, s, now) && NextEnd(d, s).Ok?
    ensures !ForeignNext(d, s, now, crash)
  {
    RenewalInserts(d, s, now, crash);
    NextIsTidy(d, s, Latest(d.periods, s).value, NextEnd(d, s).value);
    OwnIsNotForeign(Begun(d, s), d.nextId, now);
  }

  lemma ExpiredIsTidy(d: Desk, s: SubscriptionId, now: Time)
    requires Tidy(d) && s in d.subscriptions
    ensures Priced(d.(subscriptions := d.subscriptions[s := ExpiredAs(d.subscriptions[s], now)]))
    ensures Reserved(d) ==> Reserved(d.(subscriptions := d.subscriptions[s := ExpiredAs(d.subscriptions[s], now)]))
  {
    var after := d.(subscriptions := d.subscriptions[s := ExpiredAs(d.subscriptions[s], now)]);
    UnmovedKeepsPriced(d, after);
    if Reserved(d) {
      UnmovedKeepsReserved(d, after);
    }
  }

  /** Charging a period that was just begun. */
  lemma BegunThenCharged(d: Desk, begun: Desk, id: PeriodId, now: Time, crash: bool, after: Desk)
    requires StaysTidy(d, begun) && after == ChargePeriod(begun, id, now, crash).0
    ensures StaysTidy(d, after)
  {
    ChargeKeepsTidy(begun, id, now, crash);
  }

  lemma SubscribeKeepsTidy(d: Desk, owner: string, plan: PlanId, wallet: WalletId, startsAt: Time, now: Time,
      crash: bool)
    requires Tidy(d)
    ensures StaysTidy(d, Subscribe(d, owner, plan, wallet, startsAt, now, crash).0)
  {
    var begun := SubscribeBegins(d, owner, plan, wallet, startsAt, now, crash);
    ThrewOrCharged(d, begun, now, crash, Subscribe(d, owner, plan, wallet, startsAt, now, crash));
  }

  lemma ThrewOrCharged(d: Desk, begun: Desk, now: Time, crash: bool, outcome: (Desk, Outcome))
    requires Tidy(d)
    requires outcome != (d, Threw) ==> StaysTidy(d, begun) && outcome == ChargePeriod(begun, d.nextId + 1, now, crash)
    ensures StaysTidy(d, outcome.0)
  {
    if outcome != (d, Threw) {
      BegunThenCharged(d, begun, d.nextId + 1, now, crash, outcome.0);
    }
  }

  lemma SubscribeBegins(d: Desk, owner: string, plan: PlanId, wallet: WalletId, startsAt: Time, now: Time, crash: bool)
    returns (begun: Desk)
    requires Tidy(d)
    ensures var outcome := Subscribe(d, owner, plan, wallet, startsAt, now, crash);
            outcome != (d, Threw) ==> StaysTidy(d, begun) && outcome == ChargePeriod(begun, d.nextId + 1, now, crash)
  {
    begun := d;
    SubscribeCharges(d, owner, plan, wallet, startsAt, now, crash);
    if Subscribe(d, owner, plan, wallet, startsAt, now, crash) != (d, Threw) {
      var row := NewRow(owner, plan, wallet, now);
      var end := AdvanceInterval(startsAt, d.plans[plan].interval, d.plans[plan].count).value;
      FirstIsTidy(d, row, startsAt, end);
      begun := WithFirst(d, row, startsAt, end);
    }
  }

  lemma CancelKeepsTerms(d: Desk, s: SubscriptionId, reason: string, now: Time)
    requires Filed(d)
    ensures SameTerms(d, Cancel(d, s, reason, now).0) && Cancel(d, s, reason, now).0.till == d.till
  {
  }

  lemma CancelKeepsTidy(d: Desk, s: SubscriptionId, reason: string, now: Time)
    requires Tidy(d)
    ensures StaysTidy(d, Cancel(d, s, reason, now).0)
  {
    var after := Cancel(d, s, reason, now).0;
    CancelKeepsBilled(d, s, reason, now);
    CancelMovesNothing(d, s, reason, now);
    UnmovedKeepsTimeline(d, after);
    CancelKeepsTerms(d, s, reason, now);
    UnmovedKeepsPriced(d, after);
    if Reserved(d) {
      UnmovedKeepsReserved(d, after);
    }
  }

  lemma MoneyKeepsTidy(d: Desk, now: Time, c: MoneyRuns.Command)
    requires Tidy(d)
    ensures Tidy(d.(till := Step(d.till, now, c)))
    ensures Reserved(d) && !TakesAPeriodReference(MoneyWork(c)) ==> Reserved(d.(till := Step(d.till, now, c)))
  {
    MoneyKeepsBilled(d, now, c);
    MoneyKeepsPriced(d, now, c);
    if Reserved(d) && !TakesAPeriodReference(MoneyWork(c)) {
      MoneyKeepsReserved(d, now, c);
    }
    UnmovedKeepsTimeline(d, d.(till := Step(d.till, now, c)));
  }

  lemma PlansKeepPriced(d: Desk, now: Time, c: Subscriptions.Command)
    requires Priced(d) && Filed(d) && (c.OfferPlan? || c.RetirePlan?)
    ensures Priced(DeskStep(d, now, c))
  {
  }

  lemma PlansKeepTidy(d: Desk, now: Time, c: Subscriptions.Command)
    requires Tidy(d) && (c.OfferPlan? || c.RetirePlan?)
    ensures StaysTidy(d, DeskStep(d, now, c))
  {
    PlansKeepLaws(d, now, c);
    PlansKeepPriced(d, now, c);
    PlansKeepMoney(d, now, c);
    RepricedIsTidy(d, DeskStep(d, now, c));
  }

  lemma PlansKeepLaws(d: Desk, now: Time, c: Subscriptions.Command)
    requires Billed(d) && Timeline(d)
    ensures Billed(DeskStep(d, now, c)) && Timeline(DeskStep(d, now, c))
  {
    StepKeepsBilled(d, now, c);
    StepKeepsTimeline(d, now, c);
  }

  lemma PlansKeepMoney(d: Desk, now: Time, c: Subscriptions.Command)
    requires c.OfferPlan? || c.RetirePlan?
    ensures DeskStep(d, now, c).till == d.till && DeskStep(d, now, c).periods == d.periods
  {
  }

  lemma RepricedIsTidy(d: Desk, after: Desk)
    requires Billed(after) && Timeline(after) && Priced(after) && after.till == d.till && after.periods == d.periods
    ensures StaysTidy(d, after)
  {
    if Reserved(d) {
      PlansKeepReserved(d, after);
    }
  }

  lemma StepKeepsTidy(d: Desk, now: Time, c: Subscriptions.Command)
    requires Tidy(d)
    ensures Tidy(DeskStep(d, now, c))
    ensures Reserved(d) && !TakesAPeriodReference(c) ==> Reserved(DeskStep(d, now, c))
  {
    match c
    case MoneyWork(command) => MoneyKeepsTidy(d, now, command);
    case OfferPlan(_, _, _, _) => PlansKeepTidy(d, now, c);
    case RetirePlan(_) => PlansKeepTidy(d, now, c);
    case SubscribeTo(owner, plan, wallet, startsAt, crash) =>
      SubscribeKeepsTidy(d, owner, plan, wallet, startsAt, now, crash);
    case Charge(period, crash) => ChargeKeepsTidy(d, period, now, crash);
    case CancelSubscription(s, reason) => CancelKeepsTidy(d, s, reason, now);
    case Renew(s, crash) => RenewKeepsTidy(d, s, now, crash);
  }

  lemma PlansKeepReserved(d: Desk, after: Desk)
    requires Reserved(d) && after.till == d.till && after.periods == d.periods
    ensures Reserved(after)
  {
    forall h, p | h in after.till.books.holds
      ensures OwnHold(after, h, p)
    {
      assert OwnHold(d, h, p);
    }
  }

  lemma {:induction false} EveryRunIsTidy(log: seq<Subscriptions.Timed>)
    ensures Tidy(RunDesk(log))
  {
    EveryRunIsBilled(log);
    if log != [] {
      EveryRunIsTidy(log[..|log| - 1]);
      StepKeepsTidy(RunDesk(log[..|log| - 1]), log[|log| - 1].at, log[|log| - 1].command);
    }
  }

  /** Nobody takes a hold under a period's reference but the charge of that period. */
  ghost predicate LeavesReferences(log: seq<Subscriptions.Timed>) {
    forall i :: 0 <= i < |log| ==> !TakesAPeriodReference(log[i].command)
  }

  lemma {:induction false} EveryRunIsOrderly(log: seq<Subscriptions.Timed>)
    requires LeavesReferences(log)
    ensures Orderly(RunDesk(log))
  {
    EveryRunIsTidy(log);
    if log != [] {
      EveryRunIsOrderly(log[..|log| - 1]);
      StepKeepsTidy(RunDesk(log[..|log| - 1]), log[|log| - 1].at, log[|log| - 1].command);
    }
  }

  /**
   After every run a charge throws exactly for a period that is missing, voided, or under whose
   reference somebody else's hold stands in the way; every other refusal is recorded.
   */
  lemma NothingElseStopsACharge(log: seq<Subscriptions.Timed>, id: PeriodId, now: Time, crash: bool)
    ensures var d := RunDesk(log);
            ChargePeriod(d, id, now, crash).1 == Threw
            <==> id !in d.periods || d.periods[id].status == Waived
                 || (d.periods[id].status != Settled && d.periods[id].amount != 0 && !crash && Foreign(d, id, now))
    ensures LeavesReferences(log) && id in RunDesk(log).periods ==> !Foreign(RunDesk(log), id, now)
  {
    EveryRunIsTidy(log);
    ChargeThrowsExactlyWhen(RunDesk(log), id, now, crash);
    if LeavesReferences(log) && id in RunDesk(log).periods {
      EveryRunIsOrderly(log);
      OwnIsNotForeign(RunDesk(log), id, now);
    }
  }

  /** After every run that leaves those references alone, only a date out of range stops a renewal. */
  lemma OnlyDatesStopARenewal(log: seq<Subscriptions.Timed>, s: SubscriptionId, now: Time, crash: bool)
    requires LeavesReferences(log)
    ensures var d := RunDesk(log);
            RenewOne(d, s, now, crash).1 == Threw <==> DueForRenewal(d, s, now) && NextEnd(d, s).Err?
  {
    EveryRunIsOrderly(log);
    OrderlyRenewalThrowsExactlyWhen(RunDesk(log), s, now, crash);
  }

  lemma OrderlyRenewalThrowsExactlyWhen(d: Desk, s: SubscriptionId, now: Time, crash: bool)
    requires Orderly(d)
    ensures RenewOne(d, s, now, crash).1 == Threw <==> DueForRenewal(d, s, now) && NextEnd(d, s).Err?
  {
    RenewalThrowsExactlyWhen(d, s, now, crash);
    if DueForRenewal(d, s, now) && NextEnd(d, s).Ok? {
      NothingForeignIsNext(d, s, now, crash);
    }
  }
}
