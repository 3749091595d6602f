/**
 What each fulfillment command comes to, run alone: the status it leaves, what becomes of the hold
 and of the money, and what it announces. Everything is said of the rows and books before and after.
 */
module FulfillmentEffects {
  import opened Common
  import opened Money
  import opened MoneyRuns
  import opened MoneyLedgerLaws
  import opened MoneyEffects
  import opened Fulfillment
  import opened FulfillmentSerial

  // ----- what becomes of a hold -----

  /** Nothing is captured; a hold that was still open is closed with what it had captured before. */
  ghost predicate LetGo(b: Books, after: Books, now: Time, hold: Option<HoldId>) {
    && after.ledger == b.ledger && after.wallets == b.wallets
    && if hold.Some? && hold.value in b.holds && b.holds[hold.value].status == Authorized
       then
         && OnlyHold(b, after, hold.value)
         && ClosedAs(b.holds[hold.value], after.holds[hold.value], after.holds[hold.value].voidReason, now)
       else after == b
  }

  /** All that was left of an open hold is captured; one already captured is left as it is. */
  ghost predicate Paid(b: Books, after: Books, now: Time, hold: Option<HoldId>) {
    if hold.None? then after == b
    else
      && hold.value in b.holds
      && var h := b.holds[hold.value];
         if h.status == Captured then after == b
         else
           && OnlyHold(b, after, hold.value) && CapturedMore(h, after.holds[hold.value], h.amount - h.captured, now)
           && Moves(b, after, ClearingCaptured, WalletAccount(h.wallet), h.amount - h.captured)
  }

  /**
   Whether a delivery can be paid for: there is nothing to pay, or the hold is open and has not
   expired, or it was captured as a whole before.
   */
  predicate Payable(b: Books, now: Time, hold: Option<HoldId>) {
    hold.Some? ==>
      && hold.value in b.holds
      && var h := b.holds[hold.value];
         || (h.status == Authorized && (h.expiresAt.Some? ==> now < h.expiresAt.value))
         || OnLedger(b, CaptureReference(hold.value, ""))
  }

  lemma ReleaseLetsGo(b: Books, now: Time, hold: Option<HoldId>, reason: string)
    requires Sound(b) && (hold.Some? ==> hold.value in b.holds) && reason != ""
    ensures var money := Release(b, now, hold, reason).money;
            Commit(b, money).Ok? && LetGo(b, Commit(b, money).value, now, hold)
  {
    NothingStagedCommits(b);
    if hold.Some? {
      assert SoundHold(b, hold.value);
      VoidIsExact(b, 0, now, hold.value, reason);
      var _ := VoidChange(b, now, hold.value, reason);
    }
  }

  lemma CapturedWholeIsCaptured(b: Books, hold: HoldId)
    requires Sound(b) && hold in b.holds && OnLedger(b, CaptureReference(hold, ""))
    ensures b.holds[hold].status == Captured
  {
    FindIsMembership(b.ledger, CaptureReference(hold, ""));
    assert SoundHold(b, hold);
  }

  lemma SettlePaysExactlyWhen(b: Books, now: Time, hold: Option<HoldId>)
    requires Sound(b) && (hold.Some? ==> hold.value in b.holds)
    ensures var (ok, outcome) := Settle(b, now, hold);
            && (ok <==> Payable(b, now, hold))
            && Commit(b, outcome.money).Ok?
            && if ok then Paid(b, Commit(b, outcome.money).value, now, hold)
               else LetGo(b, Commit(b, outcome.money).value, now, hold)
  {
    NothingStagedCommits(b);
    if hold.Some? {
      assert SoundHold(b, hold.value);
      CaptureIsExact(b, 0, now, hold.value, "", None);
      var _ := CaptureChange(b, now, hold.value, "", None);
      if OnLedger(b, CaptureReference(hold.value, "")) {
        CapturedWholeIsCaptured(b, hold.value);
      }
      if StageCapture(b, now, hold.value, "", None).Refused? {
        ReleaseLetsGo(b, now, hold, "settlement_failed");
      }
    }
  }

  // ----- what becomes of a row -----

  predicate OnlyRow(before: World, after: World, id: FulfillmentId) {
    id in after.rows && after.rows == before.rows[id := after.rows[id]]
  }

  predicate ClosedRow(before: Row, after: Row, status: Status, at: Time, job: Option<string>, reason: string) {
    && after.status == status && after.completedAt == Some(at) && after.job == job && after.closureReason == reason
    && after.order == before.order && after.hold == before.hold && after.createdAt == before.createdAt
    && after.executedAt == before.executedAt && after.executedJob == before.executedJob
  }

  /** One closure is announced, with the row's outcome and, where it is known, what the hold captured. */
  predicate AnnouncesClosure(before: World, after: World, id: FulfillmentId)
    requires id in after.rows
  {
    && |after.outbox| == |before.outbox| + 1 && after.outbox[..|before.outbox|] == before.outbox
    && var e, row := after.outbox[|before.outbox|], after.rows[id];
       && e.ClosureEvent? && e.id == id && e.outcome == row.status && e.settlement == row.settlement
       && (e.captured.Some? ==> row.hold.Some? && row.hold.value in after.books.holds
                                && e.captured.value == after.books.holds[row.hold.value].captured)
       && (e.captured.None? ==> row.settlement == NoFunds || row.settlement == FundsUnsettled)
  }

  ghost predicate ClosesAs(before: World, after: World, id: FulfillmentId, status: Status, at: Time,
      job: Option<string>, reason: string)
    requires id in before.rows
  {
    && OnlyRow(before, after, id) && ClosedRow(before.rows[id], after.rows[id], status, at, job, reason)
    && AnnouncesClosure(before, after, id)
  }

  lemma ReleaseKnowsWhatWasCaptured(b: Books, now: Time, hold: Option<HoldId>, reason: string)
    requires Sound(b) && (hold.Some? ==> hold.value in b.holds) && reason != ""
    ensures var outcome := Release(b, now, hold, reason);
            && Commit(b, outcome.money).Ok? && KnowsWhatWasCaptured(Commit(b, outcome.money).value, hold, outcome)
  {
    if hold.Some? {
      var _ := ReleaseTellsTheTruth(b, now, hold.value, reason);
      assert SoundHold(b, hold.value);
      ReleaseLetsGo(b, now, hold, reason);
    } else {
      NothingStagedCommits(b);
    }
  }

  predicate KnowsWhatWasCaptured(after: Books, hold: Option<HoldId>, outcome: SettlementOutcome) {
    && (outcome.captured.Some? ==>
          hold.Some? && hold.value in after.holds && outcome.captured.value == after.holds[hold.value].captured)
    && (outcome.captured.None? ==> outcome.settlement == NoFunds || outcome.settlement == FundsUnsettled)
  }

  lemma SettleKnowsWhatWasCaptured(b: Books, now: Time, hold: Option<HoldId>)
    requires Sound(b) && (hold.Some? ==> hold.value in b.holds)
    ensures var outcome := Settle(b, now, hold).1;
            && Commit(b, outcome.money).Ok? && KnowsWhatWasCaptured(Commit(b, outcome.money).value, hold, outcome)
  {
    if hold.None? {
      NothingStagedCommits(b);
    } else if StageCapture(b, now, hold.value, "", None).Refused? {
      ReleaseKnowsWhatWasCaptured(b, now, hold, "settlement_failed");
    } else {
      var after := SettleTellsTheTruth(b, now, hold.value);
      assert SoundHold(after, hold.value);
    }
  }

  /** A closing that is read commits, as the row and the outcome it was given. */
  lemma ClosingLands(w: World, id: FulfillmentId, closed: Row, outcome: SettlementOutcome)
    requires id in w.rows && !IsClosed(w.rows[id].status) && Commit(w.books, outcome.money).Ok?
    requires KnowsWhatWasCaptured(Commit(w.books, outcome.money).value, closed.hold, outcome)
    requires RowAllowed(closed) && closed.settlement == outcome.settlement
    ensures var landed := CommitWork(w, CloseWith(id, closed, outcome).work);
            && landed.Committed? && landed.world.books == Commit(w.books, outcome.money).value
            && OnlyRow(w, landed.world, id) && landed.world.rows[id] == closed
            && AnnouncesClosure(w, landed.world, id)
  {
  }

  /** The row of an open order, closed in a state that needs nothing captured. */
  predicate ClosedBy(row: Row, closed: Row, settlement: Settlement) {
    && (closed.status == Failed || closed.status == Status.Cancelled) && closed.settlement == settlement
    && closed.hold == row.hold && closed.executedAt == None && closed.executedJob == None
  }

  lemma LettingGoLands(w: World, now: Time, id: FulfillmentId, closed: Row, reason: string)
    requires Sound(w.books) && id in w.rows && !IsClosed(w.rows[id].status) && RowTruth(w.books, w.rows[id])
    requires reason != "" && ClosedBy(w.rows[id], closed, Release(w.books, now, w.rows[id].hold, reason).settlement)
    ensures var landed := CommitWork(w, CloseWith(id, closed, Release(w.books, now, w.rows[id].hold, reason)).work);
            && landed.Committed? && LetGo(w.books, landed.world.books, now, w.rows[id].hold)
            && OnlyRow(w, landed.world, id) && landed.world.rows[id] == closed
            && AnnouncesClosure(w, landed.world, id)
  {
    ReleaseLetsGo(w.books, now, w.rows[id].hold, reason);
    ReleaseKnowsWhatWasCaptured(w.books, now, w.rows[id].hold, reason);
    var _ := ReleaseOutcome(w.books, now, w.rows[id].hold, reason);
    ClosingLands(w, id, closed, Release(w.books, now, w.rows[id].hold, reason));
  }

  lemma SettlingLands(w: World, now: Time, id: FulfillmentId, closed: Row)
    requires Sound(w.books) && id in w.rows && !IsClosed(w.rows[id].status) && RowTruth(w.books, w.rows[id])
    requires var (ok, outcome) := Settle(w.books, now, w.rows[id].hold);
             && closed.settlement == outcome.settlement && closed.hold == w.rows[id].hold
             && closed.status == (if ok then Completed else Failed)
             && closed.executedAt == None && closed.executedJob == None
    ensures var landed := CommitWork(w, CloseWith(id, closed, Settle(w.books, now, w.rows[id].hold).1).work);
            && landed.Committed? && OnlyRow(w, landed.world, id) && landed.world.rows[id] == closed
            && AnnouncesClosure(w, landed.world, id)
            && (closed.status == Completed <==> Payable(w.books, now, w.rows[id].hold))
            && if closed.status == Completed then Paid(w.books, landed.world.books, now, w.rows[id].hold)
               else LetGo(w.books, landed.world.books, now, w.rows[id].hold)
  {
    SettlePaysExactlyWhen(w.books, now, w.rows[id].hold);
    SettleKnowsWhatWasCaptured(w.books, now, w.rows[id].hold);
    var _ := SettleOutcome(w.books, now, w.rows[id].hold);
    ClosingLands(w, id, closed, Settle(w.books, now, w.rows[id].hold).1);
  }

  // ----- the commands -----

  /**
   A completion of an open order: delivered and payable, it is completed and paid in full; otherwise
   it fails, and its hold is let go with nothing more captured.
   */
  lemma CompletionIsExact(o: Office, now: Time, id: FulfillmentId, job: string, delivered: bool, at: Time, after: World)
    requires Truthful(o) && id in o.world.rows && !IsClosed(o.world.rows[id].status)
    requires after == FulfillmentSerial.Step(o, now, Coordinate(ConsumeMoveCompletion(id, job, delivered, at))).world
    ensures var hold := o.world.rows[id].hold;
            if delivered && Payable(o.world.books, now, hold)
            then
              && ClosesAs(o.world, after, id, Completed, at, Some(job), "")
              && Paid(o.world.books, after.books, now, hold)
            else
              && ClosesAs(o.world, after, id, Failed, at, Some(job),
                          if delivered then "payment_settlement_failed" else "move_execution_failed")
              && LetGo(o.world.books, after.books, now, hold)
  {
    var row, w := o.world.rows[id], o.world;
    assert RowTruth(w.books, row);
    var closed := Read(w, o.nextId, now, ConsumeMoveCompletion(id, job, delivered, at)).work.row.value.row;
    if delivered {
      SettlingLands(w, now, id, closed);
    } else {
      LettingGoLands(w, now, id, closed, "move_execution_failed");
    }
  }

  /** A rejection of an open order fails it, and a cancellation cancels it; either lets the hold go. */
  lemma RejectionIsExact(o: Office, now: Time, id: FulfillmentId, reason: string, after: World)
    requires Truthful(o) && id in o.world.rows && !IsClosed(o.world.rows[id].status)
    requires after == FulfillmentSerial.Step(o, now, Coordinate(ConsumeJobRejected(id, reason))).world
    ensures ClosesAs(o.world, after, id, Failed, now, o.world.rows[id].job, reason)
    ensures LetGo(o.world.books, after.books, now, o.world.rows[id].hold)
  {
    assert RowTruth(o.world.books, o.world.rows[id]);
    var closed := Read(o.world, o.nextId, now, ConsumeJobRejected(id, reason)).work.row.value.row;
    LettingGoLands(o.world, now, id, closed, "move_rejected:" + reason);
  }

  lemma CancellationIsExact(o: Office, now: Time, id: FulfillmentId, reason: string, after: World)
    requires Truthful(o) && id in o.world.rows && !IsClosed(o.world.rows[id].status) && reason != ""
    requires after == FulfillmentSerial.Step(o, now, Coordinate(Cancel(id, reason))).world
    ensures ClosesAs(o.world, after, id, Status.Cancelled, now, o.world.rows[id].job, reason)
    ensures LetGo(o.world.books, after.books, now, o.world.rows[id].hold)
  {
    assert RowTruth(o.world.books, o.world.rows[id]);
    var closed := Read(o.world, o.nextId, now, Cancel(id, reason)).work.row.value.row;
    LettingGoLands(o.world, now, id, closed, "cancelled:" + reason);
  }

  /** An acceptance of a coordinating order dispatches it under the job, and touches nothing else. */
  lemma AcceptanceIsExact(o: Office, now: Time, id: FulfillmentId, job: string, after: World)
    requires Truthful(o) && id in o.world.rows && o.world.rows[id].status == Coordinating
    requires after == FulfillmentSerial.Step(o, now, Coordinate(ConsumeJobAccepted(id, job))).world
    ensures OnlyRow(o.world, after, id) && after.books == o.world.books
    ensures after.rows[id] == o.world.rows[id].(status := Dispatched, job := Some(job))
    ensures after.outbox == o.world.outbox + [DispatchedEvent(id)]
  {
    NothingStagedCommits(o.world.books);
    assert RowTruth(o.world.books, o.world.rows[id]);
  }

  /** Whether a hold can guard a new order: there is none, or it is open and has not expired. */
  predicate Guards(b: Books, now: Time, hold: Option<HoldId>) {
    hold.Some? ==>
      && hold.value in b.holds
      && b.holds[hold.value].status == Authorized
      && (b.holds[hold.value].expiresAt.Some? ==> now < b.holds[hold.value].expiresAt.value)
  }

  predicate NewRow(b: Books, row: Row, now: Time, order: string, hold: Option<HoldId>) {
    && row.order == order && row.createdAt == now && row.job == None
    && row.executedAt == None && row.executedJob == None
    && row.hold == (if hold.Some? && hold.value in b.holds then hold else None)
  }

  ghost predicate TakesOrder(before: World, after: World, id: FulfillmentId, now: Time, order: string,
      hold: Option<HoldId>)
  {
    && OnlyRow(before, after, id) && NewRow(before.books, after.rows[id], now, order, hold)
    && if Guards(before.books, now, hold)
       then
         && after.rows[id].status == Coordinating && after.rows[id].completedAt == None
         && after.rows[id].settlement == (if hold.None? then NoFunds else FundsHeld)
         && after.books == before.books && after.outbox == before.outbox + [CreatedEvent(id)]
       else
         && after.rows[id].status == Failed && after.rows[id].completedAt == Some(now)
         && LetGo(before.books, after.books, now, after.rows[id].hold)
         && |after.outbox| == |before.outbox| + 1 && after.outbox[..|before.outbox|] == before.outbox
         && after.outbox[|before.outbox|].ClosureEvent? && after.outbox[|before.outbox|].id == id
  }

  /**
   A new order is coordinated exactly when it has no hold or an open, unexpired one; otherwise it
   fails at once and the hold, if there is one, is let go. A known order changes nothing.
   */
  lemma IntakeIsExact(o: Office, now: Time, order: string, hold: Option<HoldId>, after: World)
    requires Truthful(o)
    requires after == FulfillmentSerial.Step(o, now, Coordinate(ConsumeMarketOrder(order, hold))).world
    ensures o.nextId !in o.world.rows
    ensures if exists f :: f in o.world.rows && o.world.rows[f].order == order then after == o.world
            else TakesOrder(o.world, after, o.nextId, now, order, hold)
  {
    if !OrderTaken(o.world.rows, order) {
      if Guards(o.world.books, now, hold) {
        GuardedIsTaken(o.world, o.nextId, now, order, hold);
      } else {
        UnguardedIsRefused(o.world, o.nextId, now, order, hold);
      }
    }
  }

  lemma GuardedIsTaken(w: World, id: FulfillmentId, now: Time, order: string, hold: Option<HoldId>)
    requires Sound(w.books) && !OrderTaken(w.rows, order) && Guards(w.books, now, hold)
    ensures ReadIntake(w, id, now, order, hold).Staging?
    ensures var landed := CommitWork(w, ReadIntake(w, id, now, order, hold).work);
            landed.Committed? && TakesOrder(w, landed.world, id, now, order, hold)
  {
    NothingStagedCommits(w.books);
  }

  lemma UnguardedIsRefused(w: World, id: FulfillmentId, now: Time, order: string, hold: Option<HoldId>)
    requires Sound(w.books) && !OrderTaken(w.rows, order) && !Guards(w.books, now, hold)
    ensures ReadIntake(w, id, now, order, hold).Staging?
    ensures var landed := CommitWork(w, ReadIntake(w, id, now, order, hold).work);
            landed.Committed? && TakesOrder(w, landed.world, id, now, order, hold)
  {
    var row, books := RefusalIsTruthful(w, id, now, order, hold);
    if hold.value in w.books.holds && w.books.holds[hold.value].status == Authorized {
      ReleaseLetsGo(w.books, now, hold, "refused");
    } else {
      NothingStagedCommits(w.books);
    }
  }

  /** What is closed stays as it is under rejections, cancellations and all reports but a first late one. */
  lemma ClosedIsLeftAlone(o: Office, now: Time, c: Fulfillment.Command, after: World)
    requires Truthful(o) && (c.ConsumeJobRejected? || c.ConsumeMoveCompletion? || c.Cancel?)
    requires after == FulfillmentSerial.Step(o, now, Coordinate(c)).world
    requires c.fulfillment in o.world.rows ==> IsClosed(o.world.rows[c.fulfillment].status)
    ensures if c.ConsumeMoveCompletion? && c.delivered && c.fulfillment in o.world.rows
               && o.world.rows[c.fulfillment].status == Status.Cancelled
               && o.world.rows[c.fulfillment].executedAt.None?
            then
              && OnlyRow(o.world, after, c.fulfillment) && after.books == o.world.books
              && after.rows[c.fulfillment]
                 == o.world.rows[c.fulfillment].(executedAt := Some(c.at), executedJob := Some(c.job))
              && after.outbox == o.world.outbox + [ExecutedAfterCancellationEvent(c.fulfillment)]
            else after == o.world
  {
    NothingStagedCommits(o.world.books);
    if c.fulfillment in o.world.rows {
      assert RowTruth(o.world.books, o.world.rows[c.fulfillment]);
    }
  }

  /** A late acceptance traces its job on a cancelled order, if no other order has the job, and does nothing else. */
  lemma LateAcceptanceIsExact(o: Office, now: Time, id: FulfillmentId, job: string, after: World)
    requires Truthful(o) && (id in o.world.rows ==> o.world.rows[id].status != Coordinating)
    requires after == FulfillmentSerial.Step(o, now, Coordinate(ConsumeJobAccepted(id, job))).world
    ensures if id in o.world.rows && o.world.rows[id].status == Status.Cancelled
               && forall other :: other in o.world.rows && other != id ==> o.world.rows[other].job != Some(job)
            then after == o.world.(rows := o.world.rows[id := o.world.rows[id].(job := Some(job))])
            else after == o.world
  {
    NothingStagedCommits(o.world.books);
    if id in o.world.rows {
      assert RowTruth(o.world.books, o.world.rows[id]);
      assert o.world.rows[id := o.world.rows[id]] == o.world.rows;
    }
  }

  // ----- what is refused -----

  /** The commands that throw: about an unknown order, or about one that is closed, or dispatched, otherwise. */
  predicate IsRefused(rows: map<FulfillmentId, Row>, c: Fulfillment.Command) {
    match c
    case ConsumeMarketOrder(_, _) => false
    case ConsumeJobAccepted(id, job) =>
      || id !in rows || rows[id].status == Completed || rows[id].status == Failed
      || (rows[id].status == Dispatched && rows[id].job != Some(job))
    case ConsumeJobRejected(id, _) =>
      id !in rows || rows[id].status == Completed || rows[id].status == Status.Cancelled
    case ConsumeMoveCompletion(id, job, _, _) =>
      || id !in rows
      || ((rows[id].status == Completed || rows[id].status == Failed) && rows[id].job != Some(job))
    case Cancel(id, reason) =>
      id !in rows || reason == "" || rows[id].status == Completed || rows[id].status == Failed
  }
}
