/**
 Serial runs of fulfillment and money commands together: what the recorded settlement state
 says about the hold is true when a fulfillment closes and stays true for ever.
 */
module FulfillmentSerial {
  import opened Common
  import opened Money
  import opened MoneyRuns
  import opened MoneyChanges
  import opened MoneyLedgerLaws
  import opened Fulfillment

  datatype Act =
    | Coordinate(fulfillment: Fulfillment.Command)
    | Bank(money: MoneyRuns.Command)

  datatype Office = Office(world: World, nextId: nat)

  const EMPTY_OFFICE := Office(World(EMPTY_TILL.books, map[], []), 0)

  /** One command, reading and committing before any other runs. */
  ghost function Step(o: Office, now: Time, act: Act): Office {
    match act
    case Bank(c) => Office(o.world.(books := BooksStep(o.world.books, o.nextId, now, c)), o.nextId + 1)
    case Coordinate(c) =>
      match Read(o.world, o.nextId, now, c)
      case Staging(work) =>
        (match CommitWork(o.world, work)
         case Committed(world) => Office(world, o.nextId + 1)
         case _ => Office(o.world, o.nextId + 1))
      case _ => Office(o.world, o.nextId + 1)
  }

  datatype Timed = Timed(at: Time, act: Act)

  ghost function Run(start: Office, log: seq<Timed>): Office {
    if log == [] then start
    else Step(Run(start, log[..|log| - 1]), log[|log| - 1].at, log[|log| - 1].act)
  }

  /** What each recorded settlement state claims about the hold. */
  predicate SettlementTruth(b: Books, row: Row) {
    if row.hold.None? then row.settlement == NoFunds
    else
      && row.hold.value in b.holds
      && var h := b.holds[row.hold.value];
         if !IsClosed(row.status) then row.settlement == FundsHeld
         else
           match row.settlement
           case FundsCaptured => h.status == Captured && h.captured == h.amount
           case FundsReleased => h.status == Voided && h.captured == 0
           case FundsPartiallyCaptured => h.status == PartiallyCaptured && 0 < h.captured < h.amount
           case FundsUnsettled => h.status == Captured && h.captured == h.amount
           case _ => false
  }

  ghost predicate RowTruth(b: Books, row: Row) {
    && SettlementTruth(b, row)
    && RowAllowed(row)
    && (row.status == Completed ==> row.settlement == NoFunds || row.settlement == FundsCaptured)
  }

  ghost predicate Truthful(o: Office) {
    && Sound(o.world.books) && FreshFrom(o.world.books, o.nextId)
    && (forall id :: id in o.world.rows ==> id < o.nextId && RowTruth(o.world.books, o.world.rows[id]))
  }

  /** A closed hold never moves again, so what was true of it stays true. */
  lemma TruthSurvivesMoney(before: Books, after: Books, row: Row)
    requires Sound(before) && Sound(after) && ClosedStayClosed(before, after) && RowTruth(before, row)
    ensures RowTruth(after, row)
  {
    if row.hold.Some? {
      assert SoundHold(before, row.hold.value);
      assert SoundHold(after, row.hold.value);
    }
  }

  lemma MoneyStepLaws(b: Books, id: nat, now: Time, c: MoneyRuns.Command)
    requires Sound(b) && FreshFrom(b, id)
    ensures Sound(BooksStep(b, id, now, c)) && ClosedStayClosed(b, BooksStep(b, id, now, c))
    ensures FreshFrom(BooksStep(b, id, now, c), id + 1)
  {
    if c.Sweep? {
      SweepKeepsSound(b, now);
    } else {
      var change := SerialChange(b, id, now, c);
      ChangeKeepsSound(b, change);
      ChangeKeepsClosed(b, change);
      ChangeKeepsFresh(b, id, change);
    }
  }

  /** Releasing a hold commits, and the settlement state it reports is the truth afterwards. */
  lemma ReleaseTellsTheTruth(b: Books, now: Time, hold: HoldId, reason: string) returns (after: Books)
    requires Sound(b) && hold in b.holds && reason != ""
    ensures var outcome := Release(b, now, Some(hold), reason);
            && Commit(b, outcome.money) == Ok(after)
            && Sound(after) && ClosedStayClosed(b, after) && after.holds.Keys == b.holds.Keys
                && after.wallets == b.wallets
            && (match outcome.settlement
                case FundsReleased => after.holds[hold].status == Voided && outcome.captured == Some(0)
                case FundsPartiallyCaptured =>
                  after.holds[hold].status == PartiallyCaptured && outcome.captured == Some(after.holds[hold].captured)
                case FundsUnsettled => after.holds[hold].status == Captured && outcome.captured == None
                case _ => false)
  {
    assert SoundHold(b, hold);
    NothingStagedCommits(b);
    var change := VoidChange(b, now, hold, reason);
    after := Apply(b, change);
    ChangeKeepsSound(b, change);
    ChangeKeepsClosed(b, change);
    assert SoundHold(after, hold);
  }

  /** A capture that is staged commits. */
  lemma CaptureCommits(b: Books, now: Time, hold: HoldId) returns (after: Books)
    requires Sound(b) && StageCapture(b, now, hold, "", None).Staged?
    ensures Commit(b, StageCapture(b, now, hold, "", None).writes) == Ok(after)
    ensures after == BooksStep(b, 0, now, CaptureHold(hold, "", None))
    ensures Sound(after) && ClosedStayClosed(b, after) && after.holds.Keys == b.holds.Keys && after.wallets == b.wallets
  {
    var change := CaptureChange(b, now, hold, "", None);
    after := Apply(b, change);
    ChangeKeepsSound(b, change);
    ChangeKeepsClosed(b, change);
  }

  /** And a capture of the whole remainder leaves the hold captured in full. */
  lemma CaptureCommitsInFull(b: Books, now: Time, hold: HoldId) returns (after: Books)
    requires Sound(b) && hold in b.holds && StageCapture(b, now, hold, "", None).Staged?
    ensures Commit(b, StageCapture(b, now, hold, "", None).writes) == Ok(after)
    ensures Sound(after) && ClosedStayClosed(b, after) && after.holds.Keys == b.holds.Keys && after.wallets == b.wallets
    ensures after.holds[hold].status == Captured && after.holds[hold].captured == after.holds[hold].amount
  {
    after := CaptureCommits(b, now, hold);
    CaptureIsAnswered(b, 0, now, hold, "", None);
    assert SoundHold(after, hold);
  }

  /** Settling commits, and reports success exactly when the hold ends up captured in full by it. */
  lemma SettleTellsTheTruth(b: Books, now: Time, hold: HoldId) returns (after: Books)
    requires Sound(b) && hold in b.holds
    ensures var (ok, outcome) := Settle(b, now, Some(hold));
            && Commit(b, outcome.money) == Ok(after)
            && Sound(after) && ClosedStayClosed(b, after) && after.holds.Keys == b.holds.Keys
                && after.wallets == b.wallets
            && (ok ==> outcome.settlement == FundsCaptured && after.holds[hold].status == Captured
                       && outcome.captured == Some(after.holds[hold].amount))
            && (!ok ==>
                  match outcome.settlement
                  case FundsReleased => after.holds[hold].status == Voided
                  case FundsPartiallyCaptured => after.holds[hold].status == PartiallyCaptured
                  case FundsUnsettled => after.holds[hold].status == Captured
                  case _ => false)
  {
    if StageCapture(b, now, hold, "", None).Refused? {
      after := ReleaseTellsTheTruth(b, now, hold, "settlement_failed");
    } else {
      after := CaptureCommitsInFull(b, now, hold);
    }
  }

  /** The unit of work commits, writes this one row, and what the row says is true of the books it commits with. */
  ghost predicate CommitsTruthfully(w: World, work: Work, id: FulfillmentId, row: Row, books: Books) {
    && CommitWork(w, work) == Committed(World(books, w.rows[id := row], w.outbox + work.events))
    && Sound(books) && ClosedStayClosed(w.books, books)
    && books.holds.Keys == w.books.holds.Keys && books.wallets == w.books.wallets
    && RowTruth(books, row)
  }

  /** Closing a row with an outcome whose claim about the hold holds in the books it commits with. */
  lemma ClosesTruthfully(w: World, id: FulfillmentId, closed: Row, outcome: SettlementOutcome, books: Books)
    requires id in w.rows && !IsClosed(w.rows[id].status)
    requires Commit(w.books, outcome.money) == Ok(books)
    requires Sound(books) && ClosedStayClosed(w.books, books)
    requires books.holds.Keys == w.books.holds.Keys && books.wallets == w.books.wallets
    requires RowTruth(books, closed)
    ensures CommitsTruthfully(w, CloseWith(id, closed, outcome).work, id, closed, books)
  {
  }

  /** What an outcome may claim about a hold that has just been brought to a terminal state. */
  predicate ClaimHolds(b: Books, hold: Option<HoldId>, settlement: Settlement) {
    if hold.None? then settlement == NoFunds
    else
      && hold.value in b.holds
      && match settlement
         case FundsCaptured => b.holds[hold.value].status == Captured
         case FundsReleased => b.holds[hold.value].status == Voided
         case FundsPartiallyCaptured => b.holds[hold.value].status == PartiallyCaptured
         case FundsUnsettled => b.holds[hold.value].status == Captured
         case _ => false
  }

  lemma ClaimIsTruth(b: Books, row: Row)
    requires Sound(b) && IsClosed(row.status) && ClaimHolds(b, row.hold, row.settlement)
    requires row.settlement == FundsCaptured ==> row.status == Completed
    requires row.status == Completed ==> row.settlement == NoFunds || row.settlement == FundsCaptured
    requires row.executedAt == None && row.executedJob == None
    ensures RowTruth(b, row)
  {
    if row.hold.Some? {
      assert SoundHold(b, row.hold.value);
    }
  }

  lemma ReleaseOutcome(b: Books, now: Time, hold: Option<HoldId>, reason: string) returns (after: Books)
    requires Sound(b) && (hold.Some? ==> hold.value in b.holds) && reason != ""
    ensures var outcome := Release(b, now, hold, reason);
            && Commit(b, outcome.money) == Ok(after) && ClaimHolds(after, hold, outcome.settlement)
            && outcome.settlement != FundsCaptured
    ensures Sound(after) && ClosedStayClosed(b, after) && after.holds.Keys == b.holds.Keys && after.wallets == b.wallets
  {
    if hold.None? {
      NothingStagedCommits(b);
      after := b;
    } else {
      after := ReleaseTellsTheTruth(b, now, hold.value, reason);
    }
  }

  lemma SettleOutcome(b: Books, now: Time, hold: Option<HoldId>) returns (after: Books)
    requires Sound(b) && (hold.Some? ==> hold.value in b.holds)
    ensures var (ok, outcome) := Settle(b, now, hold);
            && Commit(b, outcome.money) == Ok(after) && ClaimHolds(after, hold, outcome.settlement)
            && (ok ==> outcome.settlement == NoFunds || outcome.settlement == FundsCaptured)
            && (!ok ==> outcome.settlement != FundsCaptured)
    ensures Sound(after) && ClosedStayClosed(b, after) && after.holds.Keys == b.holds.Keys && after.wallets == b.wallets
  {
    if hold.None? {
      NothingStagedCommits(b);
      after := b;
    } else {
      after := SettleTellsTheTruth(b, now, hold.value);
    }
  }

  lemma RefusalIsTruthful(w: World, id: FulfillmentId, now: Time, order: string, hold: Option<HoldId>)
    returns (row: Row, books: Books)
    requires Sound(w.books) && !OrderTaken(w.rows, order) && !InspectHold(w.books, now, hold).usable
    ensures ReadIntake(w, id, now, order, hold).Staging?
    ensures CommitsTruthfully(w, ReadIntake(w, id, now, order, hold).work, id, row, books)
  {
    var inspected := InspectHold(w.books, now, hold);
    var work := ReadIntake(w, id, now, order, hold).work;
    row := work.row.value.row;
    if inspected.settlement == FundsHeld {
      books := ReleaseOutcome(w.books, now, row.hold, "refused");
    } else {
      NothingStagedCommits(w.books);
      books := w.books;
    }
    ClaimIsTruth(books, row);
  }

  lemma IntakeIsTruthful(w: World, id: FulfillmentId, now: Time, order: string, hold: Option<HoldId>)
    returns (row: Row, books: Books)
    requires Sound(w.books) && !OrderTaken(w.rows, order)
    ensures ReadIntake(w, id, now, order, hold).Staging?
    ensures CommitsTruthfully(w, ReadIntake(w, id, now, order, hold).work, id, row, books)
  {
    if InspectHold(w.books, now, hold).usable {
      NothingStagedCommits(w.books);
      row, books := ReadIntake(w, id, now, order, hold).work.row.value.row, w.books;
    } else {
      row, books := RefusalIsTruthful(w, id, now, order, hold);
    }
  }

  lemma ClosureIsTruthful(w: World, now: Time, c: Fulfillment.Command) returns (row: Row, books: Books)
    requires c.ConsumeJobRejected? || c.ConsumeMoveCompletion? || c.Cancel?
    requires c.Cancel? ==> c.reason != ""
    requires Sound(w.books) && c.fulfillment in w.rows && !IsClosed(w.rows[c.fulfillment].status)
    requires RowTruth(w.books, w.rows[c.fulfillment])
    ensures Read(w, 0, now, c).Staging?
    ensures CommitsTruthfully(w, Read(w, 0, now, c).work, c.fulfillment, row, books)
    ensures row.hold == w.rows[c.fulfillment].hold
  {
    var hold := w.rows[c.fulfillment].hold;
    row := Read(w, 0, now, c).work.row.value.row;
    var outcome: SettlementOutcome;
    match c {
      case ConsumeJobRejected(_, reason) =>
        outcome := Release(w.books, now, hold, "move_rejected:" + reason);
        books := ReleaseOutcome(w.books, now, hold, "move_rejected:" + reason);
      case ConsumeMoveCompletion(_, _, delivered, _) =>
        if delivered {
          outcome := Settle(w.books, now, hold).1;
          books := SettleOutcome(w.books, now, hold);
        } else {
          outcome := Release(w.books, now, hold, "move_execution_failed");
          books := ReleaseOutcome(w.books, now, hold, "move_execution_failed");
        }
      case Cancel(_, reason) =>
        outcome := Release(w.books, now, hold, "cancelled:" + reason);
        books := ReleaseOutcome(w.books, now, hold, "cancelled:" + reason);
    }
    ClaimIsTruth(books, row);
    ClosesTruthfully(w, c.fulfillment, row, outcome, books);
  }

  /** Work that writes a row and no money. */
  lemma RowOnlyCommit(w: World, work: Work)
    requires work.money == [] && work.row.Some?
    ensures CommitWork(w, work)
         == (match ApplyRow(w.rows, work.row.value)
             case Applied(rows) => Committed(World(w.books, rows, w.outbox + work.events))
             case Stale => Lost
             case Forbidden => Aborted)
  {
    NothingStagedCommits(w.books);
  }

  /** Nothing about a closed fulfillment's outcome is ever rewritten. */
  ghost predicate OutcomeKept(before: Row, after: Row) {
    && after.hold == before.hold
    && (IsClosed(before.status) ==> after.status == before.status && after.settlement == before.settlement)
  }

  ghost predicate OutcomesKept(before: World, after: World) {
    forall id :: id in before.rows ==> id in after.rows && OutcomeKept(before.rows[id], after.rows[id])
  }

  /**
   Every command's work, run alone, is either a truthful commit of one row or (only for a job
   another fulfillment already traces) refused without a trace. It is never lost.
   */
  lemma SerialWork(w: World, id: nat, now: Time, c: Fulfillment.Command)
    returns (written: FulfillmentId, row: Row, books: Books)
    requires Sound(w.books) && Read(w, id, now, c).Staging? && id !in w.rows
    requires forall f :: f in w.rows ==> RowTruth(w.books, w.rows[f])
    ensures written == id || written in w.rows
    ensures written in w.rows ==> OutcomeKept(w.rows[written], row)
    ensures CommitsTruthfully(w, Read(w, id, now, c).work, written, row, books)
         || (CommitWork(w, Read(w, id, now, c).work) == Aborted
             && c.ConsumeJobAccepted? && JobTaken(w.rows, c.fulfillment, Some(c.job)))
  {
    if c.ConsumeMarketOrder? {
      written := id;
      row, books := IntakeIsTruthful(w, id, now, c.order, c.hold);
    } else {
      written := c.fulfillment;
      if c.ConsumeJobAccepted? || IsClosed(w.rows[written].status) {
        var work := Read(w, id, now, c).work;
        RowOnlyCommit(w, work);
        books := w.books;
        row := if work.row.value.MarkExecuted?
               then w.rows[written].(executedAt := Some(work.row.value.at), executedJob := Some(work.row.value.job))
               else work.row.value.row;
      } else {
        row, books := ClosureIsTruthful(w, now, c);
      }
    }
  }

  lemma CommitKeepsTruth(o: Office, now: Time, c: Fulfillment.Command, written: FulfillmentId, row: Row, books: Books)
    requires Truthful(o) && Read(o.world, o.nextId, now, c).Staging?
    requires CommitsTruthfully(o.world, Read(o.world, o.nextId, now, c).work, written, row, books)
    requires written == o.nextId || written in o.world.rows
    requires written in o.world.rows ==> OutcomeKept(o.world.rows[written], row)
    ensures Truthful(Step(o, now, Coordinate(c))) && OutcomesKept(o.world, Step(o, now, Coordinate(c)).world)
  {
    var after := World(books, o.world.rows[written := row],
                       o.world.outbox + Read(o.world, o.nextId, now, c).work.events);
    assert Step(o, now, Coordinate(c)) == Office(after, o.nextId + 1);
    forall id | id in after.rows
      ensures RowTruth(books, after.rows[id])
    {
      if id != written {
        TruthSurvivesMoney(o.world.books, books, o.world.rows[id]);
      }
    }
  }

  lemma StepKeepsTruth(o: Office, now: Time, act: Act)
    requires Truthful(o)
    ensures Truthful(Step(o, now, act)) && OutcomesKept(o.world, Step(o, now, act).world)
  {
    var w := o.world;
    match act
    case Bank(c) =>
      MoneyStepLaws(w.books, o.nextId, now, c);
      var after := BooksStep(w.books, o.nextId, now, c);
      forall id | id in w.rows
        ensures RowTruth(after, w.rows[id])
      {
        TruthSurvivesMoney(w.books, after, w.rows[id]);
      }
    case Coordinate(c) =>
      if Read(w, o.nextId, now, c).Staging? {
        var written, row, books := SerialWork(w, o.nextId, now, c);
        if CommitWork(w, Read(w, o.nextId, now, c).work).Committed? {
          CommitKeepsTruth(o, now, c, written, row, books);
        }
      }
  }

  /** In every state a serial run reaches, every recorded settlement state is the truth. */
  lemma {:induction false} EveryRunIsTruthful(log: seq<Timed>)
    ensures Truthful(Run(EMPTY_OFFICE, log))
  {
    if log == [] {
      EmptyTillSound();
    } else {
      EveryRunIsTruthful(log[..|log| - 1]);
      StepKeepsTruth(Run(EMPTY_OFFICE, log[..|log| - 1]), log[|log| - 1].at, log[|log| - 1].act);
    }
  }

  /** A closure is final: status, settlement state and their truth outlast every later command. */
  lemma {:induction false} ClosureIsForEver(o: Office, log: seq<Timed>, id: FulfillmentId)
    requires Truthful(o) && id in o.world.rows && IsClosed(o.world.rows[id].status)
    ensures Truthful(Run(o, log)) && id in Run(o, log).world.rows
    ensures var row := Run(o, log).world.rows[id];
            && row.status == o.world.rows[id].status
            && row.settlement == o.world.rows[id].settlement
            && SettlementTruth(Run(o, log).world.books, row)
  {
    if log != [] {
      ClosureIsForEver(o, log[..|log| - 1], id);
      StepKeepsTruth(Run(o, log[..|log| - 1]), log[|log| - 1].at, log[|log| - 1].act);
      assert OutcomeKept(Run(o, log[..|log| - 1]).world.rows[id], Run(o, log).world.rows[id]);
    }
    assert RowTruth(Run(o, log).world.books, Run(o, log).world.rows[id]);
  }

  /**
   What an operator can conclude from the derived disposition of any reachable row: it reads
   `inconsistent` exactly when the hold was captured out of band, and `decision_required`
   exactly when money moved for undelivered work or cancelled work was delivered.
   */
  lemma DispositionOfReachableRows(log: seq<Timed>, id: FulfillmentId)
    requires id in Run(EMPTY_OFFICE, log).world.rows
    ensures var row := Run(EMPTY_OFFICE, log).world.rows[id];
            && (FinancialDisposition(row) == Inconsistent <==> row.settlement == FundsUnsettled)
            && (row.settlement != FundsUnsettled ==>
                  (RequiresFinancialDecision(row) <==>
                    row.executedAt.Some? || (IsClosed(row.status) && row.settlement == FundsPartiallyCaptured)))
            && (IsFinanciallyConsistent(row) && IsClosed(row.status) && row.hold.Some? ==>
                  var holds := Run(EMPTY_OFFICE, log).world.books.holds;
                  && row.hold.value in holds
                  && var h := holds[row.hold.value];
                  if row.status == Completed then h.status == Captured && h.captured == h.amount
                  else h.status == Voided && h.captured == 0)
  {
    EveryRunIsTruthful(log);
    var o := Run(EMPTY_OFFICE, log);
    assert RowTruth(o.world.books, o.world.rows[id]);
  }
}
