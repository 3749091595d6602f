/**
 Fulfillments: the rows, their lifecycle, and the units of work that close one together with
 the capture or the release of the hold that guards it.
 */
module Fulfillment {
  import opened Common
  import opened Money
  import opened MoneyRuns

  type FulfillmentId = nat

  datatype Status = Coordinating | Dispatched | Completed | Failed | Cancelled

  /** Where the money stands, as CORE records it on the row. */
  datatype Settlement =
    | NoFunds
    | FundsHeld
    | FundsCaptured
    | FundsPartiallyCaptured
    | FundsReleased
    | FundsUnsettled

  datatype Row = Row(
    order: string,
    job: Option<string>,
    hold: Option<HoldId>,
    status: Status,
    settlement: Settlement,
    createdAt: Time,
    completedAt: Option<Time>,
    closureReason: string,
    executedAt: Option<Time>,
    executedJob: Option<string>)

  datatype Event =
    | CreatedEvent(id: FulfillmentId)
    | DispatchedEvent(id: FulfillmentId)
    | ClosureEvent(id: FulfillmentId, outcome: Status, settlement: Settlement, captured: Option<int>)
    | ExecutedAfterCancellationEvent(id: FulfillmentId)

  predicate IsClosed(s: Status) {
    s == Completed || s == Failed || s == Cancelled
  }

  datatype Disposition = NothingToSettle | AwaitingExecution | Settled | DecisionRequired | Inconsistent

  function FinancialDisposition(row: Row): Disposition {
    if row.settlement == FundsUnsettled then Inconsistent
    else if !IsClosed(row.status) then
      if row.settlement == NoFunds then NothingToSettle
      else if row.settlement == FundsHeld then AwaitingExecution
      else Inconsistent
    else if row.settlement == FundsHeld then Inconsistent
    else if row.executedAt.Some? then DecisionRequired
    else if row.settlement == NoFunds then NothingToSettle
    else if row.status == Completed then
      if row.settlement == FundsCaptured || row.settlement == FundsPartiallyCaptured then Settled else Inconsistent
    else if row.settlement == FundsReleased then Settled
    else if row.settlement == FundsPartiallyCaptured then DecisionRequired
    else Inconsistent
  }

  predicate RequiresFinancialDecision(row: Row) {
    FinancialDisposition(row) == DecisionRequired
  }

  predicate IsFinanciallyConsistent(row: Row) {
    var d := FinancialDisposition(row);
    d == Settled || d == NothingToSettle || d == AwaitingExecution
  }

  // ----- the store -----

  /** The check constraints of the `fulfillment` table. */
  predicate RowAllowed(row: Row) {
    && (match row.status
        case Coordinating => row.settlement == NoFunds || row.settlement == FundsHeld
        case Dispatched => row.settlement == NoFunds || row.settlement == FundsHeld
        case Completed => row.settlement != FundsHeld && row.settlement != FundsReleased
        case Failed => row.settlement != FundsHeld && row.settlement != FundsCaptured
        case Cancelled => row.settlement != FundsHeld && row.settlement != FundsCaptured)
    && (row.executedAt.Some? <==> row.executedJob.Some?)
    && (row.executedAt.Some? ==> row.status == Cancelled)
  }

  datatype RowWrite =
    | InsertIfAbsent(id: FulfillmentId, row: Row)
    | UpdateIfOpen(id: FulfillmentId, row: Row)
    | UpdateIfCoordinating(id: FulfillmentId, row: Row)
    | Update(id: FulfillmentId, row: Row)
    | MarkExecuted(id: FulfillmentId, at: Time, job: string)

  datatype RowOutcome = Applied(rows: map<FulfillmentId, Row>) | Stale | Forbidden

  predicate OrderTaken(rows: map<FulfillmentId, Row>, order: string) {
    exists id :: id in rows && rows[id].order == order
  }

  predicate JobTaken(rows: map<FulfillmentId, Row>, id: FulfillmentId, job: Option<string>) {
    job.Some? && exists other :: other in rows && other != id && rows[other].job == job
  }

  function Put(rows: map<FulfillmentId, Row>, id: FulfillmentId, row: Row): RowOutcome {
    if RowAllowed(row) then Applied(rows[id := row]) else Forbidden
  }

  /** One conditional write; `Stale` aborts the transaction it is part of. */
  function ApplyRow(rows: map<FulfillmentId, Row>, w: RowWrite): RowOutcome {
    match w
    case InsertIfAbsent(id, row) =>
      if OrderTaken(rows, row.order) then Stale else Put(rows, id, row)
    case UpdateIfOpen(id, row) =>
      if id !in rows || IsClosed(rows[id].status) then Stale else Put(rows, id, row)
    case UpdateIfCoordinating(id, row) =>
      if id !in rows || rows[id].status != Coordinating then Stale else Put(rows, id, row)
    case Update(id, row) =>
      if JobTaken(rows, id, row.job) then Forbidden else Put(rows, id, row)
    case MarkExecuted(id, at, job) =>
      if id !in rows || rows[id].status != Cancelled || rows[id].executedAt.Some? then Stale
      else Put(rows, id, rows[id].(executedAt := Some(at), executedJob := Some(job)))
  }

  /** Committed state. The outbox is the sequence of events ever appended. */
  datatype World = World(books: Books, rows: map<FulfillmentId, Row>, outbox: seq<Event>)

  /** What one command stages: money first, then its row, then its events. */
  datatype Work = Work(money: seq<Write>, row: Option<RowWrite>, events: seq<Event>)

  datatype CommitOutcome = Committed(world: World) | Lost | Aborted

  /** Everything in the unit of work lands, or nothing does. */
  function CommitWork(w: World, work: Work): CommitOutcome {
    match Commit(w.books, work.money)
    case Err(_) =>
      if ApplyAll(w.books, work.money).Ok? && work.row.Some? && ApplyRow(w.rows, work.row.value).Stale? then Lost
      else Aborted
    case Ok(books) =>
      if work.row.None? then Committed(World(books, w.rows, w.outbox + work.events))
      else
        match ApplyRow(w.rows, work.row.value)
        case Applied(rows) => Committed(World(books, rows, w.outbox + work.events))
        case Stale => Lost
        case Forbidden => Aborted
  }

  // ----- settlement -----

  datatype SettlementOutcome = SettlementOutcome(money: seq<Write>, settlement: Settlement, captured: Option<int>)

  /** Gives the hold back and reads off the outcome what became of it. */
  function Release(b: Books, now: Time, hold: Option<HoldId>, reason: string): SettlementOutcome {
    if hold.None? then SettlementOutcome([], NoFunds, None)
    else
      match StageVoid(b, now, hold.value, reason)
      case Staged(h, writes) =>
        SettlementOutcome(writes, if h.captured > 0 then FundsPartiallyCaptured else FundsReleased, Some(h.captured))
      case Refused(_) => SettlementOutcome([], FundsUnsettled, None)
  }

  /** Captures the whole remaining hold; when that is refused, releases it instead. */
  function Settle(b: Books, now: Time, hold: Option<HoldId>): (bool, SettlementOutcome) {
    if hold.None? then (true, SettlementOutcome([], NoFunds, None))
    else
      match StageCapture(b, now, hold.value, "", None)
      case Staged(h, writes) =>
        (true, SettlementOutcome(writes, if h.status == Captured then FundsCaptured else FundsPartiallyCaptured,
                                 Some(h.captured)))
      case Refused(_) => (false, Release(b, now, hold, "settlement_failed"))
  }

  datatype Inspection = Inspection(usable: bool, known: bool, settlement: Settlement, reason: string,
                                   captured: Option<int>)

  /** Whether a declared hold can still guard an execution. */
  function InspectHold(b: Books, now: Time, hold: Option<HoldId>): Inspection {
    if hold.None? then Inspection(true, true, NoFunds, "", None)
    else if hold.value !in b.holds then Inspection(false, false, NoFunds, "payment_hold_not_found", None)
    else
      var h := b.holds[hold.value];
      match h.status
      case Captured => Inspection(false, true, FundsUnsettled, "payment_hold_already_captured", Some(h.captured))
      case PartiallyCaptured =>
        Inspection(false, true, FundsPartiallyCaptured, "payment_hold_partially_captured", Some(h.captured))
      case Voided => Inspection(false, true, FundsReleased, "payment_hold_not_authorized", Some(h.captured))
      case Authorized =>
        if Expired(h, now) then Inspection(false, true, FundsHeld, "payment_hold_expired", Some(h.captured))
        else Inspection(true, true, FundsHeld, "", Some(h.captured))
  }

  // ----- commands -----

  datatype Command =
    | ConsumeMarketOrder(order: string, hold: Option<HoldId>)
    | ConsumeJobAccepted(fulfillment: FulfillmentId, job: string)
    | ConsumeJobRejected(fulfillment: FulfillmentId, reason: string)
    | ConsumeMoveCompletion(fulfillment: FulfillmentId, job: string, delivered: bool, at: Time)
    | Cancel(fulfillment: FulfillmentId, reason: string)

  /** What a command decides from the rows it reads: an answer, or work to commit. */
  datatype Reading = Answered | Rejected | Staging(work: Work)

  function ClosureOf(id: FulfillmentId, row: Row, captured: Option<int>): Event {
    ClosureEvent(id, row.status, row.settlement, captured)
  }

  function CloseWith(id: FulfillmentId, closed: Row, settled: SettlementOutcome): Reading {
    Staging(Work(settled.money, Some(UpdateIfOpen(id, closed)), [ClosureOf(id, closed, settled.captured)]))
  }

  function ReadIntake(w: World, id: FulfillmentId, now: Time, order: string, hold: Option<HoldId>): Reading {
    if OrderTaken(w.rows, order) then Answered
    else
      var inspected := InspectHold(w.books, now, hold);
      var row := Row(order, None, if inspected.known then hold else None, Coordinating, inspected.settlement,
                     now, None, "", None, None);
      if inspected.usable then
        Staging(Work([], Some(InsertIfAbsent(id, row)), [CreatedEvent(id)]))
      else
        // The hold is let go with the order.
        var outcome := if inspected.settlement == FundsHeld then Release(w.books, now, row.hold, "refused")
                       else SettlementOutcome([], inspected.settlement, inspected.captured);
        var refused := row.(status := Failed, settlement := outcome.settlement, completedAt := Some(now),
                            closureReason := inspected.reason);
        Staging(Work(outcome.money, Some(InsertIfAbsent(id, refused)), [ClosureOf(id, refused, outcome.captured)]))
  }

  /** An acceptance of a row that already moved on: a cancellation only records the job. */
  function AcceptanceOn(id: FulfillmentId, row: Row, job: string): Reading {
    if row.status == Dispatched then
      if row.job == Some(job) then Answered else Rejected
    else if row.status != Cancelled then Rejected
    else if row.job == Some(job) then Answered
    else Staging(Work([], Some(Update(id, row.(job := Some(job)))), []))
  }

  function ReadAcceptance(w: World, id: FulfillmentId, job: string): Reading {
    if id !in w.rows then Rejected
    else
      var row := w.rows[id];
      if IsClosed(row.status) || row.status == Dispatched then AcceptanceOn(id, row, job)
      else
        Staging(Work([], Some(UpdateIfCoordinating(id, row.(job := Some(job), status := Dispatched))),
                     [DispatchedEvent(id)]))
  }

  function ReadRejection(w: World, id: FulfillmentId, now: Time, reason: string): Reading {
    if id !in w.rows then Rejected
    else
      var row := w.rows[id];
      if IsClosed(row.status) then
        if row.status == Failed then Answered else Rejected
      else
        var outcome := Release(w.books, now, row.hold, "move_rejected:" + reason);
        CloseWith(id, row.(status := Failed, settlement := outcome.settlement, completedAt := Some(now),
                           closureReason := reason), outcome)
  }

  /** A completion of a row that is already closed; delivery after a cancellation is recorded once. */
  function CompletionOn(id: FulfillmentId, row: Row, job: string, delivered: bool, at: Time): Reading {
    if row.status == Cancelled then
      if !delivered || row.executedAt.Some? then Answered
      else Staging(Work([], Some(MarkExecuted(id, at, job)), [ExecutedAfterCancellationEvent(id)]))
    else if row.job != Some(job) then Rejected
    else Answered
  }

  function ReadCompletion(w: World, id: FulfillmentId, now: Time, job: string, delivered: bool, at: Time): Reading {
    if id !in w.rows then Rejected
    else
      var row := w.rows[id];
      if IsClosed(row.status) then CompletionOn(id, row, job, delivered, at)
      else
        var (settledOk, outcome) := if delivered then Settle(w.books, now, row.hold)
                                    else (false, Release(w.books, now, row.hold, "move_execution_failed"));
        var reason := if settledOk then "" else
            if delivered then "payment_settlement_failed" else "move_execution_failed";
        CloseWith(id, row.(job := Some(job), status := if settledOk then Completed else Failed,
                           settlement := outcome.settlement, completedAt := Some(at), closureReason := reason), outcome)
  }

  /** `reason` is the trimmed text. */
  function ReadCancellation(w: World, id: FulfillmentId, now: Time, reason: string): Reading {
    if id !in w.rows || reason == "" then Rejected
    else
      var row := w.rows[id];
      if IsClosed(row.status) then
        if row.status == Cancelled then Answered else Rejected
      else
        var outcome := Release(w.books, now, row.hold, "cancelled:" + reason);
        CloseWith(id, row.(status := Cancelled, settlement := outcome.settlement, completedAt := Some(now),
                           closureReason := reason), outcome)
  }

  function Read(w: World, id: FulfillmentId, now: Time, c: Command): Reading {
    match c
    case ConsumeMarketOrder(order, hold) => ReadIntake(w, id, now, order, hold)
    case ConsumeJobAccepted(fulfillment, job) => ReadAcceptance(w, fulfillment, job)
    case ConsumeJobRejected(fulfillment, reason) => ReadRejection(w, fulfillment, now, reason)
    case ConsumeMoveCompletion(fulfillment, job, delivered, at) =>
      ReadCompletion(w, fulfillment, now, job, delivered, at)
    case Cancel(fulfillment, reason) => ReadCancellation(w, fulfillment, now, reason)
  }
}
