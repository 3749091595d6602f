/**
 The marker for work done after a cancellation, when reads and commits interleave. A report sets it
 under a condition, but an acceptance of a cancelled order writes back the whole row it read; when
 that write erases a marker is stated over every run, and what it costs afterwards.
 */
module MarkerRaces {
  import opened Common
  import opened Money
  import opened Fulfillment
  import opened FulfillmentRaces
  import opened FulfillmentMarkers

  ghost predicate CommitsRow(m: Machine, a: Action) {
    && a.Finish? && a.ticket in m.staged && m.staged[a.ticket].row.Some?
    && CommitWork(m.world, m.staged[a.ticket]).Committed?
  }

  ghost predicate CommitsMark(m: Machine, a: Action, id: FulfillmentId) {
    CommitsRow(m, a) && m.staged[a.ticket].row.value.MarkExecuted? && m.staged[a.ticket].row.value.id == id
  }

  /** A trace is the unconditional write of an acceptance. */
  ghost predicate CommitsTrace(m: Machine, a: Action, id: FulfillmentId) {
    CommitsRow(m, a) && m.staged[a.ticket].row.value.Update? && m.staged[a.ticket].row.value.id == id
  }

  /** A report marked the row in this log, and no trace that had read no marker committed after it. */
  ghost predicate MarkStands(m: Machine, log: seq<Action>, id: FulfillmentId) {
    if log == [] then false
    else
      var mid, last := Run(m, log[..|log| - 1]), log[|log| - 1];
      if CommitsMark(mid, last, id) then true
      else if CommitsTrace(mid, last, id) then mid.staged[last.ticket].row.value.row.executedAt.Some?
      else MarkStands(m, log[..|log| - 1], id)
  }

  predicate IsCancelled(rows: map<FulfillmentId, Row>, id: FulfillmentId) {
    id in rows && rows[id].status == Status.Cancelled
  }

  lemma MarkersMoveByTwoWrites(m: Machine, a: Action, id: FulfillmentId, after: Machine)
    requires MachineSound(m) && IsCancelled(m.world.rows, id) && after == Step(m, a)
    ensures IsCancelled(after.world.rows, id)
    ensures after.world.rows[id].executedAt.Some?
       <==> if CommitsMark(m, a, id) then true
            else if CommitsTrace(m, a, id) then m.staged[a.ticket].row.value.row.executedAt.Some?
            else m.world.rows[id].executedAt.Some?
  {
    if CommitsRow(m, a) {
      assert PlausibleRow(m.world.rows, a.ticket, m.staged[a.ticket]);
      CommittedParts(m.world, m.staged[a.ticket]);
    }
  }

  lemma {:induction false} MarkedExactlyWhenAMarkStands(m: Machine, log: seq<Action>, id: FulfillmentId, after: Machine)
    requires MachineSound(m) && IsCancelled(m.world.rows, id) && m.world.rows[id].executedAt.None?
    requires after == Run(m, log)
    ensures MachineSound(after) && IsCancelled(after.world.rows, id)
    ensures after.world.rows[id].executedAt.Some? <==> MarkStands(m, log, id)
  {
    if log != [] {
      var mid, last := Run(m, log[..|log| - 1]), log[|log| - 1];
      MarkedExactlyWhenAMarkStands(m, log[..|log| - 1], id, mid);
      MarkersMoveByTwoWrites(mid, last, id, after);
      StepKeepsMachineSound(mid, last);
    }
  }

  // ----- rows the store allows -----

  ghost predicate RowsAllowed(rows: map<FulfillmentId, Row>) {
    forall id :: id in rows ==> RowAllowed(rows[id])
  }

  lemma StepKeepsAllowed(m: Machine, a: Action)
    requires RowsAllowed(m.world.rows)
    ensures RowsAllowed(Step(m, a).world.rows)
  {
    if CommitsRow(m, a) {
      CommittedParts(m.world, m.staged[a.ticket]);
    }
  }

  lemma {:induction false} EveryRunIsAllowed(start: Machine, log: seq<Action>)
    requires RowsAllowed(start.world.rows)
    ensures RowsAllowed(Run(start, log).world.rows)
  {
    if log != [] {
      EveryRunIsAllowed(start, log[..|log| - 1]);
      StepKeepsAllowed(Run(start, log[..|log| - 1]), log[|log| - 1]);
    }
  }

  // ----- when a trace erases the marker -----

  function Trace(row: Row, id: FulfillmentId, job: string): Work {
    Work([], Some(Update(id, row.(job := Some(job)))), [])
  }

  lemma TraceCommitsExactlyWhenTheJobIsFree(w: World, row: Row, id: FulfillmentId, job: string)
    requires RowAllowed(row)
    ensures CommitWork(w, Trace(row, id, job)).Committed? <==> !JobTaken(w.rows, id, Some(job))
    ensures CommitWork(w, Trace(row, id, job)).Committed? ==>
              CommitWork(w, Trace(row, id, job)).world.rows == w.rows[id := row.(job := Some(job))]
  {
  }

  ghost predicate Erases(m: Machine, a: Action, id: FulfillmentId) {
    && id in m.world.rows && m.world.rows[id].executedAt.Some?
    && id in Step(m, a).world.rows && Step(m, a).world.rows[id].executedAt.None?
  }

  lemma {:induction false} StagedStays(m: Machine, log: seq<Action>, ticket: nat)
    requires ticket < m.nextId
    ensures m.nextId <= Run(m, log).nextId
    ensures ticket in Run(m, log).staged ==> ticket in m.staged && Run(m, log).staged[ticket] == m.staged[ticket]
  {
    if log != [] {
      StagedStays(m, log[..|log| - 1], ticket);
    }
  }

  /**
   An acceptance of a cancelled order reads the row, anything at all happens, and then it commits. It
   erases the marker if and only if it had read none, a report has marked the row since and that
   mark still stands, and no other row has taken the job meanwhile.
   */
  lemma TraceErasesTheMarkerExactlyWhen(before: seq<Action>, now: Time, id: FulfillmentId, job: string,
      between: seq<Action>)
    requires var seen := Run(EMPTY_MACHINE, before).world.rows;
             IsCancelled(seen, id) && seen[id].job != Some(job)
    requires var m := Run(EMPTY_MACHINE, before);
             m.nextId in Run(Step(m, Begin(now, ConsumeJobAccepted(id, job))), between).staged
    ensures var m := Run(EMPTY_MACHINE, before);
            var begun := Step(m, Begin(now, ConsumeJobAccepted(id, job)));
            var end := Run(begun, between);
            Erases(end, Finish(m.nextId), id)
            <==> && m.world.rows[id].executedAt.None?
                 && MarkStands(begun, between, id)
                 && !JobTaken(end.world.rows, id, Some(job))
  {
    var m := Run(EMPTY_MACHINE, before);
    EveryInterleavingIsSound(before);
    EveryRunIsAllowed(EMPTY_MACHINE, before);
    var begun := Step(m, Begin(now, ConsumeJobAccepted(id, job)));
    StepKeepsMachineSound(m, Begin(now, ConsumeJobAccepted(id, job)));
    var end := Run(begun, between);
    StagedStays(begun, between, m.nextId);
    assert end.staged[m.nextId] == Trace(m.world.rows[id], id, job);
    TraceCommitsExactlyWhenTheJobIsFree(end.world, m.world.rows[id], id, job);
    if m.world.rows[id].executedAt.None? {
      MarkedExactlyWhenAMarkStands(begun, between, id, end);
    }
  }

  // ----- what an erased marker costs -----

  /** The marker a row write would leave behind without having set it. */
  predicate CarriesMark(work: Work, id: FulfillmentId) {
    match work.row
    case Some(InsertIfAbsent(i, row)) => i == id && row.executedAt.Some?
    case Some(UpdateIfOpen(i, row)) => i == id && row.executedAt.Some?
    case Some(UpdateIfCoordinating(i, row)) => i == id && row.executedAt.Some?
    case Some(Update(i, row)) => i == id && row.executedAt.Some?
    case _ => false
  }

  /** Whoever carries a marker, in a row or in a staged write, was announced. */
  ghost predicate EveryMarkWasAnnounced(m: Machine) {
    && (forall id :: id in m.world.rows && m.world.rows[id].executedAt.Some? ==> Executions(m.world.outbox, id) >= 1)
    && (forall t, id :: t in m.staged && CarriesMark(m.staged[t], id) ==> Executions(m.world.outbox, id) >= 1)
  }

  lemma ExecutionsGrow(outbox: seq<Event>, events: seq<Event>, id: FulfillmentId)
    requires |events| <= 1
    ensures Executions(outbox, id) <= Executions(outbox + events, id)
    ensures events == [ExecutedAfterCancellationEvent(id)] ==>
              Executions(outbox + events, id) == Executions(outbox, id) + 1
  {
    if events == [] {
      assert outbox + events == outbox;
    } else {
      assert events == [events[0]];
      ExecutionsAppend(outbox, events[0], id);
    }
  }

  /** One row after one write: its marker was carried, and announced before, or is announced now. */
  lemma WrittenMarkIsAnnounced(before: World, ticket: nat, work: Work, after: World, id: FulfillmentId)
    requires PlausibleRow(before.rows, ticket, work) && work.row.Some?
    requires ApplyRow(before.rows, work.row.value) == Applied(after.rows)
    requires after.outbox == before.outbox + work.events
    requires CarriesMark(work, id) || (id in before.rows && before.rows[id].executedAt.Some?) ==>
               Executions(before.outbox, id) >= 1
    ensures Executions(before.outbox, id) <= Executions(after.outbox, id)
    ensures id in after.rows && after.rows[id].executedAt.Some? ==> Executions(after.outbox, id) >= 1
  {
    ExecutionsGrow(before.outbox, work.events, id);
  }

  lemma CommitKeepsAnnounced(m: Machine, a: Action, after: Machine)
    requires MachineSound(m) && EveryMarkWasAnnounced(m) && CommitsRow(m, a) && after == Step(m, a)
    ensures EveryMarkWasAnnounced(after)
    ensures forall id :: Executions(m.world.outbox, id) <= Executions(after.world.outbox, id)
  {
    var work := m.staged[a.ticket];
    assert PlausibleRow(m.world.rows, a.ticket, work);
    CommittedParts(m.world, work);
    forall id
      ensures Executions(m.world.outbox, id) <= Executions(after.world.outbox, id)
      ensures id in after.world.rows && after.world.rows[id].executedAt.Some? ==>
                Executions(after.world.outbox, id) >= 1
    {
      WrittenMarkIsAnnounced(m.world, a.ticket, work, after.world, id);
    }
  }

  lemma StagingKeepsAnnounced(m: Machine, work: Work)
    requires EveryMarkWasAnnounced(m)
    requires forall id :: CarriesMark(work, id) ==> id in m.world.rows && m.world.rows[id].executedAt.Some?
    ensures EveryMarkWasAnnounced(Machine(m.world, m.nextId + 1, m.staged[m.nextId := work]))
  {
  }

  lemma StepKeepsAnnounced(m: Machine, a: Action, after: Machine)
    requires MachineSound(m) && EveryMarkWasAnnounced(m) && after == Step(m, a)
    ensures EveryMarkWasAnnounced(after)
    ensures forall id :: Executions(m.world.outbox, id) <= Executions(after.world.outbox, id)
  {
    match a
    case Begin(now, c) =>
      var reading := Read(m.world, m.nextId, now, c);
      ReadingCarriesMarker(m.world, m.nextId, now, c);
      StagingKeepsAnnounced(m, if reading.Staging? then reading.work else NO_WORK);
    case BeginMoney(now, c) =>
      StagingKeepsAnnounced(m, Work(MoneyRaces.StagedWrites(m.world.books, m.nextId, now, c), None, []));
    case BeginExpiry(now, id) =>
      StagingKeepsAnnounced(m, Work(MoneyRaces.ExpiryWrites(m.world.books, now, id), None, []));
    case Finish(ticket) =>
      if CommitsRow(m, a) {
        CommitKeepsAnnounced(m, a, after);
      } else if ticket in m.staged && CommitWork(m.world, m.staged[ticket]).Committed? {
        assert PlausibleRow(m.world.rows, ticket, m.staged[ticket]);
        assert after.world.outbox == m.world.outbox;
      }
  }

  lemma {:induction false} RunsKeepAnnounced(start: Machine, log: seq<Action>)
    requires MachineSound(start) && EveryMarkWasAnnounced(start)
    ensures MachineSound(Run(start, log)) && EveryMarkWasAnnounced(Run(start, log))
    ensures forall id :: Executions(start.world.outbox, id) <= Executions(Run(start, log).world.outbox, id)
  {
    if log != [] {
      var mid := Run(start, log[..|log| - 1]);
      RunsKeepAnnounced(start, log[..|log| - 1]);
      StepKeepsMachineSound(mid, log[|log| - 1]);
      StepKeepsAnnounced(mid, log[|log| - 1], Run(start, log));
    }
  }

  /** A delivery report that reads and commits before anything else happens. */
  ghost function Reported(m: Machine, now: Time, id: FulfillmentId, job: string, at: Time): World {
    Step(Step(m, Begin(now, ConsumeMoveCompletion(id, job, true, at))), Finish(m.nextId)).world
  }

  /** A report that reads an unmarked cancelled row, and commits before anything else does. */
  lemma ReportMarks(m: Machine, now: Time, id: FulfillmentId, job: string, at: Time)
    requires IsCancelled(m.world.rows, id) && m.world.rows[id].executedAt.None? && RowAllowed(m.world.rows[id])
    ensures var after := Reported(m, now, id, job, at);
            && id in after.rows && after.rows[id].executedAt == Some(at)
            && Executions(after.outbox, id) == Executions(m.world.outbox, id) + 1
  {
    var report := Begin(now, ConsumeMoveCompletion(id, job, true, at));
    assert Step(m, report).staged[m.nextId]
        == Work([], Some(MarkExecuted(id, at, job)), [ExecutedAfterCancellationEvent(id)]);
    ReportCommits(m.world, id, job, at);
  }

  lemma ReportCommits(w: World, id: FulfillmentId, job: string, at: Time)
    requires IsCancelled(w.rows, id) && w.rows[id].executedAt.None? && RowAllowed(w.rows[id])
    ensures var report := Work([], Some(MarkExecuted(id, at, job)), [ExecutedAfterCancellationEvent(id)]);
            var outcome := CommitWork(w, report);
            && outcome.Committed?
            && outcome.world.rows == w.rows[id := w.rows[id].(executedAt := Some(at), executedJob := Some(job))]
            && Executions(outcome.world.outbox, id) == Executions(w.outbox, id) + 1
  {
    ExecutionsGrow(w.outbox, [ExecutedAfterCancellationEvent(id)], id);
  }

  /**
   The cost of an erased marker: the next report to read the row without one sets it as if for the
   first time, and the event that was published before is published again.
   */
  lemma ErasedMarkerIsAnnouncedAgain(before: seq<Action>, erasing: Action, between: seq<Action>, id: FulfillmentId,
      now: Time, job: string, at: Time)
    requires Erases(Run(EMPTY_MACHINE, before), erasing, id)
    requires var late := Run(Step(Run(EMPTY_MACHINE, before), erasing), between).world.rows;
             id in late ==> late[id].executedAt.None?
    ensures var late := Run(Step(Run(EMPTY_MACHINE, before), erasing), between);
            var told := Reported(late, now, id, job, at);
            && Executions(late.world.outbox, id) >= 1
            && id in told.rows && told.rows[id].executedAt == Some(at)
            && Executions(told.outbox, id) == Executions(late.world.outbox, id) + 1
  {
    var m := Run(EMPTY_MACHINE, before);
    EveryInterleavingIsSound(before);
    RunsKeepAnnounced(EMPTY_MACHINE, before);
    EveryRunIsAllowed(EMPTY_MACHINE, before);
    var erased := Step(m, erasing);
    ErasedIsSound(m, erasing, id, erased);
    UnmarkedIsAnnouncedAgain(erased, between, id, now, job, at, Run(erased, between));
  }

  lemma UnmarkedIsAnnouncedAgain(erased: Machine, between: seq<Action>, id: FulfillmentId, now: Time, job: string,
      at: Time, late: Machine)
    requires MachineSound(erased) && EveryMarkWasAnnounced(erased) && RowsAllowed(erased.world.rows)
    requires IsCancelled(erased.world.rows, id) && Executions(erased.world.outbox, id) >= 1
    requires late == Run(erased, between) && (id in late.world.rows ==> late.world.rows[id].executedAt.None?)
    ensures var told := Reported(late, now, id, job, at);
            && Executions(late.world.outbox, id) >= 1
            && id in told.rows && told.rows[id].executedAt == Some(at)
            && Executions(told.outbox, id) == Executions(late.world.outbox, id) + 1
  {
    ClosedForEver(erased, between, id);
    RunsKeepAnnounced(erased, between);
    EveryRunIsAllowed(erased, between);
    ReportMarks(late, now, id, job, at);
  }

  lemma ErasedIsSound(m: Machine, erasing: Action, id: FulfillmentId, erased: Machine)
    requires MachineSound(m) && EveryMarkWasAnnounced(m) && RowsAllowed(m.world.rows)
    requires Erases(m, erasing, id) && erased == Step(m, erasing)
    ensures MachineSound(erased) && EveryMarkWasAnnounced(erased) && RowsAllowed(erased.world.rows)
    ensures IsCancelled(erased.world.rows, id) && Executions(erased.world.outbox, id) >= 1
  {
    StepKeepsMachineSound(m, erasing);
    StepKeepsAnnounced(m, erasing, erased);
    StepKeepsAllowed(m, erasing);
    MarkersMoveByTwoWrites(m, erasing, id, erased);
  }

  // ----- a run in which it happens -----

  /**
   An order is taken and cancelled; an acceptance and a delivery report both read the cancelled row;
   the report commits, then the acceptance; then the delivery is reported again.
   */
  const ERASING_RUN: seq<Action> := [
    Begin(0, ConsumeMarketOrder("order", None)), Finish(0),
    Begin(1, Cancel(0, "changed mind")), Finish(1),
    Begin(2, ConsumeJobAccepted(0, "job")),
    Begin(3, ConsumeMoveCompletion(0, "job", true, 3)), Finish(3),
    Finish(2),
    Begin(4, ConsumeMoveCompletion(0, "job", true, 3)), Finish(4)]

  lemma TwoMoreSteps(start: Machine, log: seq<Action>, first: Action, second: Action)
    ensures Run(start, log + [first, second]) == Step(Step(Run(start, log), first), second)
  {
    var once := log + [first];
    assert log + [first, second] == once + [second];
    assert (once + [second])[..|once|] == once && once[..|log|] == log;
  }

  const TAKEN_ROW := Row("order", None, None, Coordinating, NoFunds, 0, None, "", None, None)
  const CANCELLED_ROW := TAKEN_ROW.(status := Status.Cancelled, completedAt := Some(1), closureReason := "changed mind")

  lemma OrderIsTaken()
    ensures var m := Run(EMPTY_MACHINE, ERASING_RUN[..2]);
            && m.world.rows == map[0 := TAKEN_ROW]
            && m.nextId == 1 && m.staged == map[]
  {
    var log := ERASING_RUN;
    TwoMoreSteps(EMPTY_MACHINE, [], log[0], log[1]);
    assert [] + [log[0], log[1]] == log[..2];
  }

  lemma CancelAlone(m: Machine)
    requires m.world.rows == map[0 := TAKEN_ROW] && m.nextId == 1 && m.staged == map[]
    ensures var after := Step(Step(m, Begin(1, Cancel(0, "changed mind"))), Finish(1));
            after.world.rows == map[0 := CANCELLED_ROW] && after.nextId == 2 && after.staged == map[]
  {
    var begun := Step(m, Begin(1, Cancel(0, "changed mind")));
    assert begun.staged == map[1 := begun.staged[1]];
    assert begun.staged[1].money == [] && begun.staged[1].row == Some(UpdateIfOpen(0, CANCELLED_ROW));
  }

  lemma OrderIsCancelled()
    ensures var m := Run(EMPTY_MACHINE, ERASING_RUN[..4]);
            m.world.rows == map[0 := CANCELLED_ROW] && m.nextId == 2 && m.staged == map[]
  {
    var log := ERASING_RUN;
    OrderIsTaken();
    CancelAlone(Run(EMPTY_MACHINE, log[..2]));
    TwoMoreSteps(EMPTY_MACHINE, log[..2], log[2], log[3]);
    assert log[..4] == log[..2] + [log[2], log[3]];
  }

  const REPORT := Work([], Some(MarkExecuted(0, 3, "job")), [ExecutedAfterCancellationEvent(0)])

  /** Both read the cancelled row. */
  lemma BothAreStaged()
    ensures var m := Run(EMPTY_MACHINE, ERASING_RUN[..6]);
            && m.world.rows == map[0 := CANCELLED_ROW] && m.nextId == 4
            && m.staged == map[2 := Trace(CANCELLED_ROW, 0, "job"), 3 := REPORT]
  {
    var log := ERASING_RUN;
    OrderIsCancelled();
    TwoMoreSteps(EMPTY_MACHINE, log[..4], log[4], log[5]);
    assert log[..6] == log[..4] + [log[4], log[5]];
  }

  lemma ReportThenTrace(m: Machine)
    requires m.world.rows == map[0 := CANCELLED_ROW]
    requires m.staged == map[2 := Trace(CANCELLED_ROW, 0, "job"), 3 := REPORT]
    ensures var marked := Step(m, Finish(3));
            && marked.world.rows == map[0 := CANCELLED_ROW.(executedAt := Some(3), executedJob := Some("job"))]
            && Step(marked, Finish(2)).world.rows == map[0 := CANCELLED_ROW.(job := Some("job"))]
            && Step(marked, Finish(2)).nextId == m.nextId
  {
    var marked := Step(m, Finish(3));
    assert marked.staged == map[2 := Trace(CANCELLED_ROW, 0, "job")];
    TraceCommitsExactlyWhenTheJobIsFree(marked.world, CANCELLED_ROW, 0, "job");
  }

  /** After the report the row is marked, after the acceptance it is not, and the event is published again. */
  lemma StaleTraceErasesTheMarker()
    ensures var marked := Run(EMPTY_MACHINE, ERASING_RUN[..7]).world.rows;
            0 in marked && marked[0].executedAt == Some(3)
    ensures Run(EMPTY_MACHINE, ERASING_RUN[..8]) == Step(Run(EMPTY_MACHINE, ERASING_RUN[..7]), Finish(2))
    ensures Erases(Run(EMPTY_MACHINE, ERASING_RUN[..7]), Finish(2), 0)
    ensures Executions(Run(EMPTY_MACHINE, ERASING_RUN).world.outbox, 0) >= 2
  {
    var log := ERASING_RUN;
    BothAreStaged();
    ReportThenTrace(Run(EMPTY_MACHINE, log[..6]));
    assert log[..7][..6] == log[..6] && log[..8][..7] == log[..7];
    TwoMoreSteps(EMPTY_MACHINE, log[..8], log[8], log[9]);
    assert log == log[..8] + [log[8], log[9]];
    ErasedMarkerIsAnnouncedAgain(log[..7], Finish(2), [], 0, 4, "job", 3);
  }
}
