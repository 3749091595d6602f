/**
 Fulfillment and money commands running concurrently: each reads committed rows, stages its
 work, and commits later against rows that may have moved on.

 However the phases interleave, an order has at most one fulfillment, a fulfillment has one
 closure event exactly when it is closed, and it is dispatched at most once.
 */
module FulfillmentRaces {
  import opened Common
  import opened Money
  import opened MoneyRuns
  import opened MoneyChanges
  import opened Fulfillment
  import MoneyRaces

  datatype Machine = Machine(world: World, nextId: nat, staged: map<nat, Work>)

  const EMPTY_MACHINE := Machine(World(EMPTY_TILL.books, map[], []), 0, map[])

  datatype Action =
    | Begin(now: Time, command: Fulfillment.Command)
    | BeginMoney(now: Time, money: MoneyRuns.Command)
    | BeginExpiry(now: Time, hold: HoldId)
    | Finish(ticket: nat)

  const NO_WORK := Work([], None, [])

  ghost function Step(m: Machine, a: Action): Machine {
    match a
    case Begin(now, c) =>
      var reading := Read(m.world, m.nextId, now, c);
      Machine(m.world, m.nextId + 1, m.staged[m.nextId := if reading.Staging? then reading.work else NO_WORK])
    case BeginMoney(now, c) =>
      Machine(m.world, m.nextId + 1,
              m.staged[m.nextId := Work(MoneyRaces.StagedWrites(m.world.books, m.nextId, now, c), None, [])])
    case BeginExpiry(now, id) =>
      Machine(m.world, m.nextId + 1,
              m.staged[m.nextId := Work(MoneyRaces.ExpiryWrites(m.world.books, now, id), None, [])])
    case Finish(ticket) =>
      if ticket !in m.staged then m
      else
        match CommitWork(m.world, m.staged[ticket])
        case Committed(world) => Machine(world, m.nextId, m.staged - {ticket})
        case _ => Machine(m.world, m.nextId, m.staged - {ticket})
  }

  ghost function Run(start: Machine, log: seq<Action>): Machine {
    if log == [] then start else Step(Run(start, log[..|log| - 1]), log[|log| - 1])
  }

  // ----- counting events -----

  function Closures(outbox: seq<Event>, id: FulfillmentId): nat {
    if outbox == [] then 0
    else
      var last := outbox[|outbox| - 1];
      Closures(outbox[..|outbox| - 1], id) + (if last.ClosureEvent? && last.id == id then 1 else 0)
  }

  function Dispatches(outbox: seq<Event>, id: FulfillmentId): nat {
    if outbox == [] then 0
    else
      var last := outbox[|outbox| - 1];
      Dispatches(outbox[..|outbox| - 1], id) + (if last.DispatchedEvent? && last.id == id then 1 else 0)
  }

  function Creations(outbox: seq<Event>, id: FulfillmentId): nat {
    if outbox == [] then 0
    else
      var last := outbox[|outbox| - 1];
      Creations(outbox[..|outbox| - 1], id) + (if last.CreatedEvent? && last.id == id then 1 else 0)
  }

  lemma CountAppend(outbox: seq<Event>, e: Event, id: FulfillmentId)
    ensures Closures(outbox + [e], id) == Closures(outbox, id) + (if e.ClosureEvent? && e.id == id then 1 else 0)
    ensures Dispatches(outbox + [e], id) == Dispatches(outbox, id) + (if e.DispatchedEvent? && e.id == id then 1 else 0)
    ensures Creations(outbox + [e], id) == Creations(outbox, id) + (if e.CreatedEvent? && e.id == id then 1 else 0)
  {
    assert (outbox + [e])[..|outbox|] == outbox;
  }

  // ----- what every staged work looks like -----

  /**
   The row a work writes and the single event it announces belong together. What ties an
   unconditional write to the current row is that a cancelled row never changes status again.
   */
  ghost predicate PlausibleRow(rows: map<FulfillmentId, Row>, ticket: nat, work: Work) {
    match work.row
    case None => work.events == []
    case Some(InsertIfAbsent(id, row)) =>
      && id == ticket
      && ((row.status == Coordinating && work.events == [CreatedEvent(id)])
          || (row.status == Failed && |work.events| == 1 && work.events[0].ClosureEvent? && work.events[0].id == id))
    case Some(UpdateIfOpen(id, row)) =>
      && id in rows && row.order == rows[id].order && IsClosed(row.status)
      && |work.events| == 1 && work.events[0].ClosureEvent? && work.events[0].id == id
    case Some(UpdateIfCoordinating(id, row)) =>
      id in rows && row.order == rows[id].order && row.status == Dispatched && work.events == [DispatchedEvent(id)]
    case Some(Update(id, row)) =>
      && id in rows && row.order == rows[id].order && rows[id].status == Cancelled && row.status == Cancelled
      && work.events == []
    case Some(MarkExecuted(id, _, _)) => id in rows && work.events == [ExecutedAfterCancellationEvent(id)]
  }

  ghost predicate RowSound(world: World, id: FulfillmentId)
    requires id in world.rows
  {
    var row := world.rows[id];
    && Closures(world.outbox, id) == (if IsClosed(row.status) then 1 else 0)
    && Dispatches(world.outbox, id) <= (if row.status == Coordinating then 0 else 1)
    && Creations(world.outbox, id) <= 1
  }

  ghost predicate Unannounced(world: World, id: FulfillmentId) {
    Closures(world.outbox, id) == 0 && Dispatches(world.outbox, id) == 0 && Creations(world.outbox, id) == 0
  }

  ghost predicate MoneyPart(m: Machine) {
    && Sound(m.world.books)
    && (forall h :: h in m.world.books.holds ==> h < m.nextId && h !in m.staged)
    && (forall w :: w in m.world.books.wallets ==> w < m.nextId && w !in m.staged)
    && (forall t :: t in m.staged ==> t < m.nextId && MoneyRaces.Plausible(m.world.books, t, m.staged[t].money))
  }

  ghost predicate RowPart(m: Machine) {
    && (forall i, j ::
        i in m.world.rows && j in m.world.rows && m.world.rows[i].order == m.world.rows[j].order ==> i == j)
    && (forall id :: id in m.world.rows ==> id < m.nextId && id !in m.staged && RowSound(m.world, id))
    && (forall id :: id !in m.world.rows ==> Unannounced(m.world, id))
    && (forall t :: t in m.staged ==> t < m.nextId && PlausibleRow(m.world.rows, t, m.staged[t]))
  }

  /** Reading never stages an implausible row write. */
  lemma ReadingIsPlausible(w: World, id: nat, now: Time, c: Fulfillment.Command)
    ensures Read(w, id, now, c).Staging? ==> PlausibleRow(w.rows, id, Read(w, id, now, c).work)
  {
  }

  lemma ReleaseMoneyIsPlausible(b: Books, id: nat, now: Time, hold: Option<HoldId>, reason: string)
    requires Sound(b)
    ensures MoneyRaces.Plausible(b, id, Release(b, now, hold, reason).money)
  {
    if hold.Some? {
      MoneyRaces.StagedIsPlausible(b, id, now, VoidHold(hold.value, reason));
    }
  }

  lemma SettleMoneyIsPlausible(b: Books, id: nat, now: Time, hold: Option<HoldId>)
    requires Sound(b)
    ensures MoneyRaces.Plausible(b, id, Settle(b, now, hold).1.money)
  {
    if hold.Some? {
      ReleaseMoneyIsPlausible(b, id, now, hold, "settlement_failed");
      MoneyRaces.StagedIsPlausible(b, id, now, CaptureHold(hold.value, "", None));
    }
  }

  /** A fulfillment's money is a void, a full capture, or nothing. */
  lemma ReadingMoneyIsPlausible(w: World, id: nat, now: Time, c: Fulfillment.Command)
    requires Sound(w.books)
    ensures Read(w, id, now, c).Staging? ==> MoneyRaces.Plausible(w.books, id, Read(w, id, now, c).work.money)
  {
    match c
    case ConsumeMarketOrder(order, hold) =>
      ReleaseMoneyIsPlausible(w.books, id, now,
          if InspectHold(w.books, now, hold).known then hold else None, "refused");
    case ConsumeJobAccepted(f, job) =>
    case ConsumeJobRejected(f, reason) =>
      if f in w.rows { ReleaseMoneyIsPlausible(w.books, id, now, w.rows[f].hold, "move_rejected:" + reason); }
    case ConsumeMoveCompletion(f, job, delivered, at) =>
      if f in w.rows {
        ReleaseMoneyIsPlausible(w.books, id, now, w.rows[f].hold, "move_execution_failed");
        SettleMoneyIsPlausible(w.books, id, now, w.rows[f].hold);
      }
    case Cancel(f, reason) =>
      if f in w.rows { ReleaseMoneyIsPlausible(w.books, id, now, w.rows[f].hold, "cancelled:" + reason); }
  }

  // ----- commits -----

  /** One legal change under the books keeps the money part, one ticket fewer. */
  lemma ChangeKeepsMoneyPart(m: Machine, after: Machine, ticket: nat, change: Change)
    requires MoneyPart(m) && ticket in m.staged && Legal(m.world.books, change)
    requires change.WalletOpened? ==> change.wallet == ticket
    requires change.HoldOpened? ==> change.id == ticket
    requires after.world.books == Apply(m.world.books, change) && after.staged == m.staged - {ticket}
             && after.nextId == m.nextId
    ensures MoneyPart(after)
  {
    ChangeKeepsSound(m.world.books, change);
    forall t | t in after.staged
      ensures t < after.nextId && MoneyRaces.Plausible(after.world.books, t, after.staged[t].money)
    {
      MoneyRaces.PlausibleStays(m.world.books, change, t, m.staged[t].money);
    }
  }

  lemma CommitKeepsMoney(m: Machine, ticket: nat)
    requires MoneyPart(m) && ticket in m.staged
    ensures MoneyPart(Step(m, Finish(ticket)))
  {
    var outcome := CommitWork(m.world, m.staged[ticket]);
    if outcome.Committed? {
      var change := MoneyRaces.CommitIsALegalChange(m.world.books, ticket, m.staged[ticket].money);
      assert outcome.world.books == Apply(m.world.books, change);
      ChangeKeepsMoneyPart(m, Step(m, Finish(ticket)), ticket, change);
    }
  }

  /** The rows after a commit that wrote one: one row changed, along its own lifecycle. */
  ghost predicate RowMoved(before: map<FulfillmentId, Row>, after: map<FulfillmentId, Row>, id: FulfillmentId) {
    && id in after && after == before[id := after[id]]
    && (id in before ==> after[id].order == before[id].order
                         && (IsClosed(before[id].status) ==> after[id].status == before[id].status)
                         && (before[id].status == Dispatched ==> after[id].status != Coordinating))
  }

  predicate SameCounts(before: seq<Event>, after: seq<Event>, id: FulfillmentId) {
    && Closures(after, id) == Closures(before, id)
    && Dispatches(after, id) == Dispatches(before, id)
    && Creations(after, id) == Creations(before, id)
  }

  /** What a work that writes a row does to the rows. */
  lemma CommittedRowMoves(before: World, ticket: nat, work: Work)
    requires PlausibleRow(before.rows, ticket, work) && ticket !in before.rows && work.row.Some?
             && CommitWork(before, work).Committed?
    ensures var after := CommitWork(before, work).world;
            && RowMoved(before.rows, after.rows, work.row.value.id)
            && (work.row.value.id in before.rows || work.row.value.id == ticket)
            && (work.row.value.id !in before.rows ==> !OrderTaken(before.rows, after.rows[work.row.value.id].order))
            && after.outbox == before.outbox + work.events
  {
  }

  /** How the announcements fit the row that moved. */
  ghost predicate EventFits(before: map<FulfillmentId, Row>, after: map<FulfillmentId, Row>, id: FulfillmentId,
      events: seq<Event>)
    requires id in after
  {
    var closes := IsClosed(after[id].status) && (id in before ==> !IsClosed(before[id].status));
    || (events == [] && id in before && after[id].status == before[id].status)
    || (|events| == 1 && events[0].id == id
        && (events[0].ClosureEvent? <==> closes)
        && (events[0].DispatchedEvent?
            ==> id in before && before[id].status == Coordinating && after[id].status == Dispatched)
        && (events[0].CreatedEvent? ==> id !in before)
        && (id !in before ==> after[id].status == Coordinating || closes)
        && (id in before && !closes && !events[0].DispatchedEvent? ==> after[id].status == before[id].status)
        && (id in before && before[id].status != Coordinating ==> after[id].status != Coordinating))
  }

  lemma CommittedEventFits(before: World, ticket: nat, work: Work)
    requires PlausibleRow(before.rows, ticket, work) && ticket !in before.rows && work.row.Some?
             && CommitWork(before, work).Committed?
    requires work.row.value.id in CommitWork(before, work).world.rows
    ensures EventFits(before.rows, CommitWork(before, work).world.rows, work.row.value.id, work.events)
  {
  }

  /** Announcing it keeps every count what the rows say. */
  lemma AnnouncingKeepsCounts(before: World, after: World, id: FulfillmentId, events: seq<Event>)
    requires RowMoved(before.rows, after.rows, id) && EventFits(before.rows, after.rows, id, events)
    requires after.outbox == before.outbox + events
    requires if id in before.rows then RowSound(before, id) else Unannounced(before, id)
    ensures RowSound(after, id)
    ensures forall j :: j != id ==> SameCounts(before.outbox, after.outbox, j)
  {
    if events == [] {
      assert after.outbox == before.outbox;
    } else {
      assert events == [events[0]];
      CountAppend(before.outbox, events[0], id);
      forall j | j != id
        ensures SameCounts(before.outbox, after.outbox, j)
      {
        CountAppend(before.outbox, events[0], j);
      }
    }
  }

  lemma CommittedRow(m: Machine, ticket: nat) returns (id: FulfillmentId)
    requires RowPart(m) && ticket in m.staged && m.staged[ticket].row.Some?
    requires CommitWork(m.world, m.staged[ticket]).Committed?
    ensures var after := CommitWork(m.world, m.staged[ticket]).world;
            && RowMoved(m.world.rows, after.rows, id)
            && (id in m.world.rows || id == ticket)
            && RowSound(after, id)
            && (forall j :: j != id ==> SameCounts(m.world.outbox, after.outbox, j))
            && (id !in m.world.rows ==> !OrderTaken(m.world.rows, after.rows[id].order))
  {
    var work := m.staged[ticket];
    id := work.row.value.id;
    CommittedRowMoves(m.world, ticket, work);
    CommittedEventFits(m.world, ticket, work);
    assert if id in m.world.rows then RowSound(m.world, id) else Unannounced(m.world, id);
    AnnouncingKeepsCounts(m.world, CommitWork(m.world, work).world, id, work.events);
  }

  lemma PlausibleRowStays(before: map<FulfillmentId, Row>, after: map<FulfillmentId, Row>, moved: FulfillmentId,
      ticket: nat, work: Work)
    requires RowMoved(before, after, moved) && PlausibleRow(before, ticket, work)
    ensures PlausibleRow(after, ticket, work)
  {
  }

  lemma CountsStayRight(m: Machine, ticket: nat, id: FulfillmentId, after: World)
    requires RowPart(m) && ticket in m.staged && RowMoved(m.world.rows, after.rows, id)
    requires id in m.world.rows || id == ticket
    requires RowSound(after, id) && forall j :: j != id ==> SameCounts(m.world.outbox, after.outbox, j)
    ensures forall j :: j in after.rows ==> RowSound(after, j) && j < m.nextId && j !in m.staged - {ticket}
    ensures forall j :: j !in after.rows ==> Unannounced(after, j)
  {
    forall j | j in after.rows
      ensures RowSound(after, j) && j < m.nextId && j !in m.staged - {ticket}
    {
      if j != id {
        assert RowSound(m.world, j) && SameCounts(m.world.outbox, after.outbox, j);
      }
    }
    forall j | j !in after.rows
      ensures Unannounced(after, j)
    {
      assert Unannounced(m.world, j) && SameCounts(m.world.outbox, after.outbox, j);
    }
  }

  lemma CommitKeepsRows(m: Machine, ticket: nat)
    requires RowPart(m) && ticket in m.staged
    ensures RowPart(Step(m, Finish(ticket)))
  {
    var outcome := CommitWork(m.world, m.staged[ticket]);
    if outcome.Committed? {
      var after := outcome.world;
      if m.staged[ticket].row.None? {
        assert PlausibleRow(m.world.rows, ticket, m.staged[ticket]);
        assert after.outbox == m.world.outbox;
      } else {
        var id := CommittedRow(m, ticket);
        CountsStayRight(m, ticket, id, after);
        forall t | t in m.staged - {ticket}
          ensures PlausibleRow(after.rows, t, m.staged[t])
        {
          PlausibleRowStays(m.world.rows, after.rows, id, t, m.staged[t]);
        }
      }
    }
  }

  ghost predicate MachineSound(m: Machine) {
    MoneyPart(m) && RowPart(m)
  }

  /** Staging a unit that looks as it should commits nothing. */
  lemma StagingKeepsMachineSound(m: Machine, work: Work)
    requires MachineSound(m) && PlausibleRow(m.world.rows, m.nextId, work)
    requires MoneyRaces.Plausible(m.world.books, m.nextId, work.money)
    ensures MachineSound(Machine(m.world, m.nextId + 1, m.staged[m.nextId := work]))
  {
  }

  lemma StepKeepsMachineSound(m: Machine, a: Action)
    requires MachineSound(m)
    ensures MachineSound(Step(m, a))
  {
    match a
    case Begin(now, c) =>
      var reading := Read(m.world, m.nextId, now, c);
      ReadingIsPlausible(m.world, m.nextId, now, c);
      ReadingMoneyIsPlausible(m.world, m.nextId, now, c);
      StagingKeepsMachineSound(m, if reading.Staging? then reading.work else NO_WORK);
    case BeginMoney(now, c) =>
      MoneyRaces.StagedIsPlausible(m.world.books, m.nextId, now, c);
      StagingKeepsMachineSound(m, Work(MoneyRaces.StagedWrites(m.world.books, m.nextId, now, c), None, []));
    case BeginExpiry(now, id) =>
      MoneyRaces.ExpiryIsPlausible(m.world.books, m.nextId, now, id);
      StagingKeepsMachineSound(m, Work(MoneyRaces.ExpiryWrites(m.world.books, now, id), None, []));
    case Finish(ticket) =>
      if ticket in m.staged {
        CommitKeepsMoney(m, ticket);
        CommitKeepsRows(m, ticket);
      }
  }

  lemma {:induction false} EveryInterleavingIsSound(log: seq<Action>)
    ensures MachineSound(Run(EMPTY_MACHINE, log))
  {
    if log != [] {
      EveryInterleavingIsSound(log[..|log| - 1]);
      StepKeepsMachineSound(Run(EMPTY_MACHINE, log[..|log| - 1]), log[|log| - 1]);
    }
  }

  // ----- the claims -----

  /** No interleaving gives one order two fulfillments. */
  lemma OneFulfillmentPerOrder(log: seq<Action>, i: FulfillmentId, j: FulfillmentId)
    requires i in Run(EMPTY_MACHINE, log).world.rows && j in Run(EMPTY_MACHINE, log).world.rows
    requires Run(EMPTY_MACHINE, log).world.rows[i].order == Run(EMPTY_MACHINE, log).world.rows[j].order
    ensures i == j
  {
    EveryInterleavingIsSound(log);
  }

  /** A closure event exists exactly when the fulfillment is closed, and never twice. */
  lemma SingleClosure(log: seq<Action>, id: FulfillmentId)
    ensures var w := Run(EMPTY_MACHINE, log).world;
            && Closures(w.outbox, id) <= 1
            && (Closures(w.outbox, id) == 1 <==> id in w.rows && IsClosed(w.rows[id].status))
            && Dispatches(w.outbox, id) <= 1
            && Creations(w.outbox, id) <= 1
  {
    EveryInterleavingIsSound(log);
    var w := Run(EMPTY_MACHINE, log).world;
    if id in w.rows {
      assert RowSound(w, id);
    } else {
      assert Unannounced(w, id);
    }
  }

  /** The same machine, except that one of them may still have a unit of work staged. */
  ghost predicate SameBut(m: Machine, n: Machine, ticket: nat) {
    && m.world == n.world && m.nextId == n.nextId && ticket < m.nextId
    && m.staged == n.staged - {ticket}
  }

  lemma OthersStepAlike(m: Machine, n: Machine, ticket: nat, a: Action)
    requires SameBut(m, n, ticket) && a != Finish(ticket)
    ensures SameBut(Step(m, a), Step(n, a), ticket)
  {
    if a.Finish? {
      assert a.ticket in m.staged <==> a.ticket in n.staged;
      assert (n.staged - {a.ticket}) - {ticket} == (n.staged - {ticket}) - {a.ticket};
    } else {
      assert Step(n, a).staged - {ticket} == Step(m, a).staged;
    }
  }

  lemma {:induction false} OthersRunAlike(m: Machine, n: Machine, ticket: nat, log: seq<Action>)
    requires SameBut(m, n, ticket) && Finish(ticket) !in log
    ensures SameBut(Run(m, log), Run(n, log), ticket)
  {
    if log != [] {
      OthersRunAlike(m, n, ticket, log[..|log| - 1]);
      OthersStepAlike(Run(m, log[..|log| - 1]), Run(n, log[..|log| - 1]), ticket, log[|log| - 1]);
    }
  }

  /**
   A transition that loses, or is aborted, might as well never have tried: everything afterwards,
   in every interleaving, comes to the same rows, money and events.
   */
  lemma LosingChangesNothing(before: seq<Action>, ticket: nat, rest: seq<Action>)
    requires var m := Run(EMPTY_MACHINE, before);
             ticket in m.staged && !CommitWork(m.world, m.staged[ticket]).Committed?
    requires Finish(ticket) !in rest
    ensures Run(Run(EMPTY_MACHINE, before + [Finish(ticket)]), rest).world
         == Run(Run(EMPTY_MACHINE, before), rest).world
  {
    var m := Run(EMPTY_MACHINE, before);
    assert (before + [Finish(ticket)])[..|before|] == before;
    EveryInterleavingIsSound(before);
    OthersRunAlike(Step(m, Finish(ticket)), m, ticket, rest);
  }

  /** A staged closure wins exactly while its fulfillment is open and its hold has not moved. */
  lemma ClosureWinsExactlyWhileOpen(m: Machine, ticket: nat, id: FulfillmentId, row: Row)
    requires MachineSound(m) && ticket in m.staged && m.staged[ticket].row == Some(UpdateIfOpen(id, row))
    requires RowAllowed(row)
    ensures id in m.world.rows
    ensures CommitWork(m.world, m.staged[ticket]).Committed?
       <==> !IsClosed(m.world.rows[id].status) && Commit(m.world.books, m.staged[ticket].money).Ok?
    ensures CommitWork(m.world, m.staged[ticket]).Committed? ==>
              Step(m, Finish(ticket)).world.rows[id] == row
  {
    assert PlausibleRow(m.world.rows, ticket, m.staged[ticket]);
  }

  /** Of two closures staged for one fulfillment, whoever commits second loses, whatever happened between. */
  lemma SecondClosureLoses(m: Machine, first: nat, between: seq<Action>, second: nat, id: FulfillmentId)
    requires MachineSound(m) && first in m.staged && m.staged[first].row.Some?
             && m.staged[first].row.value.UpdateIfOpen?
    requires m.staged[first].row.value.id == id && CommitWork(m.world, m.staged[first]).Committed?
    requires second in Run(Step(m, Finish(first)), between).staged
    requires var work := Run(Step(m, Finish(first)), between).staged[second];
             work.row.Some? && work.row.value.UpdateIfOpen? && work.row.value.id == id
    ensures var end := Run(Step(m, Finish(first)), between);
            !CommitWork(end.world, end.staged[second]).Committed? && Step(end, Finish(second)).world == end.world
  {
    FirstClosureWins(m, first, id, Step(m, Finish(first)));
    ClosedForEver(Step(m, Finish(first)), between, id);
    LaterClosureLoses(Run(Step(m, Finish(first)), between), second, id);
  }

  lemma FirstClosureWins(m: Machine, ticket: nat, id: FulfillmentId, after: Machine)
    requires MachineSound(m) && ticket in m.staged && m.staged[ticket].row.Some?
    requires m.staged[ticket].row.value.UpdateIfOpen? && m.staged[ticket].row.value.id == id
    requires CommitWork(m.world, m.staged[ticket]).Committed? && after == Step(m, Finish(ticket))
    ensures MachineSound(after) && id in after.world.rows && IsClosed(after.world.rows[id].status)
  {
    assert PlausibleRow(m.world.rows, ticket, m.staged[ticket]);
    StepKeepsMachineSound(m, Finish(ticket));
  }

  lemma LaterClosureLoses(m: Machine, ticket: nat, id: FulfillmentId)
    requires ticket in m.staged && m.staged[ticket].row.Some?
    requires m.staged[ticket].row.value.UpdateIfOpen? && m.staged[ticket].row.value.id == id
    requires id in m.world.rows && IsClosed(m.world.rows[id].status)
    ensures !CommitWork(m.world, m.staged[ticket]).Committed? && Step(m, Finish(ticket)).world == m.world
  {
  }

  lemma ClosedStays(m: Machine, a: Action, id: FulfillmentId)
    requires MachineSound(m) && id in m.world.rows && IsClosed(m.world.rows[id].status)
    ensures id in Step(m, a).world.rows && Step(m, a).world.rows[id].status == m.world.rows[id].status
  {
    if a.Finish? && a.ticket in m.staged && CommitWork(m.world, m.staged[a.ticket]).Committed?
      && m.staged[a.ticket].row.Some?
    {
      var moved := CommittedRow(m, a.ticket);
    }
  }

  /** Even against stale commits a closed fulfillment keeps its status. */
  lemma {:induction false} ClosedForEver(m: Machine, log: seq<Action>, id: FulfillmentId)
    requires MachineSound(m) && id in m.world.rows && IsClosed(m.world.rows[id].status)
    ensures MachineSound(Run(m, log))
    ensures id in Run(m, log).world.rows && Run(m, log).world.rows[id].status == m.world.rows[id].status
  {
    if log != [] {
      ClosedForEver(m, log[..|log| - 1], id);
      StepKeepsMachineSound(Run(m, log[..|log| - 1]), log[|log| - 1]);
      ClosedStays(Run(m, log[..|log| - 1]), log[|log| - 1], id);
    }
  }
}
