/**
 The marker that cancelled work was delivered anyway. Run serially it is written once, never
 lost, and announced exactly once. What interleaving does to it is `MarkerRaces`.
 */
module FulfillmentMarkers {
  import opened Common
  import opened Money
  import opened Fulfillment
  import FulfillmentSerial
  import FulfillmentRaces

  function Executions(outbox: seq<Event>, id: FulfillmentId): nat {
    if outbox == [] then 0
    else
      var last := outbox[|outbox| - 1];
      Executions(outbox[..|outbox| - 1], id)
      + (if last.ExecutedAfterCancellationEvent? && last.id == id then 1 else 0)
  }

  lemma ExecutionsAppend(outbox: seq<Event>, e: Event, id: FulfillmentId)
    ensures Executions(outbox + [e], id)
         == Executions(outbox, id) + (if e.ExecutedAfterCancellationEvent? && e.id == id then 1 else 0)
  {
    assert (outbox + [e])[..|outbox|] == outbox;
  }

  ghost predicate MarkersAnnounced(w: World) {
    forall id :: Executions(w.outbox, id) == (if id in w.rows && w.rows[id].executedAt.Some? then 1 else 0)
  }

  /** A marker is kept by every write that was staged from the row it overwrites. */
  ghost predicate MarkersKept(before: World, after: World) {
    forall id :: id in before.rows && before.rows[id].executedAt.Some? ==>
      && id in after.rows
      && after.rows[id].executedAt == before.rows[id].executedAt
      && after.rows[id].executedJob == before.rows[id].executedJob
  }

  /** The marker a freshly staged row write carries is the one on the row it was read from. */
  ghost predicate CarriesMarker(rows: map<FulfillmentId, Row>, work: Work) {
    match work.row
    case Some(InsertIfAbsent(_, row)) => row.executedAt == None
    case Some(UpdateIfOpen(id, row)) =>
      id in rows && row.executedAt == rows[id].executedAt && row.executedJob == rows[id].executedJob
    case Some(UpdateIfCoordinating(id, row)) =>
      id in rows && row.executedAt == rows[id].executedAt && row.executedJob == rows[id].executedJob
    case Some(Update(id, row)) =>
      id in rows && row.executedAt == rows[id].executedAt && row.executedJob == rows[id].executedJob
    case _ => true
  }

  lemma ReadingCarriesMarker(w: World, id: nat, now: Time, c: Command)
    ensures Read(w, id, now, c).Staging? ==> CarriesMarker(w.rows, Read(w, id, now, c).work)
  {
  }

  lemma CommittedParts(w: World, work: Work)
    requires CommitWork(w, work).Committed? && work.row.Some?
    ensures ApplyRow(w.rows, work.row.value) == Applied(CommitWork(w, work).world.rows)
    ensures CommitWork(w, work).world.outbox == w.outbox + work.events
  {
  }

  lemma RowWriteKeepsMarkers(w: World, id: nat, work: Work, after: World)
    requires MarkersAnnounced(w) && id !in w.rows && work.row.Some?
    requires FulfillmentRaces.PlausibleRow(w.rows, id, work) && CarriesMarker(w.rows, work)
    requires ApplyRow(w.rows, work.row.value) == Applied(after.rows) && after.outbox == w.outbox + work.events
    ensures MarkersAnnounced(after) && MarkersKept(w, after)
  {
    if work.events == [] {
      assert after.outbox == w.outbox;
    } else {
      assert work.events == [work.events[0]];
      forall f {
        ExecutionsAppend(w.outbox, work.events[0], f);
      }
    }
  }

  lemma SerialWorkKeepsMarkers(w: World, id: nat, now: Time, c: Command)
    requires MarkersAnnounced(w) && id !in w.rows
    requires Read(w, id, now, c).Staging? && CommitWork(w, Read(w, id, now, c).work).Committed?
    ensures var after := CommitWork(w, Read(w, id, now, c).work).world;
            MarkersAnnounced(after) && MarkersKept(w, after)
  {
    var work := Read(w, id, now, c).work;
    FulfillmentRaces.ReadingIsPlausible(w, id, now, c);
    ReadingCarriesMarker(w, id, now, c);
    assert work.row.Some?;
    CommittedParts(w, work);
    RowWriteKeepsMarkers(w, id, work, CommitWork(w, work).world);
  }

  lemma StepKeepsMarkers(o: FulfillmentSerial.Office, now: Time, act: FulfillmentSerial.Act)
    requires FulfillmentSerial.Truthful(o) && MarkersAnnounced(o.world)
    ensures MarkersAnnounced(FulfillmentSerial.Step(o, now, act).world)
    ensures MarkersKept(o.world, FulfillmentSerial.Step(o, now, act).world)
  {
    if act.Coordinate? && Read(o.world, o.nextId, now, act.fulfillment).Staging?
      && CommitWork(o.world, Read(o.world, o.nextId, now, act.fulfillment).work).Committed?
    {
      SerialWorkKeepsMarkers(o.world, o.nextId, now, act.fulfillment);
    }
  }

  /** In every serial run the event is published exactly once per marked row, and only for it. */
  lemma {:induction false} EveryMarkerIsAnnouncedOnce(log: seq<FulfillmentSerial.Timed>)
    ensures MarkersAnnounced(FulfillmentSerial.Run(FulfillmentSerial.EMPTY_OFFICE, log).world)
  {
    if log != [] {
      var earlier, last := log[..|log| - 1], log[|log| - 1];
      EveryMarkerIsAnnouncedOnce(earlier);
      FulfillmentSerial.EveryRunIsTruthful(earlier);
      StepKeepsMarkers(FulfillmentSerial.Run(FulfillmentSerial.EMPTY_OFFICE, earlier), last.at, last.act);
    }
  }
}
