/**
 Any number of relays, delivery workers and operators, in any interleaving. Each relay and worker
 acts on the tickets it was handed when it claimed, as often and as late as it likes, or dies.
 Nothing is supposed of them but that they run the drains' code under one configuration, so the
 bound on claims is derived here from that code.
 */
module RelayCrews {
  import opened Common
  import opened Queue
  import opened QueueRuns
  import opened QueueStore
  import opened QueueBudgets
  import opened Relay
  import opened RelayService
  import opened DeliveryWorker
  import opened RelayBudgets

  /** What a worker keeps of a row it claimed: the token, and the attempts it read then. */
  datatype Ticket = Ticket(id: Id, token: Token, attempts: nat)

  /** Every ticket ever handed out for an event, and for a delivery. */
  datatype Crew = Crew(hub: Hub, events: set<Ticket>, deliveries: set<Ticket>)

  const EMPTY_CREW := Crew(EMPTY_HUB, {}, {})

  datatype Configuration = Configuration(relay: Settings, worker: Settings)

  /** `seen` is the hub as a worker read it before it sent, however long ago that was. */
  datatype Move =
    | Announce(event: Id, eventType: EventType, now: Time)
    | Register(id: Id, subscriber: int, eventType: EventType)
    | Switch(id: Id, active: bool)
    | ReviveEvent(id: Id, now: Time)
    | ReviveDelivery(id: Id, now: Time)
    | RelayRecovers(now: Time, asked: int)
    | RelayClaims(now: Time, asked: int)
    | RelayEnds(ticket: Ticket, failure: Option<string>, now: Time)
    | WorkerRecovers(now: Time, limit: nat)
    | WorkerClaims(now: Time, limit: nat)
    | WorkerEnds(ticket: Ticket, seen: Hub, answer: Answer, now: Time)

  /** What a move asks of the hub, if it may be made at all. */
  function ActionOf(c: Crew, m: Move, settings: Configuration): Option<Action> {
    match m
    case Announce(event, eventType, now) => Some(Emit(event, eventType, now))
    case Register(id, subscriber, eventType) => Some(Subscribe(id, subscriber, eventType))
    case Switch(id, active) => Some(SetActive(id, active))
    case ReviveEvent(id, now) => Some(WorkOutbox(Revive(id, now)))
    case ReviveDelivery(id, now) => Some(WorkDeliveries(Revive(id, now)))
    case RelayRecovers(now, asked) => Some(Opening(now, asked, settings.relay)[0])
    case RelayClaims(now, asked) => Some(Opening(now, asked, settings.relay)[1])
    case RelayEnds(t, failure, now) =>
      if t in c.events then Some(PublishStep(t.id, t.token, t.attempts, failure, now, settings.relay)) else None
    case WorkerRecovers(now, limit) => Some(DeliveryRecover(now, limit, settings.worker))
    case WorkerClaims(now, limit) => Some(DeliveryClaim(now, limit))
    case WorkerEnds(t, seen, answer, now) =>
      if t in c.deliveries && t.id in seen.routes then
        Some(WorkDeliveries(Acknowledge(t.id, t.token,
                                        DeliveryAck(seen, t.id, t.attempts, answer, now, settings.worker))))
      else None
  }

  function Tickets(s: State, now: Time, count: int): set<Ticket> {
    set i | i in DueBatch(s.rows, now, count) :: Ticket(i, s.nextToken, s.rows[i].attempts)
  }

  function Make(c: Crew, m: Move, settings: Configuration): Crew {
    match ActionOf(c, m, settings)
    case None => c
    case Some(a) =>
      Crew(Act(c.hub, a),
           c.events + (if m.RelayClaims? then Tickets(c.hub.outbox, m.now, if m.asked < 1 then 1 else m.asked) else {}),
           c.deliveries + (if m.WorkerClaims? then Tickets(c.hub.deliveries, m.now, m.limit) else {}))
  }

  function RunCrew(log: seq<Move>, settings: Configuration): Crew {
    if log == [] then EMPTY_CREW else Make(RunCrew(log[..|log| - 1], settings), log[|log| - 1], settings)
  }

  function PoliciesOf(settings: Configuration): Policies {
    Policies(settings.relay.policy, settings.worker.policy)
  }

  // ----- what every reachable crew satisfies -----

  ghost predicate AllRecorded(history: seq<Mark>, tickets: set<Ticket>) {
    forall t :: t in tickets ==> ClaimedAt(history, t.id, t.token, t.attempts)
  }

  ghost predicate Sound(c: Crew) {
    && Whole(c.hub)
    && AllRecorded(c.hub.outbox.history, c.events)
    && AllRecorded(c.hub.deliveries.history, c.deliveries)
  }

  lemma StayRecorded(history: seq<Mark>, longer: seq<Mark>, tickets: set<Ticket>)
    requires AllRecorded(history, tickets) && history <= longer
    ensures AllRecorded(longer, tickets)
  {
    forall t | t in tickets
      ensures ClaimedAt(longer, t.id, t.token, t.attempts)
    {
      var p :| 0 <= p < |history| && history[p] == Claimed(t.id, t.token, t.attempts);
      assert longer[p] == history[p];
    }
  }

  lemma ClaimRecordsTickets(s: State, now: Time, count: int, lease: int)
    ensures AllRecorded(Step(s, Claim(now, count, lease)).history, Tickets(s, now, count))
  {
    DueBatchIsDue(s.rows, now, count);
    ClaimBatchRecords(s, DueBatch(s.rows, now, count), now, lease);
  }

  /** Whatever a move asks of the hub keeps to the budgets. */
  lemma MovesObey(c: Crew, m: Move, settings: Configuration)
    requires Sound(c) && ActionOf(c, m, settings).Some?
    ensures Obeys(c.hub, ActionOf(c, m, settings).value, PoliciesOf(settings))
  {
    var p := PoliciesOf(settings);
    match m
    case RelayEnds(t, failure, now) =>
      PublishStepObeys(c.hub, t.id, t.token, t.attempts, failure, now, settings.relay, p);
    case WorkerEnds(t, seen, answer, now) =>
      DeliveryStepObeys(seen, c.hub, t.id, t.token, t.attempts, answer, now, settings.worker, p);
    case _ =>
  }

  lemma RelayClaimRecords(h: Hub, now: Time, asked: int, settings: Settings)
    ensures AllRecorded(Act(h, Opening(now, asked, settings)[1]).outbox.history,
                        Tickets(h.outbox, now, if asked < 1 then 1 else asked))
  {
    ClaimRecordsTickets(h.outbox, now, if asked < 1 then 1 else asked, LEASE_MS);
  }

  lemma WorkerClaimRecords(h: Hub, now: Time, limit: nat)
    ensures AllRecorded(Act(h, DeliveryClaim(now, limit)).deliveries.history, Tickets(h.deliveries, now, limit))
  {
    ClaimRecordsTickets(h.deliveries, now, limit, LEASE_MS);
  }

  lemma ActKeepsRecorded(h: Hub, a: Action, events: set<Ticket>, deliveries: set<Ticket>)
    requires AllRecorded(h.outbox.history, events) && AllRecorded(h.deliveries.history, deliveries)
    ensures AllRecorded(Act(h, a).outbox.history, events) && AllRecorded(Act(h, a).deliveries.history, deliveries)
  {
    ActExtends(h, a);
    StayRecorded(h.outbox.history, Act(h, a).outbox.history, events);
    StayRecorded(h.deliveries.history, Act(h, a).deliveries.history, deliveries);
  }

  lemma MoreRecorded(history: seq<Mark>, some: set<Ticket>, more: set<Ticket>)
    requires AllRecorded(history, some) && AllRecorded(history, more)
    ensures AllRecorded(history, some + more)
  {
  }

  lemma MakeKeepsRecorded(c: Crew, m: Move, settings: Configuration)
    requires AllRecorded(c.hub.outbox.history, c.events) && AllRecorded(c.hub.deliveries.history, c.deliveries)
    ensures AllRecorded(Make(c, m, settings).hub.outbox.history, Make(c, m, settings).events)
    ensures AllRecorded(Make(c, m, settings).hub.deliveries.history, Make(c, m, settings).deliveries)
  {
    match ActionOf(c, m, settings)
    case None =>
    case Some(a) =>
      var h := Act(c.hub, a);
      ActKeepsRecorded(c.hub, a, c.events, c.deliveries);
      if m.RelayClaims? {
        RelayClaimRecords(c.hub, m.now, m.asked, settings.relay);
        MoreRecorded(h.outbox.history, c.events, Tickets(c.hub.outbox, m.now, if m.asked < 1 then 1 else m.asked));
      } else if m.WorkerClaims? {
        WorkerClaimRecords(c.hub, m.now, m.limit);
        MoreRecorded(h.deliveries.history, c.deliveries, Tickets(c.hub.deliveries, m.now, m.limit));
      }
  }

  lemma MakeKeepsSound(c: Crew, m: Move, settings: Configuration)
    requires Sound(c)
    ensures Sound(Make(c, m, settings))
  {
    MakeKeepsRecorded(c, m, settings);
    if ActionOf(c, m, settings).Some? {
      ActKeepsWhole(c.hub, ActionOf(c, m, settings).value);
    }
  }

  lemma {:induction false} EveryCrewIsSound(log: seq<Move>, settings: Configuration)
    ensures Sound(RunCrew(log, settings))
  {
    if log == [] {
      EmptyHubIsWhole();
    } else {
      EveryCrewIsSound(log[..|log| - 1], settings);
      MakeKeepsSound(RunCrew(log[..|log| - 1], settings), log[|log| - 1], settings);
    }
  }

  /** A crew's hub is reached by actions that all keep to the budgets. */
  lemma {:induction false} CrewIsARun(log: seq<Move>, settings: Configuration) returns (actions: seq<Action>)
    ensures RunHub(EMPTY_HUB, actions) == RunCrew(log, settings).hub
    ensures AllObey(EMPTY_HUB, actions, PoliciesOf(settings))
  {
    actions := [];
    if log != [] {
      var earlier := RunCrew(log[..|log| - 1], settings);
      actions := CrewIsARun(log[..|log| - 1], settings);
      EveryCrewIsSound(log[..|log| - 1], settings);
      match ActionOf(earlier, log[|log| - 1], settings)
      case None =>
      case Some(a) =>
        MovesObey(earlier, log[|log| - 1], settings);
        assert (actions + [a])[..|actions|] == actions;
        actions := actions + [a];
    }
  }

  /**
   However many relays, workers and operators there are and however they interleave, stall and
   die, no event and no delivery is claimed more often than its allowance since it was inserted or
   last revived: maxAttempts + maxReclaims, and maxReclaims + 1 for a row revived with its attempts
   spent.
   */
  lemma CrewsAreBounded(log: seq<Move>, settings: Configuration, id: Id)
    ensures var h, p := RunCrew(log, settings).hub, PoliciesOf(settings);
            Bounded(h.outbox.history, id, p.events) && Bounded(h.deliveries.history, id, p.deliveries)
  {
    var actions := CrewIsARun(log, settings);
    EventsAndDeliveriesAreBounded(actions, PoliciesOf(settings), id);
  }

  ghost predicate Bounded(history: seq<Mark>, id: Id, p: Policy) {
    var claims, spent := ClaimsSince(history, id), SpentBefore(history, id);
    && (spent == 0 && p.maxAttempts >= 1 ==> claims <= p.maxAttempts + p.maxReclaims)
    && (spent >= p.maxAttempts ==> claims <= p.maxReclaims + 1)
    && (spent < p.maxAttempts ==> claims <= p.maxAttempts - spent + p.maxReclaims)
  }
}
