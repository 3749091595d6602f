/**
 The relay: events leave the outbox, and one delivery is queued for every subscription that is
 active at that moment, in the transaction that marks the event published.

 Any number of relays, delivery workers and operators act on one `Hub`. A relay that lost its
 claim has its whole transaction undone.
 */
module Relay {
  import opened Common
  import opened Queue
  import opened QueueRuns
  import opened Positions

  type EventType = int

  datatype Subscription = Subscription(subscriber: int, eventType: EventType, active: bool)

  datatype Route = Route(event: Id, subscription: Id)

  /** `published` remembers, for each published event, the subscriptions active when it committed. */
  datatype Hub = Hub(
    outbox: State,
    types: map<Id, EventType>,
    deliveries: State,
    routes: map<Id, Route>,
    subscriptions: map<Id, Subscription>,
    nextDelivery: Id,
    published: map<Id, set<Id>>)

  const EMPTY_HUB := Hub(EMPTY_STATE, map[], EMPTY_STATE, map[], map[], 0, map[])

  datatype Action =
    | Emit(event: Id, eventType: EventType, now: Time)
    | WorkOutbox(command: Command)
    | Publish(event: Id, token: Token, now: Time)
    | WorkDeliveries(command: Command)
    | Subscribe(id: Id, subscriber: int, eventType: EventType)
    | SetActive(id: Id, active: bool)

  // ----- fan-out -----

  function ActiveFor(subscriptions: map<Id, Subscription>, eventType: EventType): set<Id> {
    set s | s in subscriptions && subscriptions[s].active && subscriptions[s].eventType == eventType
  }

  function Subscribers(subscriptions: map<Id, Subscription>): map<Id, int> {
    map s | s in subscriptions :: subscriptions[s].subscriber
  }

  /** `subscriptionsFor`: ordered by subscriber, then by id. */
  function SubscriptionsFor(subscriptions: map<Id, Subscription>, eventType: EventType): seq<Id> {
    InPositionOrder(Subscribers(subscriptions), ActiveFor(subscriptions, eventType))
  }

  predicate Queued(routes: map<Id, Route>, route: Route) {
    exists d :: d in routes && routes[d] == route
  }

  /** Unique per (event, subscription): a second queueing of the pair does nothing. */
  function QueueDelivery(h: Hub, route: Route, now: Time): Hub {
    if Queued(h.routes, route) then h.(nextDelivery := h.nextDelivery + 1)
    else
      h.(deliveries := Step(h.deliveries, Append(h.nextDelivery, now)),
         routes := h.routes[h.nextDelivery := route],
         nextDelivery := h.nextDelivery + 1)
  }

  function FanOut(h: Hub, event: Id, order: seq<Id>, now: Time): Hub {
    if order == [] then h
    else
      QueueDelivery(FanOut(h, event, order[..|order| - 1], now), Route(event, order[|order| - 1]), now)
  }

  /** The relay's transaction. Refused, it leaves nothing but spent identifiers. */
  function PublishEvent(h: Hub, event: Id, token: Token, now: Time): Hub
    requires event in h.types
  {
    var audience := SubscriptionsFor(h.subscriptions, h.types[event]);
    var fanned := FanOut(h, event, audience, now);
    if event !in h.outbox.rows || IsFenced(h.outbox.rows[event].token, Some(token)) then
      h.(nextDelivery := fanned.nextDelivery)
    else
      fanned.(outbox := Step(h.outbox, Acknowledge(event, token, Finish(0))),
              published := h.published[event := ActiveFor(h.subscriptions, h.types[event])])
  }

  predicate SubscriptionTaken(subscriptions: map<Id, Subscription>, id: Id, subscriber: int, eventType: EventType) {
    exists s :: s in subscriptions && s != id
                && subscriptions[s].subscriber == subscriber && subscriptions[s].eventType == eventType
  }

  function Act(h: Hub, a: Action): Hub {
    match a
    case Emit(event, eventType, now) =>
      if event in h.outbox.rows then h
      else h.(outbox := Step(h.outbox, Append(event, now)), types := h.types[event := eventType])
    case WorkOutbox(c) =>
      if c.Append? || (c.Acknowledge? && c.ack.Finish?) then h else h.(outbox := Step(h.outbox, c))
    case Publish(event, token, now) => if event in h.types then PublishEvent(h, event, token, now) else h
    case WorkDeliveries(c) => if c.Append? then h else h.(deliveries := Step(h.deliveries, c))
    case Subscribe(id, subscriber, eventType) =>
      if SubscriptionTaken(h.subscriptions, id, subscriber, eventType) then h
      else h.(subscriptions := h.subscriptions[id := Subscription(subscriber, eventType, true)])
    case SetActive(id, active) =>
      if id !in h.subscriptions then h
      else h.(subscriptions := h.subscriptions[id := h.subscriptions[id].(active := active)])
  }

  function RunHub(h: Hub, log: seq<Action>): Hub {
    if log == [] then h else Act(RunHub(h, log[..|log| - 1]), log[|log| - 1])
  }

  // ----- what every reachable hub satisfies -----

  ghost predicate OneDeliveryPerRoute(routes: map<Id, Route>) {
    forall d1, d2 :: d1 in routes && d2 in routes && routes[d1] == routes[d2] ==> d1 == d2
  }

  predicate IsPublished(outbox: State, event: Id) {
    event in outbox.rows && outbox.rows[event].status == Finished
  }

  ghost predicate Whole(h: Hub) {
    && Consistent(h.outbox)
    && Consistent(h.deliveries)
    && h.types.Keys == h.outbox.rows.Keys
    && h.routes.Keys == h.deliveries.rows.Keys
    && (forall d :: d in h.routes ==> d < h.nextDelivery)
    && OneDeliveryPerRoute(h.routes)
    && (forall e :: e in h.published <==> IsPublished(h.outbox, e))
    && (forall d :: d in h.routes ==> h.routes[d].event in h.published)
    && (forall e, s :: e in h.published ==> (s in h.published[e] <==> Queued(h.routes, Route(e, s))))
  }

  // ----- what a step of a queue leaves alone -----

  /** No step drops a row. */
  lemma StepKeepsKeys(s: State, c: Command)
    ensures s.rows.Keys <= Step(s, c).rows.Keys
    ensures !c.Append? ==> Step(s, c).rows.Keys == s.rows.Keys
  {
  }

  /** Only a finishing acknowledgement changes which rows are finished. */
  lemma StepKeepsFinished(s: State, c: Command)
    requires Consistent(s)
    ensures !(c.Acknowledge? && c.ack.Finish?) ==> forall e :: IsPublished(Step(s, c), e) <==> IsPublished(s, e)
  {
    StepKeepsConsistent(s, c);
    var after := Step(s, c);
    forall e
      ensures !(c.Acknowledge? && c.ack.Finish?) ==> (IsPublished(after, e) <==> IsPublished(s, e))
    {
      assert InStep(s, e) && InStep(after, e);
      if !(c.Acknowledge? && c.ack.Finish?) {
        OnlyFinishingFinishes(s, c, e);
      }
    }
  }

  lemma {:induction false} MarksOfClaimBatch(s: State, batch: seq<Id>, now: Time, lease: int, id: Id)
    requires forall i :: i in batch ==> i in s.rows
    ensures Finishing(LastMark(ClaimBatch(s, batch, now, lease).history, id)) ==> Finishing(LastMark(s.history, id))
    ensures id !in batch ==> LastMark(ClaimBatch(s, batch, now, lease).history, id) == LastMark(s.history, id)
  {
    if batch != [] {
      var shorter, last := batch[..|batch| - 1], batch[|batch| - 1];
      MarksOfClaimBatch(s, shorter, now, lease, id);
      var mid := ClaimBatch(s, shorter, now, lease);
      LastMarkAppend(mid.history, Claimed(last, mid.nextToken, mid.rows[last].attempts), id);
    }
  }

  lemma {:induction false} MarksOfRecoverBatch(s: State, batch: seq<Id>, now: Time, maxReclaims: nat, id: Id)
    requires forall i :: i in batch ==> i in s.rows
    ensures Finishing(LastMark(RecoverBatch(s, batch, now, maxReclaims).history, id))
            ==> Finishing(LastMark(s.history, id))
    ensures id !in batch ==> LastMark(RecoverBatch(s, batch, now, maxReclaims).history, id) == LastMark(s.history, id)
  {
    if batch != [] {
      var shorter, last := batch[..|batch| - 1], batch[|batch| - 1];
      MarksOfRecoverBatch(s, shorter, now, maxReclaims, id);
      var mid := RecoverBatch(s, shorter, now, maxReclaims);
      LastMarkAppend(mid.history, RecoverOne(mid, last, now, maxReclaims).history[|mid.history|], id);
    }
  }

  lemma OnlyFinishingFinishes(s: State, c: Command, e: Id)
    requires Consistent(s) && !(c.Acknowledge? && c.ack.Finish?)
    ensures Finishing(LastMark(Step(s, c).history, e)) <==> Finishing(LastMark(s.history, e))
  {
    match c
    case Append(_, _) =>
    case Claim(now, count, lease) =>
      MarksOfClaimBatch(s, DueBatch(s.rows, now, count), now, lease, e);
      DueBatchIsDue(s.rows, now, count);
      assert InStep(s, e);
    case Recover(now, maxReclaims, limit) =>
      MarksOfRecoverBatch(s, AbandonedBatch(s.rows, now, limit), now, maxReclaims, e);
      AbandonedBatchIsAbandoned(s.rows, now, limit);
      assert InStep(s, e);
    case Acknowledge(id, token, ack) =>
      assert InStep(s, e);
      LastMarkAppend(s.history, Acknowledged(id, token, ack), e);
    case Revive(id, now) =>
      assert InStep(s, e);
      if id in s.rows {
        LastMarkAppend(s.history, Revived(id, s.rows[id].attempts), e);
      }
  }

  // ----- the fan-out -----

  /** What a hub and its fan-out share: nothing but the deliveries, their routes and the id source. */
  predicate SameButDeliveries(h: Hub, after: Hub) {
    after.outbox == h.outbox && after.types == h.types && after.subscriptions == h.subscriptions
    && after.published == h.published
  }

  ghost predicate RoutesWhole(h: Hub) {
    && h.routes.Keys == h.deliveries.rows.Keys
    && (forall d :: d in h.routes ==> d < h.nextDelivery)
    && OneDeliveryPerRoute(h.routes)
  }

  predicate NewlyRouted(h: Hub, d: Id, event: Id, order: seq<Id>, now: Time)
    requires d in h.routes
  {
    h.routes[d].event == event && h.routes[d].subscription in order
    && d in h.deliveries.rows && h.deliveries.rows[d] == NewRow(now)
  }

  ghost predicate FannedOut(h: Hub, after: Hub, event: Id, order: seq<Id>, now: Time) {
    && SameButDeliveries(h, after)
    && RoutesWhole(after)
    && (forall d :: d in h.routes ==> d in after.routes && after.routes[d] == h.routes[d])
    && (forall d :: d in after.routes && d !in h.routes ==> NewlyRouted(after, d, event, order, now))
    && (forall s :: s in order ==> Queued(after.routes, Route(event, s)))
  }

  lemma QueueingKeepsWhole(mid: Hub, route: Route, now: Time)
    requires RoutesWhole(mid)
    ensures RoutesWhole(QueueDelivery(mid, route, now)) && Queued(QueueDelivery(mid, route, now).routes, route)
  {
    var after := QueueDelivery(mid, route, now);
    if !Queued(mid.routes, route) {
      assert after.routes[mid.nextDelivery] == route;
    }
  }

  lemma QueueingKeepsQueued(mid: Hub, route: Route, now: Time, other: Route)
    requires RoutesWhole(mid) && Queued(mid.routes, other)
    ensures Queued(QueueDelivery(mid, route, now).routes, other)
  {
    var d :| d in mid.routes && mid.routes[d] == other;
    assert QueueDelivery(mid, route, now).routes[d] == other;
  }

  lemma QueueingRoutesItsOwn(h: Hub, mid: Hub, event: Id, shorter: seq<Id>, last: Id, now: Time, d: Id)
    requires FannedOut(h, mid, event, shorter, now)
    requires d in QueueDelivery(mid, Route(event, last), now).routes && d !in h.routes
    ensures NewlyRouted(QueueDelivery(mid, Route(event, last), now), d, event, shorter + [last], now)
  {
    assert mid.nextDelivery !in mid.routes && mid.nextDelivery !in mid.deliveries.rows;
    if d in mid.routes {
      assert NewlyRouted(mid, d, event, shorter, now);
    }
  }

  lemma QueueingExtends(h: Hub, mid: Hub, event: Id, shorter: seq<Id>, last: Id, now: Time)
    requires FannedOut(h, mid, event, shorter, now)
    ensures FannedOut(h, QueueDelivery(mid, Route(event, last), now), event, shorter + [last], now)
  {
    var after := QueueDelivery(mid, Route(event, last), now);
    QueueingKeepsWhole(mid, Route(event, last), now);
    forall s | s in shorter + [last]
      ensures Queued(after.routes, Route(event, s))
    {
      if s in shorter {
        QueueingKeepsQueued(mid, Route(event, last), now, Route(event, s));
      }
    }
    forall d | d in after.routes && d !in h.routes
      ensures NewlyRouted(after, d, event, shorter + [last], now)
    {
      QueueingRoutesItsOwn(h, mid, event, shorter, last, now, d);
    }
  }

  lemma {:induction false} FanOutQueuesEachOnce(h: Hub, event: Id, order: seq<Id>, now: Time)
    requires RoutesWhole(h)
    ensures FannedOut(h, FanOut(h, event, order, now), event, order, now)
  {
    if order != [] {
      var shorter, last := order[..|order| - 1], order[|order| - 1];
      FanOutQueuesEachOnce(h, event, shorter, now);
      var mid := FanOut(h, event, shorter, now);
      assert order == shorter + [last];
      QueueingExtends(h, mid, event, shorter, last, now);
    }
  }

  lemma {:induction false} FanOutKeepsConsistent(h: Hub, event: Id, order: seq<Id>, now: Time)
    requires Consistent(h.deliveries)
    ensures Consistent(FanOut(h, event, order, now).deliveries)
  {
    if order != [] {
      FanOutKeepsConsistent(h, event, order[..|order| - 1], now);
      var mid := FanOut(h, event, order[..|order| - 1], now);
      StepKeepsConsistent(mid.deliveries, Append(mid.nextDelivery, now));
    }
  }

  lemma ActKeepsRoutesWhole(h: Hub, a: Action)
    requires RoutesWhole(h)
    ensures RoutesWhole(Act(h, a))
  {
    match a
    case Publish(event, token, now) =>
      if event in h.types {
        FanOutQueuesEachOnce(h, event, SubscriptionsFor(h.subscriptions, h.types[event]), now);
        FanOutKeepsTheOldIds(h, event, SubscriptionsFor(h.subscriptions, h.types[event]), now);
      }
    case WorkDeliveries(c) =>
      StepKeepsKeys(h.deliveries, c);
    case _ =>
  }

  // ----- one publish -----

  /** The subscriptions a new delivery was queued for by this step. */
  ghost predicate DeliveredTo(before: Hub, after: Hub, event: Id, audience: set<Id>) {
    && (forall s :: s in audience <==> Queued(after.routes, Route(event, s)))
    && (forall d :: d in after.routes && d !in before.routes ==> after.routes[d].event == event)
    && (forall d :: d in before.routes ==> d in after.routes && after.routes[d] == before.routes[d])
  }

  predicate Holds(h: Hub, event: Id, token: Token) {
    event in h.outbox.rows && h.outbox.rows[event].token == Some(token)
  }

  /** A relay that no longer holds the event leaves no delivery, no mark and no published event. */
  lemma FencedPublishLeavesNothing(h: Hub, event: Id, token: Token, now: Time)
    requires Whole(h) && event in h.types && !Holds(h, event, token)
    ensures PublishEvent(h, event, token, now).(nextDelivery := h.nextDelivery) == h
  {
  }

  /** An event somebody holds was never published, so nothing was queued for it. */
  lemma HeldIsUnpublished(h: Hub, event: Id, token: Token)
    requires Whole(h) && Holds(h, event, token)
    ensures event !in h.published && event in h.types && forall d :: d in h.routes ==> h.routes[d].event != event
  {
    assert InStep(h.outbox, event);
    assert !IsPublished(h.outbox, event);
  }

  /** With nothing queued for the event before, the fan-out reaches exactly its audience. */
  lemma FanOutReachesItsAudience(h: Hub, event: Id, order: seq<Id>, now: Time, after: Hub, s: Id)
    requires FannedOut(h, after, event, order, now) && forall d :: d in h.routes ==> h.routes[d].event != event
    ensures s in order <==> Queued(after.routes, Route(event, s))
  {
    if Queued(after.routes, Route(event, s)) {
      var d :| d in after.routes && after.routes[d] == Route(event, s);
      assert d !in h.routes;
      assert NewlyRouted(after, d, event, order, now);
    }
  }

  lemma PublishReachesTheActive(h: Hub, event: Id, now: Time)
    requires RoutesWhole(h) && event in h.types && forall d :: d in h.routes ==> h.routes[d].event != event
    ensures var after := FanOut(h, event, SubscriptionsFor(h.subscriptions, h.types[event]), now);
            && DeliveredTo(h, after, event, ActiveFor(h.subscriptions, h.types[event]))
            && RoutesWhole(after) && SameButDeliveries(h, after)
  {
    var order := SubscriptionsFor(h.subscriptions, h.types[event]);
    var after := FanOut(h, event, order, now);
    FanOutQueuesEachOnce(h, event, order, now);
    forall s
      ensures s in ActiveFor(h.subscriptions, h.types[event]) <==> Queued(after.routes, Route(event, s))
    {
      FanOutReachesItsAudience(h, event, order, now, after, s);
    }
    forall d | d in after.routes && d !in h.routes
      ensures after.routes[d].event == event
    {
      assert NewlyRouted(after, d, event, order, now);
    }
  }

  /** Finishing one held row finishes that row and no other. */
  lemma FinishingFinishesOne(s: State, event: Id, token: Token)
    requires Consistent(s) && event in s.rows && s.rows[event].token == Some(token)
    ensures var after := Step(s, Acknowledge(event, token, Finish(0)));
            && Consistent(after) && after.rows.Keys == s.rows.Keys
            && IsPublished(after, event)
            && (forall e :: e != event ==> (IsPublished(after, e) <==> IsPublished(s, e)))
  {
    StepKeepsConsistent(s, Acknowledge(event, token, Finish(0)));
  }

  /** One that still holds it publishes the event for the first time, to exactly the active subscriptions. */
  lemma HeldPublishReachesTheActive(h: Hub, event: Id, token: Token, now: Time)
    requires Whole(h) && Holds(h, event, token)
    ensures var after := PublishEvent(h, event, token, now);
            && event !in h.published
            && (forall d :: d in h.routes ==> h.routes[d].event != event)
            && IsPublished(after.outbox, event)
            && after.published == h.published[event := ActiveFor(h.subscriptions, h.types[event])]
            && DeliveredTo(h, after, event, ActiveFor(h.subscriptions, h.types[event]))
            && RoutesWhole(after) && Consistent(after.deliveries) && Consistent(after.outbox)
            && after.types == h.types && after.outbox.rows.Keys == h.outbox.rows.Keys
            && (forall e :: e != event ==> (IsPublished(after.outbox, e) <==> IsPublished(h.outbox, e)))
  {
    HeldIsUnpublished(h, event, token);
    PublishReachesTheActive(h, event, now);
    FanOutKeepsConsistent(h, event, SubscriptionsFor(h.subscriptions, h.types[event]), now);
    FinishingFinishesOne(h.outbox, event, token);
  }

  lemma FanOutKeepsTheOldIds(h: Hub, event: Id, order: seq<Id>, now: Time)
    ensures h.nextDelivery <= FanOut(h, event, order, now).nextDelivery
  {
    if order != [] {
      FanOutKeepsTheOldIds(h, event, order[..|order| - 1], now);
    }
  }

  lemma PublishKeepsWhole(h: Hub, event: Id, token: Token, now: Time)
    requires Whole(h) && event in h.types
    ensures Whole(PublishEvent(h, event, token, now))
  {
    var after := PublishEvent(h, event, token, now);
    if Holds(h, event, token) {
      HeldPublishReachesTheActive(h, event, token, now);
      forall e, s | e in after.published
        ensures s in after.published[e] <==> Queued(after.routes, Route(e, s))
      {
        if e != event {
          assert Queued(after.routes, Route(e, s)) <==> Queued(h.routes, Route(e, s)) by {
            if Queued(h.routes, Route(e, s)) {
              var d :| d in h.routes && h.routes[d] == Route(e, s);
              assert after.routes[d] == Route(e, s);
            }
          }
        }
      }
    } else {
      FencedPublishLeavesNothing(h, event, token, now);
      FanOutKeepsTheOldIds(h, event, SubscriptionsFor(h.subscriptions, h.types[event]), now);
    }
  }

  // ----- every run -----

  lemma ActKeepsWhole(h: Hub, a: Action)
    requires Whole(h)
    ensures Whole(Act(h, a))
  {
    match a
    case Emit(event, eventType, now) =>
      StepKeepsConsistent(h.outbox, Append(event, now));
      StepKeepsFinished(h.outbox, Append(event, now));
    case WorkOutbox(c) =>
      StepKeepsConsistent(h.outbox, c);
      StepKeepsFinished(h.outbox, c);
      StepKeepsKeys(h.outbox, c);
    case Publish(event, token, now) =>
      if event in h.types {
        PublishKeepsWhole(h, event, token, now);
      }
    case WorkDeliveries(c) =>
      StepKeepsConsistent(h.deliveries, c);
      StepKeepsKeys(h.deliveries, c);
    case Subscribe(_, _, _) =>
    case SetActive(_, _) =>
  }

  lemma {:induction false} RunKeepsWhole(h: Hub, log: seq<Action>)
    requires Whole(h)
    ensures Whole(RunHub(h, log))
  {
    if log != [] {
      RunKeepsWhole(h, log[..|log| - 1]);
      ActKeepsWhole(RunHub(h, log[..|log| - 1]), log[|log| - 1]);
    }
  }

  lemma EmptyHubIsWhole()
    ensures Whole(EMPTY_HUB)
  {
    EveryRunIsConsistent([]);
    assert Run(EMPTY_STATE, []) == EMPTY_STATE;
  }

  lemma {:induction false} EveryHubIsWhole(log: seq<Action>)
    ensures Whole(RunHub(EMPTY_HUB, log))
  {
    if log == [] {
      EmptyHubIsWhole();
    } else {
      EveryHubIsWhole(log[..|log| - 1]);
      ActKeepsWhole(RunHub(EMPTY_HUB, log[..|log| - 1]), log[|log| - 1]);
    }
  }

  /**
   Relay atomicity over every run: a published event has exactly one delivery for each
   subscription active when its publish committed and none for any other, and every delivery
   belongs to a published event.
   */
  lemma RelayIsAtomic(log: seq<Action>)
    ensures var h := RunHub(EMPTY_HUB, log);
            && (forall e :: e in h.published <==> IsPublished(h.outbox, e))
            && (forall e, s :: e in h.published && s in h.published[e] ==>
                  exists d :: d in h.routes && h.routes[d] == Route(e, s)
                              && forall other :: other in h.routes && h.routes[other] == Route(e, s) ==> other == d)
            && (forall d :: d in h.routes ==> IsPublished(h.outbox, h.routes[d].event)
                                              && h.routes[d].subscription in h.published[h.routes[d].event])
            && h.deliveries.rows.Keys == h.routes.Keys
  {
    EveryHubIsWhole(log);
    WholeIsAtomic(RunHub(EMPTY_HUB, log));
  }

  lemma WholeIsAtomic(h: Hub)
    requires Whole(h)
    ensures forall e, s :: e in h.published && s in h.published[e] ==>
              exists d :: d in h.routes && h.routes[d] == Route(e, s)
                          && forall other :: other in h.routes && h.routes[other] == Route(e, s) ==> other == d
    ensures forall d :: d in h.routes ==>
              h.routes[d].event in h.published && h.routes[d].subscription in h.published[h.routes[d].event]
  {
    forall e, s | e in h.published && s in h.published[e]
      ensures exists d :: d in h.routes && h.routes[d] == Route(e, s)
                          && forall other :: other in h.routes && h.routes[other] == Route(e, s) ==> other == d
    {
      assert Queued(h.routes, Route(e, s));
      var d :| d in h.routes && h.routes[d] == Route(e, s);
    }
    forall d | d in h.routes
      ensures h.routes[d].event in h.published && h.routes[d].subscription in h.published[h.routes[d].event]
    {
      assert Queued(h.routes, Route(h.routes[d].event, h.routes[d].subscription));
    }
  }

  lemma OnlyPublishPublishes(h: Hub, a: Action)
    requires !a.Publish?
    ensures Act(h, a).published == h.published
  {
  }

  lemma PublishPublishesOne(h: Hub, event: Id, token: Token, now: Time)
    requires Whole(h) && event in h.types
    ensures PublishEvent(h, event, token, now).published
         ==
             if Holds(h, event, token) then h.published[event := ActiveFor(h.subscriptions, h.types[event])]
             else h.published
    ensures Holds(h, event, token) ==> event !in h.published
  {
    if Holds(h, event, token) {
      HeldPublishReachesTheActive(h, event, token, now);
    } else {
      FencedPublishLeavesNothing(h, event, token, now);
    }
  }

  /** The audience recorded is the one of the committing transaction, and nothing rewrites it. */
  lemma AudienceIsFixedAtCommit(log: seq<Action>, a: Action, event: Id)
    ensures var h := RunHub(EMPTY_HUB, log);
            var after := RunHub(EMPTY_HUB, log + [a]);
            && (event in h.published ==> event in after.published && after.published[event] == h.published[event])
            && (event !in h.published && event in after.published ==>
                  a.Publish? && a.event == event && Holds(h, event, a.token)
                  && event in h.types
                  && forall s: Id :: s in after.published[event]
                       <==> s in h.subscriptions && h.subscriptions[s].active
                            && h.subscriptions[s].eventType == h.types[event])
  {
    EveryHubIsWhole(log);
    assert (log + [a])[..|log|] == log;
    var h := RunHub(EMPTY_HUB, log);
    if !a.Publish? {
      OnlyPublishPublishes(h, a);
    } else if a.event in h.types {
      PublishPublishesOne(h, a.event, a.token, a.now);
    }
  }

  /** No event is marked published twice, revivals included. */
  lemma PublishedOnce(log: seq<Action>, p: nat, q: nat)
    requires var history := RunHub(EMPTY_HUB, log).outbox.history;
             p < q < |history| && Finishing(Some(history[p])) && Finishing(Some(history[q]))
    ensures RunHub(EMPTY_HUB, log).outbox.history[p].id != RunHub(EMPTY_HUB, log).outbox.history[q].id
  {
    EveryHubIsWhole(log);
    FinishIsAbsorbing(RunHub(EMPTY_HUB, log).outbox, p, q);
  }
}
