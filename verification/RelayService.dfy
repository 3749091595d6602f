/**
 The delivery store, the fan-out and the two workers that drain the outbox and the deliveries,
 as loops over objects. Whatever other processes do while an event is on the bus or a request is
 on the wire is an argument, so every drain is proved to be one run of `Relay`, interference
 included.
 */
module RelayService {
  import opened Backoff
  import opened Common
  import opened Queue
  import opened QueueRuns
  import opened QueueStore
  import opened QueueBudgets
  import opened Relay

  const LEASE_MS := 30000

  /** What happens around one item: the steps of others meanwhile, then how the attempt itself ended. */
  datatype Sending = Sending(meanwhile: seq<Action>, failure: Option<string>)

  datatype Settings = Settings(policy: Policy, baseBackoff: int)

  // ----- the relay's drain, as a list of steps -----

  /** The attempts read at the claim decide between retry and dead-letter. */
  function FailureAck(attempts: nat, error: string, now: Time, settings: Settings): Ack {
    if attempts + 1 >= settings.policy.maxAttempts then Bury(error)
    else RetryAt(now + settings.baseBackoff * PowerOfTwo(attempts), error)
  }

  function PublishStep(id: Id, token: Token, attempts: nat, failure: Option<string>, now: Time,
      settings: Settings): Action
  {
    if failure.None? then Publish(id, token, now)
    else WorkOutbox(Acknowledge(id, token, FailureAck(attempts, failure.value, now, settings)))
  }

  /** The steps taken for the claimed events, in order, each after whatever happened meanwhile. */
  function PublishSteps(rows: Rows, batch: seq<Id>, token: Token, world: Id -> Sending, now: Time,
      settings: Settings): seq<Action>
    requires forall i :: i in batch ==> i in rows
  {
    if batch == [] then []
    else
      var id := batch[|batch| - 1];
      PublishSteps(rows, batch[..|batch| - 1], token, world, now, settings)
      + world(id).meanwhile + [PublishStep(id, token, rows[id].attempts, world(id).failure, now, settings)]
  }

  function Opening(now: Time, limit: int, settings: Settings): seq<Action> {
    [WorkOutbox(Recover(now, settings.policy.maxReclaims, limit)),
     WorkOutbox(Claim(now, if limit < 1 then 1 else limit, LEASE_MS))]
  }

  function RecoveredHub(h: Hub, now: Time, limit: int, settings: Settings): Hub {
    Act(h, Opening(now, limit, settings)[0])
  }

  /** What the drain claims: the due events of the table as recovery left it. */
  function ClaimedBatch(h: Hub, now: Time, limit: int, settings: Settings): (batch: seq<Id>)
    ensures forall i :: i in batch ==> i in RecoveredHub(h, now, limit, settings).outbox.rows
  {
    DueBatch(RecoveredHub(h, now, limit, settings).outbox.rows, now, if limit < 1 then 1 else limit)
  }

  function DrainSteps(h: Hub, now: Time, limit: int, world: Id -> Sending, settings: Settings): seq<Action> {
    var mid := RecoveredHub(h, now, limit, settings).outbox;
    Opening(now, limit, settings)
    + PublishSteps(mid.rows, ClaimedBatch(h, now, limit, settings), mid.nextToken, world, now, settings)
  }

  lemma {:induction false} RunHubConcat(h: Hub, left: seq<Action>, right: seq<Action>)
    ensures RunHub(h, left + right) == RunHub(RunHub(h, left), right)
  {
    if right == [] {
      assert left + right == left;
    } else {
      assert (left + right)[..|left + right| - 1] == left + right[..|right| - 1];
      RunHubConcat(h, left, right[..|right| - 1]);
    }
  }

  lemma RunHubOne(h: Hub, a: Action)
    ensures RunHub(h, [a]) == Act(h, a)
  {
    assert [a][..0] == [];
  }

  lemma OpeningRuns(h: Hub, now: Time, limit: int, settings: Settings)
    ensures RunHub(h, Opening(now, limit, settings))
         == Act(RecoveredHub(h, now, limit, settings), Opening(now, limit, settings)[1])
  {
    var o := Opening(now, limit, settings);
    assert o == [o[0]] + [o[1]];
    RunHubConcat(h, [o[0]], [o[1]]);
    RunHubOne(h, o[0]);
    RunHubOne(Act(h, o[0]), o[1]);
  }

  datatype PublisherResult = PublisherResult(
    published: nat, failed: nat, dead: nat, reclaimed: nat, reclaimExhausted: nat, fenced: nat)

  /** What one item adds to the counters, given the hub at the moment its attempt ended. */
  function CountItem(counts: PublisherResult, here: Hub, id: Id, token: Token, attempts: nat, failure: Option<string>,
      settings: Settings): PublisherResult
  {
    if failure.Some? then
      if attempts + 1 >= settings.policy.maxAttempts then counts.(dead := counts.dead + 1)
      else counts.(failed := counts.failed + 1)
    else if Holds(here, id, token) then counts.(published := counts.published + 1)
    else counts.(fenced := counts.fenced + 1)
  }

  /** What the counters must say about the items, read off the run itself. */
  function ItemCounts(opening: PublisherResult, h: Hub, rows: Rows, batch: seq<Id>, token: Token,
      world: Id -> Sending, now: Time, settings: Settings): PublisherResult
    requires forall i :: i in batch ==> i in rows
  {
    if batch == [] then opening
    else
      var shorter, id := batch[..|batch| - 1], batch[|batch| - 1];
      var earlier := ItemCounts(opening, h, rows, shorter, token, world, now, settings);
      var here := RunHub(h, PublishSteps(rows, shorter, token, world, now, settings) + world(id).meanwhile);
      CountItem(earlier, here, id, token, rows[id].attempts, world(id).failure, settings)
  }

  function OpeningCounts(h: Hub, now: Time, limit: int, settings: Settings): PublisherResult {
    var gone := AbandonedBatch(h.outbox.rows, now, limit);
    var dead := GivenUp(h.outbox.rows, gone, settings.policy.maxReclaims);
    PublisherResult(0, 0, 0, if dead <= |gone| then |gone| - dead else 0, dead, 0)
  }

  function DrainCounts(h: Hub, now: Time, limit: int, world: Id -> Sending, settings: Settings): PublisherResult {
    var recovered := RecoveredHub(h, now, limit, settings);
    var claimed := Act(recovered, Opening(now, limit, settings)[1]);
    ItemCounts(OpeningCounts(h, now, limit, settings), claimed, recovered.outbox.rows,
               ClaimedBatch(h, now, limit, settings),
               recovered.outbox.nextToken, world, now, settings)
  }

  /** The drain is its opening followed by its items, and the claimed copies carry the table's counts. */
  lemma DrainSplits(h: Hub, now: Time, limit: int, world: Id -> Sending, settings: Settings)
    ensures var mid := RecoveredHub(h, now, limit, settings);
            var claimed := Act(mid, Opening(now, limit, settings)[1]);
            && RunHub(h, DrainSteps(h, now, limit, world, settings))
               == RunHub(claimed, PublishSteps(mid.outbox.rows, ClaimedBatch(h, now, limit, settings),
                                               mid.outbox.nextToken, world, now, settings))
            && mid.outbox.rows.Keys <= claimed.outbox.rows.Keys
            && (forall i :: i in mid.outbox.rows ==> claimed.outbox.rows[i].attempts == mid.outbox.rows[i].attempts)
  {
    var mid := RecoveredHub(h, now, limit, settings);
    OpeningRuns(h, now, limit, settings);
    ClaimsKeepAttempts(mid.outbox, now, if limit < 1 then 1 else limit, LEASE_MS);
    RunHubConcat(h, Opening(now, limit, settings),
                 PublishSteps(mid.outbox.rows, ClaimedBatch(h, now, limit, settings), mid.outbox.nextToken, world,
                              now, settings));
  }

  /** What one more item adds to the steps and to the counters. */
  lemma OneMoreItem(opening: PublisherResult, h: Hub, here: Hub, rows: Rows, batch: seq<Id>, n: nat, token: Token,
                    world: Id -> Sending, now: Time, settings: Settings)
    requires n < |batch| && forall i :: i in batch ==> i in rows
    requires here == RunHub(h, PublishSteps(rows, batch[..n], token, world, now, settings))
    ensures var id := batch[n];
            var ended := RunHub(here, world(id).meanwhile);
            && RunHub(h, PublishSteps(rows, batch[..n + 1], token, world, now, settings))
               == Act(ended, PublishStep(id, token, rows[id].attempts, world(id).failure, now, settings))
            && ItemCounts(opening, h, rows, batch[..n + 1], token, world, now, settings)
               == CountItem(ItemCounts(opening, h, rows, batch[..n], token, world, now, settings),
                            ended, id, token, rows[id].attempts, world(id).failure, settings)
            && h.types.Keys <= RunHub(h, PublishSteps(rows, batch[..n + 1], token, world, now, settings)).types.Keys
  {
    var id := batch[n];
    var longer := batch[..n + 1];
    assert longer[..n] == batch[..n] && longer[|longer| - 1] == id && |longer| - 1 == n;
    var steps := PublishSteps(rows, batch[..n], token, world, now, settings);
    var last := PublishStep(id, token, rows[id].attempts, world(id).failure, now, settings);
    RunHubConcat(h, steps, world(id).meanwhile);
    RunHubConcat(h, steps + world(id).meanwhile, [last]);
    RunHubOne(RunHub(here, world(id).meanwhile), last);
    RunHubKeepsTypes(h, PublishSteps(rows, longer, token, world, now, settings));
  }

  lemma {:induction false} RunHubKeepsRoutesWhole(h: Hub, log: seq<Action>)
    requires RoutesWhole(h)
    ensures RoutesWhole(RunHub(h, log))
  {
    if log != [] {
      RunHubKeepsRoutesWhole(h, log[..|log| - 1]);
      ActKeepsRoutesWhole(RunHub(h, log[..|log| - 1]), log[|log| - 1]);
    }
  }

  lemma ActKeepsTypes(h: Hub, a: Action)
    ensures h.types.Keys <= Act(h, a).types.Keys
  {
    if a.Publish? && a.event in h.types {
      FanOutKeepsTypes(h, a.event, SubscriptionsFor(h.subscriptions, h.types[a.event]), a.now);
    }
  }

  lemma {:induction false} FanOutKeepsTypes(h: Hub, event: Id, order: seq<Id>, now: Time)
    ensures FanOut(h, event, order, now).types == h.types
  {
    if order != [] {
      FanOutKeepsTypes(h, event, order[..|order| - 1], now);
    }
  }

  lemma {:induction false} RunHubKeepsTypes(h: Hub, log: seq<Action>)
    ensures h.types.Keys <= RunHub(h, log).types.Keys
  {
    if log != [] {
      RunHubKeepsTypes(h, log[..|log| - 1]);
      ActKeepsTypes(RunHub(h, log[..|log| - 1]), log[|log| - 1]);
    }
  }

  /** A claim leaves `attempts` alone, so the copy the worker is handed is the row's own count. */
  lemma ClaimsKeepAttempts(s: State, now: Time, count: int, lease: int)
    ensures forall i :: i in s.rows ==> Step(s, Claim(now, count, lease)).rows[i].attempts == s.rows[i].attempts
  {
    ClaimBatchKeepsAttempts(s, DueBatch(s.rows, now, count), now, lease);
  }

  lemma {:induction false} ClaimBatchKeepsAttempts(s: State, batch: seq<Id>, now: Time, lease: int)
    requires forall i :: i in batch ==> i in s.rows
    ensures forall i :: i in s.rows ==> ClaimBatch(s, batch, now, lease).rows[i].attempts == s.rows[i].attempts
  {
    if batch != [] {
      ClaimBatchKeepsAttempts(s, batch[..|batch| - 1], now, lease);
    }
  }

  // ----- objects -----

  class InMemoryDeliveryStore {
    const queue: LeasedQueue
    var routes: map<Id, Route>
    var subscriptions: map<Id, Subscription>

    constructor ()
      ensures routes == map[] && subscriptions == map[] && fresh(queue) && queue.State() == EMPTY_STATE
    {
      queue := new LeasedQueue();
      routes, subscriptions := map[], map[];
    }

    /** The scan for another subscription of the same subscriber and type. */
    method Taken(id: Id, subscriber: int, eventType: EventType) returns (taken: bool)
      ensures taken <==> SubscriptionTaken(subscriptions, id, subscriber, eventType)
    {
      var rest := subscriptions.Keys;
      while rest != {}
        invariant rest <= subscriptions.Keys
        invariant forall s :: s in subscriptions && s !in rest && s != id ==>
                    subscriptions[s].subscriber != subscriber || subscriptions[s].eventType != eventType
        decreases rest
      {
        var s :| s in rest;
        rest := rest - {s};
        if s != id && subscriptions[s].subscriber == subscriber && subscriptions[s].eventType == eventType {
          return true;
        }
      }
      taken := false;
    }

    method InsertSubscription(id: Id, subscriber: int, eventType: EventType) returns (inserted: bool)
      modifies this`subscriptions
      ensures inserted <==> !SubscriptionTaken(old(subscriptions), id, subscriber, eventType)
      ensures subscriptions == if inserted then old(subscriptions)[id := Subscription(subscriber, eventType, true)]
                               else old(subscriptions)
    {
      var taken := Taken(id, subscriber, eventType);
      inserted := !taken;
      if inserted {
        subscriptions := subscriptions[id := Subscription(subscriber, eventType, true)];
      }
    }

    method SetSubscriptionActive(id: Id, active: bool)
      modifies this`subscriptions
      ensures subscriptions ==
              if id in old(subscriptions) then old(subscriptions)[id := old(subscriptions)[id].(active := active)]
                               else old(subscriptions)
    {
      if id in subscriptions {
        subscriptions := subscriptions[id := subscriptions[id].(active := active)];
      }
    }

    /** The scan for the same (event, subscription), then the insert. */
    method Queue(id: Id, route: Route, now: Time) returns (queued: bool)
      requires id !in queue.rows
      modifies this`routes, queue
      ensures queued <==> !Queued(old(routes), route)
      ensures routes == if queued then old(routes)[id := route] else old(routes)
      ensures queue.State() == if queued then Step(old(queue.State()), Append(id, now)) else old(queue.State())
    {
      var rest := routes.Keys;
      while rest != {}
        invariant rest <= routes.Keys
        invariant forall d :: d in routes && d !in rest ==> routes[d] != route
        decreases rest
      {
        var d :| d in rest;
        rest := rest - {d};
        if routes[d] == route {
          return false;
        }
      }
      queue.Insert(id, now);
      routes := routes[id := route];
      queued := true;
    }

    /** Undo of one insert, as the transaction journal replays it. */
    method Withdraw(id: Id)
      modifies this`routes, queue`rows
      ensures routes == old(routes) - {id} && queue.rows == old(queue.rows) - {id}
    {
      routes := routes - {id};
      queue.rows := queue.rows - {id};
    }
  }

  ghost predicate OnlyAdded(h: Hub, after: Hub) {
    && h.routes.Keys <= after.routes.Keys && h.deliveries.rows.Keys <= after.deliveries.rows.Keys
    && (forall d :: d in h.routes ==> after.routes[d] == h.routes[d])
    && (forall d :: d in h.deliveries.rows ==> after.deliveries.rows[d] == h.deliveries.rows[d])
    && after.deliveries.history == h.deliveries.history && after.deliveries.nextToken == h.deliveries.nextToken
  }

  lemma QueueingOnlyAdds(h: Hub, mid: Hub, route: Route, now: Time)
    requires OnlyAdded(h, mid) && RoutesWhole(mid)
    ensures OnlyAdded(h, QueueDelivery(mid, route, now))
  {
    assert mid.nextDelivery !in mid.routes && mid.nextDelivery !in mid.deliveries.rows;
  }

  /** Fan-out adds rows of its own and touches nothing that was there. */
  lemma {:induction false} FanOutOnlyAdds(h: Hub, event: Id, order: seq<Id>, now: Time)
    requires RoutesWhole(h)
    ensures OnlyAdded(h, FanOut(h, event, order, now)) && RoutesWhole(FanOut(h, event, order, now))
  {
    if order != [] {
      var shorter := order[..|order| - 1];
      FanOutOnlyAdds(h, event, shorter, now);
      QueueingOnlyAdds(h, FanOut(h, event, shorter, now), Route(event, order[|order| - 1]), now);
      QueueingKeepsWhole(FanOut(h, event, shorter, now), Route(event, order[|order| - 1]), now);
    }
  }

  /** Taking out exactly what the fan-out put in gives back what was there. */
  lemma UndoneFanOut(h: Hub, event: Id, order: seq<Id>, now: Time, added: set<Id>)
    requires RoutesWhole(h)
    requires forall d :: d in added <==> d in FanOut(h, event, order, now).routes && d !in h.routes
    ensures var fanned := FanOut(h, event, order, now);
            && fanned.routes - added == h.routes
            && fanned.deliveries.(rows := fanned.deliveries.rows - added) == h.deliveries
            && SameButDeliveries(h, fanned)
  {
    FanOutOnlyAdds(h, event, order, now);
    FanOutQueuesEachOnce(h, event, order, now);
  }

  class Eventing {
    const outbox: LeasedQueue
    const store: InMemoryDeliveryStore
    var types: map<Id, EventType>
    var nextDelivery: Id
    ghost var published: map<Id, set<Id>>

    constructor ()
      ensures Valid() && Hub() == EMPTY_HUB
    {
      outbox := new LeasedQueue();
      store := new InMemoryDeliveryStore();
      types, nextDelivery, published := map[], 0, map[];
    }

    ghost predicate Valid()
      reads this, store
    {
      outbox != store.queue
    }

    ghost function Hub(): Hub
      reads this, outbox, store, store.queue
    {
      Relay.Hub(outbox.State(), types, store.queue.State(), store.routes, store.subscriptions, nextDelivery, published)
    }

    method NewId() returns (id: Id)
      modifies this`nextDelivery
      ensures id == old(nextDelivery) && nextDelivery == old(nextDelivery) + 1
    {
      id := nextDelivery;
      nextDelivery := nextDelivery + 1;
    }

    method Emit(event: Id, eventType: EventType, now: Time)
      requires Valid()
      modifies this`types, outbox
      ensures Valid() && Hub() == Act(old(Hub()), Action.Emit(event, eventType, now))
    {
      if event !in outbox.rows {
        types := types[event := eventType];
        outbox.Insert(event, now);
      }
    }

    /** `DeliveryFanOut.queueFor`; the journal lists the rows a rollback has to take out again. */
    method QueueFor(event: Id, order: seq<Id>, now: Time) returns (journal: seq<Id>)
      requires Valid() && RoutesWhole(Hub())
      modifies this`nextDelivery, store`routes, store.queue
      ensures Valid() && Hub() == FanOut(old(Hub()), event, order, now)
      ensures forall d :: d in journal <==> d in store.routes && d !in old(store.routes)
    {
      journal := [];
      ghost var h := Hub();
      for n := 0 to |order|
        invariant Valid() && Hub() == FanOut(h, event, order[..n], now)
        invariant RoutesWhole(Hub())
        invariant forall d :: d in journal <==> d in store.routes && d !in h.routes
        invariant h.routes.Keys <= store.routes.Keys
      {
        assert order[..n + 1][..n] == order[..n];
        ghost var before := Hub();
        QueueingKeepsWhole(before, Route(event, order[n]), now);
        assert nextDelivery !in store.routes && nextDelivery !in store.queue.rows;
        var id := NewId();
        var queued := store.Queue(id, Route(event, order[n]), now);
        if queued {
          journal := journal + [id];
        }
        assert Hub() == QueueDelivery(before, Route(event, order[n]), now);
      }
      assert order[..|order|] == order;
    }

    method Rollback(journal: seq<Id>)
      requires Valid()
      modifies store`routes, store.queue`rows
      ensures Valid() && store.routes == old(store.routes) - (set d | d in journal)
      ensures store.queue.rows == old(store.queue.rows) - (set d | d in journal)
    {
      var n := |journal|;
      while n > 0
        invariant 0 <= n <= |journal| && Valid()
        invariant store.routes == old(store.routes) - (set d | d in journal[n..])
        invariant store.queue.rows == old(store.queue.rows) - (set d | d in journal[n..])
      {
        n := n - 1;
        assert journal[n..] == [journal[n]] + journal[n + 1..];
        store.Withdraw(journal[n]);
      }
      assert journal[0..] == journal;
    }

    /** The relay's transaction: fan out, mark published, and undo everything when the mark is refused. */
    method PublishWithin(event: Id, token: Token, now: Time) returns (applied: bool)
      requires Valid() && RoutesWhole(Hub()) && event in types
      modifies this`nextDelivery, this`published, outbox, store`routes, store.queue
      ensures Valid() && Hub() == PublishEvent(old(Hub()), event, token, now)
      ensures applied <==> Holds(old(Hub()), event, token)
    {
      var order := SubscriptionsFor(store.subscriptions, types[event]);
      FanOutOnlyAdds(Hub(), event, order, now);
      FanOutQueuesEachOnce(Hub(), event, order, now);
      ghost var h := Hub();
      var journal := QueueFor(event, order, now);
      applied := MarkOrUndo(event, token, now, order, journal, h);
    }

    /** The mark, and what follows from its being refused. */
    method MarkOrUndo(event: Id, token: Token, now: Time, order: seq<Id>, journal: seq<Id>, ghost h: Hub)
      returns (applied: bool)
      requires Valid() && RoutesWhole(h) && event in h.types
               && order == SubscriptionsFor(h.subscriptions, h.types[event])
      requires Hub() == FanOut(h, event, order, now) && SameButDeliveries(h, Hub())
      requires forall d :: d in journal <==> d in store.routes && d !in h.routes
      modifies this`published, outbox, store`routes, store.queue`rows
      ensures Valid() && Hub() == PublishEvent(h, event, token, now)
      ensures applied <==> Holds(h, event, token)
    {
      applied := outbox.Settle(event, token, Finish(0));
      if applied {
        published := published[event := ActiveFor(store.subscriptions, types[event])];
      } else {
        UndoneFanOut(h, event, order, now, set d | d in journal);
        Rollback(journal);
      }
    }

    // ----- what other processes do -----

    method Work(queue: LeasedQueue, c: Command)
      requires !c.Append?
      modifies queue
      ensures queue.State() == Step(old(queue.State()), c)
    {
      match c
      case Claim(now, count, lease) => var leases := queue.ClaimDueBySlice(now, if count < 0 then 0 else count, lease);
      case Recover(now, maxReclaims, limit) => var outcome := queue.ReclaimExpired(now, maxReclaims, limit);
      case Acknowledge(id, token, ack) => var applied := queue.Settle(id, token, ack);
      case Revive(id, now) => var revived := queue.Revive(id, now);
    }

    method Perform(a: Action)
      requires Valid() && RoutesWhole(Hub())
      modifies this, outbox, store, store.queue
      ensures Valid() && Hub() == Act(old(Hub()), a)
    {
      match a
      case Emit(event, eventType, now) => Emit(event, eventType, now);
      case WorkOutbox(c) =>
        if !c.Append? && !(c.Acknowledge? && c.ack.Finish?) {
          Work(outbox, c);
        }
      case Publish(event, token, now) =>
        if event in types {
          var applied := PublishWithin(event, token, now);
        }
      case WorkDeliveries(c) =>
        if !c.Append? {
          Work(store.queue, c);
        }
      case Subscribe(id, subscriber, eventType) =>
        var inserted := store.InsertSubscription(id, subscriber, eventType);
      case SetActive(id, active) =>
        store.SetSubscriptionActive(id, active);
    }

    method PerformAll(log: seq<Action>)
      requires Valid() && RoutesWhole(Hub())
      modifies this, outbox, store, store.queue
      ensures Valid() && RoutesWhole(Hub()) && Hub() == RunHub(old(Hub()), log)
    {
      ghost var h := Hub();
      for n := 0 to |log|
        invariant Valid() && RoutesWhole(Hub()) && Hub() == RunHub(h, log[..n])
      {
        assert log[..n + 1][..n] == log[..n];
        ActKeepsRoutesWhole(Hub(), log[n]);
        Perform(log[n]);
      }
      assert log[..|log|] == log;
    }

    // ----- the relay -----

    /** One claimed event: the attempt, and the acknowledgement its ending calls for. */
    method RelayOne(lease: Lease, token: Token, sending: Sending, now: Time, settings: Settings,
        counts: PublisherResult)
      returns (result: PublisherResult)
      requires Valid() && RoutesWhole(Hub()) && lease.id in types
      modifies this, outbox, store, store.queue
      ensures Valid() && RoutesWhole(Hub())
      ensures Hub() == Act(RunHub(old(Hub()), sending.meanwhile),
                           PublishStep(lease.id, token, lease.row.attempts, sending.failure, now, settings))
      ensures result
              == CountItem(counts, RunHub(old(Hub()), sending.meanwhile), lease.id, token, lease.row.attempts,
                           sending.failure, settings)
    {
      result := counts;
      RunHubKeepsRoutesWhole(Hub(), sending.meanwhile);
      RunHubKeepsTypes(Hub(), sending.meanwhile);
      PerformAll(sending.meanwhile);
      ghost var h := Hub();
      ActKeepsRoutesWhole(h, PublishStep(lease.id, token, lease.row.attempts, sending.failure, now, settings));
      match sending.failure
      case None =>
        var applied := PublishWithin(lease.id, token, now);
        result := if applied then result.(published := result.published + 1) else result.(fenced := result.fenced + 1);
      case Some(message) =>
        if lease.row.attempts + 1 >= settings.policy.maxAttempts {
          var applied := outbox.Settle(lease.id, token, Bury(message));
          result := result.(dead := result.dead + 1);
        } else {
          var delay := settings.baseBackoff * PowerOfTwo(lease.row.attempts);
          var applied := outbox.Settle(lease.id, token, RetryAt(now + delay, message));
          result := result.(failed := result.failed + 1);
        }
    }

    /** The loop over what was claimed. */
    method RelayBatch(due: seq<Lease>, token: Token, world: Id -> Sending, now: Time, settings: Settings,
                      opening: PublisherResult, ghost rows: Rows, ghost batch: seq<Id>)
      returns (result: PublisherResult)
      requires Valid() && RoutesWhole(Hub())
      requires |due| == |batch| && forall i :: i in batch ==> i in rows && i in types
      requires forall n :: 0 <= n < |due| ==> due[n].id == batch[n] && due[n].row.attempts == rows[batch[n]].attempts
      modifies this, outbox, store, store.queue
      ensures Valid() && RoutesWhole(Hub())
      ensures Hub() == RunHub(old(Hub()), PublishSteps(rows, batch, token, world, now, settings))
      ensures result == ItemCounts(opening, old(Hub()), rows, batch, token, world, now, settings)
    {
      ghost var h := Hub();
      result := opening;
      for n := 0 to |due|
        invariant Valid() && RoutesWhole(Hub()) && h.types.Keys <= types.Keys
        invariant Hub() == RunHub(h, PublishSteps(rows, batch[..n], token, world, now, settings))
        invariant result == ItemCounts(opening, h, rows, batch[..n], token, world, now, settings)
      {
        ghost var here := Hub();
        OneMoreItem(opening, h, here, rows, batch, n, token, world, now, settings);
        assert batch[n] in batch;
        result := RelayOne(due[n], token, world(due[n].id), now, settings, result);
      }
      assert batch[..|due|] == batch;
    }

    /** Recovery first, then the claim. */
    method RecoverAndClaim(now: Time, limit: int, settings: Settings)
      returns (due: seq<Lease>, token: Token, opening: PublisherResult)
      requires Valid()
      modifies outbox
      ensures Valid()
              && RecoveredHub(old(Hub()), now, limit, settings)
                  == old(Hub()).(outbox := RecoveredHub(old(Hub()), now, limit, settings).outbox)
      ensures Hub() == Act(RecoveredHub(old(Hub()), now, limit, settings), Opening(now, limit, settings)[1])
      ensures token == RecoveredHub(old(Hub()), now, limit, settings).outbox.nextToken
      ensures opening == OpeningCounts(old(Hub()), now, limit, settings)
      ensures HandsOut(outbox.rows, due, ClaimedBatch(old(Hub()), now, limit, settings))
    {
      var reclaim := outbox.ReclaimExpired(now, settings.policy.maxReclaims, limit);
      opening := PublisherResult(0, 0, 0, reclaim.reclaimed, reclaim.dead, 0);
      assert Hub() == RecoveredHub(old(Hub()), now, limit, settings);
      token := outbox.nextToken;
      ScannedIsSorted(outbox.rows, now, limit);
      due := outbox.ClaimDueByScan(now, limit, LEASE_MS);
    }

    /** `OutboxPublisher.drainOnce`: recover, claim, then relay what was claimed in due order. */
    method DrainOutbox(now: Time, limit: int, world: Id -> Sending, settings: Settings)
      returns (result: PublisherResult)
      requires Valid() && RoutesWhole(Hub()) && outbox.rows.Keys <= types.Keys
      modifies this, outbox, store, store.queue
      ensures Valid() && RoutesWhole(Hub())
      ensures Hub() == RunHub(old(Hub()), DrainSteps(old(Hub()), now, limit, world, settings))
      ensures result == DrainCounts(old(Hub()), now, limit, world, settings)
    {
      ghost var h := Hub();
      ghost var recovered := RecoveredHub(h, now, limit, settings);
      ghost var batch := ClaimedBatch(h, now, limit, settings);
      StepKeepsKeys(h.outbox, Recover(now, settings.policy.maxReclaims, limit));
      DrainSplits(h, now, limit, world, settings);
      var due, token, opening := RecoverAndClaim(now, limit, settings);
      result := RelayBatch(due, token, world, now, settings, opening, recovered.outbox.rows, batch);
    }
  }
}
