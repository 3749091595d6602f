/**
 The worker that drains the deliveries. What it acknowledges is decided from the subscription
 and the event as they are at the moment of sending, not as they were when the row was queued.
 */
module DeliveryWorker {
  import opened Backoff
  import opened Common
  import opened Queue
  import opened QueueRuns
  import opened QueueStore
  import opened Relay
  import opened RelayService

  datatype Answer = Answer(status: Option<int>, error: string)

  /** What others do before the subscription is read, what they do while the request is out, and its answer. */
  datatype Attempt = Attempt(before: seq<Action>, during: seq<Action>, answer: Answer)

  predicate IsSuccess(status: Option<int>) {
    status.Some? && 200 <= status.value < 300
  }

  predicate IsRetryable(status: Option<int>) {
    status.None? || status.value == 408 || status.value == 429 || !(400 <= status.value < 500)
  }

  /** Decided at the moment of sending, from the subscription and the event as they are then. */
  function DeliveryAck(h: Hub, id: Id, attempts: nat, answer: Answer, now: Time, settings: Settings): Ack
    requires id in h.routes
  {
    var route := h.routes[id];
    if route.subscription in h.subscriptions && !h.subscriptions[route.subscription].active then
      Suppress("subscription is not active")
    else if route.subscription !in h.subscriptions then Bury("subscription no longer exists")
    else if route.event !in h.outbox.rows then Bury("event no longer in the outbox")
    else if IsSuccess(answer.status) then Finish(1)
    else if !IsRetryable(answer.status) then Bury(answer.error)
    else FailureAck(attempts, answer.error, now, settings)
  }

  /** Whether this decision put a request on the wire. */
  predicate Sends(h: Hub, id: Id)
    requires id in h.routes
  {
    var route := h.routes[id];
    route.subscription in h.subscriptions && h.subscriptions[route.subscription].active && route.event in h.outbox.rows
  }

  predicate IsSwitchedOff(h: Hub, id: Id)
    requires id in h.routes
  {
    h.routes[id].subscription in h.subscriptions && !h.subscriptions[h.routes[id].subscription].active
  }

  predicate HoldsDelivery(h: Hub, id: Id, token: Token) {
    id in h.deliveries.rows && h.deliveries.rows[id].token == Some(token)
  }

  // ----- the drain as a list of steps -----

  lemma {:induction false} RunHubKeepsRoutes(h: Hub, log: seq<Action>)
    ensures h.routes.Keys <= RunHub(h, log).routes.Keys
  {
    if log != [] {
      var mid, a := RunHub(h, log[..|log| - 1]), log[|log| - 1];
      RunHubKeepsRoutes(h, log[..|log| - 1]);
      if a.Publish? && a.event in mid.types {
        FanOutKeepsRoutes(mid, a.event, SubscriptionsFor(mid.subscriptions, mid.types[a.event]), a.now);
      }
    }
  }

  lemma {:induction false} FanOutKeepsRoutes(h: Hub, event: Id, order: seq<Id>, now: Time)
    ensures h.routes.Keys <= FanOut(h, event, order, now).routes.Keys
  {
    if order != [] {
      FanOutKeepsRoutes(h, event, order[..|order| - 1], now);
    }
  }

  /** The hub the worker sees when it decides whether to send. */
  function AtSending(h: Hub, world: Id -> Attempt, id: Id): (here: Hub)
    ensures h.routes.Keys <= here.routes.Keys
  {
    RunHubKeepsRoutes(h, world(id).before);
    RunHub(h, world(id).before)
  }

  /** The hub its acknowledgement meets. */
  function AtAnswer(h: Hub, world: Id -> Attempt, id: Id): (there: Hub)
    ensures h.routes.Keys <= there.routes.Keys
  {
    RunHubKeepsRoutes(AtSending(h, world, id), world(id).during);
    RunHub(AtSending(h, world, id), world(id).during)
  }

  function Ending(h: Hub, id: Id, attempts: nat, world: Id -> Attempt, now: Time, settings: Settings): Ack
    requires id in h.routes
  {
    DeliveryAck(AtSending(h, world, id), id, attempts, world(id).answer, now, settings)
  }

  /** One delivery: decided on what was read before sending, written to what is there afterwards. */
  function AfterDelivery(h: Hub, id: Id, token: Token, attempts: nat, world: Id -> Attempt, now: Time,
      settings: Settings): Hub
    requires id in h.routes
  {
    Act(AtAnswer(h, world, id), WorkDeliveries(Acknowledge(id, token, Ending(h, id, attempts, world, now, settings))))
  }

  /** What an acknowledgement that is applied writes. */
  lemma AppliedEnding(there: Hub, id: Id, token: Token, ack: Ack)
    requires HoldsDelivery(there, id, token) && there.deliveries.rows[id].status == Pending
    ensures var after := Act(there, WorkDeliveries(Acknowledge(id, token, ack)));
            && id in after.deliveries.rows
            && var row, before := after.deliveries.rows[id], there.deliveries.rows[id];
            && after == there.(deliveries := after.deliveries)
            && after.deliveries.rows == there.deliveries.rows[id := row]
            && row.token == None
            && row.status == (if ack.Finish? then Finished else if ack.RetryAt? then Pending else Dead)
            && row.attempts == before.attempts + (if ack.Finish? then ack.charge else if ack.Suppress? then 0 else 1)
            && (ack.RetryAt? ==> row.nextAttempt == ack.at)
  {
  }

  /** No answer, or one that is neither success nor a refusal the receiver would repeat. */
  predicate WorthRetrying(status: Option<int>) {
    status.Some? ==>
      status.value < 200 || 300 <= status.value < 400 || status.value in {408, 429} || 500 <= status.value
  }

  /** Which ending the subscription, the event and the answer call for. */
  lemma EndingIs(here: Hub, id: Id, attempts: nat, answer: Answer, now: Time, settings: Settings)
    requires id in here.routes
    ensures var ack := DeliveryAck(here, id, attempts, answer, now, settings);
            && (ack.Finish? <==> Sends(here, id) && answer.status.Some? && 200 <= answer.status.value < 300)
            && (ack.Finish? ==> ack.charge == 1)
            && (ack.RetryAt? <==> Sends(here, id) && WorthRetrying(answer.status)
                                  && attempts + 1 < settings.policy.maxAttempts)
            && (ack.RetryAt? ==> ack.at == now + Doubled(settings.baseBackoff, attempts))
            && (ack.Suppress? <==> IsSwitchedOff(here, id))
  {
    BackoffDoubles(settings.baseBackoff, attempts);
  }

  lemma HeldIsPending(h: Hub, world: Id -> Attempt, id: Id, token: Token)
    requires Whole(h) && HoldsDelivery(AtAnswer(h, world, id), id, token)
    ensures AtAnswer(h, world, id).deliveries.rows[id].status == Pending
  {
    RunKeepsWhole(h, world(id).before);
    RunKeepsWhole(AtSending(h, world, id), world(id).during);
    assert InStep(AtAnswer(h, world, id).deliveries, id);
  }

  /** A row as an attempt that kept its claim leaves it. */
  ghost predicate Attempted(row: Row, before: Row, here: Hub, id: Id, attempts: nat, answer: Answer, now: Time,
      settings: Settings)
    requires id in here.routes
  {
    && row.token == None
    && (row.status == Finished <==> Sends(here, id) && answer.status.Some? && 200 <= answer.status.value < 300)
    && (row.status == Pending <==> Sends(here, id) && WorthRetrying(answer.status)
                                   && attempts + 1 < settings.policy.maxAttempts)
    && (row.status == Pending ==> row.nextAttempt == now + Doubled(settings.baseBackoff, attempts))
    && row.attempts == before.attempts + if IsSwitchedOff(here, id) then 0 else 1
  }

  /**
   What one attempt leaves behind. A worker that lost its claim leaves nothing. Otherwise the row is
   delivered exactly when a request went out, to a subscription that was active then, and was answered
   with success; it waits exactly when the answer was worth a retry within the budget; it is dead in
   every other case; and only an inactive subscription costs the row no attempt.
   */
  lemma AttemptEndsAsItShould(h: Hub, id: Id, token: Token, attempts: nat, world: Id -> Attempt, now: Time,
      settings: Settings)
    requires Whole(h) && id in h.routes
    ensures var here, there := AtSending(h, world, id), AtAnswer(h, world, id);
            var after := AfterDelivery(h, id, token, attempts, world, now, settings);
            if !HoldsDelivery(there, id, token) then after == there
            else
              && id in after.deliveries.rows
              && after == there.(deliveries := after.deliveries)
              && after.deliveries.rows == there.deliveries.rows[id := after.deliveries.rows[id]]
              && Attempted(after.deliveries.rows[id], there.deliveries.rows[id], here, id, attempts, world(id).answer,
                           now, settings)
  {
    if HoldsDelivery(AtAnswer(h, world, id), id, token) {
      HeldIsPending(h, world, id, token);
      EndingIs(AtSending(h, world, id), id, attempts, world(id).answer, now, settings);
      AppliedEnding(AtAnswer(h, world, id), id, token, Ending(h, id, attempts, world, now, settings));
    }
  }

  function AfterDeliveries(h: Hub, rows: Rows, batch: seq<Id>, token: Token, world: Id -> Attempt, now: Time,
      settings: Settings): (after: Hub)
    requires forall i :: i in batch ==> i in rows && i in h.routes
    ensures h.routes.Keys <= after.routes.Keys
  {
    if batch == [] then h
    else
      var id := batch[|batch| - 1];
      var mid := AfterDeliveries(h, rows, batch[..|batch| - 1], token, world, now, settings);
      AfterDelivery(mid, id, token, rows[id].attempts, world, now, settings)
  }

  function DeliveryRecover(now: Time, limit: nat, settings: Settings): Action {
    WorkDeliveries(Recover(now, settings.policy.maxReclaims, limit))
  }

  function DeliveryClaim(now: Time, limit: nat): Action {
    WorkDeliveries(Claim(now, limit, LEASE_MS))
  }

  function ClaimedDeliveries(h: Hub, now: Time, limit: nat, settings: Settings): seq<Id> {
    DueBatch(Act(h, DeliveryRecover(now, limit, settings)).deliveries.rows, now, limit)
  }

  /** The whole drain: recover, claim, then one acknowledgement for every claimed delivery. */
  function AfterDrain(h: Hub, now: Time, limit: nat, world: Id -> Attempt, settings: Settings): Hub
    requires h.deliveries.rows.Keys <= h.routes.Keys
  {
    var mid := Act(h, DeliveryRecover(now, limit, settings));
    var claimed := Act(mid, DeliveryClaim(now, limit));
    AfterDeliveries(claimed, mid.deliveries.rows, ClaimedDeliveries(h, now, limit, settings),
                    mid.deliveries.nextToken, world, now, settings)
  }

  /** The steps around one delivery, everybody's included. */
  function AttemptSteps(h: Hub, id: Id, token: Token, attempts: nat, world: Id -> Attempt, now: Time,
      settings: Settings): seq<Action>
    requires id in h.routes
  {
    world(id).before + world(id).during
    + [WorkDeliveries(Acknowledge(id, token, Ending(h, id, attempts, world, now, settings)))]
  }

  function DeliverySteps(h: Hub, rows: Rows, batch: seq<Id>, token: Token, world: Id -> Attempt, now: Time,
      settings: Settings): seq<Action>
    requires forall i :: i in batch ==> i in rows && i in h.routes
  {
    if batch == [] then []
    else
      var shorter, id := batch[..|batch| - 1], batch[|batch| - 1];
      var mid := AfterDeliveries(h, rows, shorter, token, world, now, settings);
      DeliverySteps(h, rows, shorter, token, world, now, settings)
      + AttemptSteps(mid, id, token, rows[id].attempts, world, now, settings)
  }

  function DeliveryDrainSteps(h: Hub, now: Time, limit: nat, world: Id -> Attempt, settings: Settings): seq<Action>
    requires h.deliveries.rows.Keys <= h.routes.Keys
  {
    var mid := Act(h, DeliveryRecover(now, limit, settings));
    [DeliveryRecover(now, limit, settings), DeliveryClaim(now, limit)]
    + DeliverySteps(Act(mid, DeliveryClaim(now, limit)), mid.deliveries.rows,
                    ClaimedDeliveries(h, now, limit, settings),
                    mid.deliveries.nextToken, world, now, settings)
  }

  /** However the outside behaves, a drain is a run of the hub, so every law of runs holds of it. */
  lemma {:induction false} BatchIsARun(h: Hub, rows: Rows, batch: seq<Id>, token: Token, world: Id -> Attempt,
      now: Time, settings: Settings)
    requires forall i :: i in batch ==> i in rows && i in h.routes
    ensures AfterDeliveries(h, rows, batch, token, world, now, settings)
         == RunHub(h, DeliverySteps(h, rows, batch, token, world, now, settings))
  {
    if batch != [] {
      var shorter, id := batch[..|batch| - 1], batch[|batch| - 1];
      BatchIsARun(h, rows, shorter, token, world, now, settings);
      var mid := AfterDeliveries(h, rows, shorter, token, world, now, settings);
      AttemptIsARun(mid, id, token, rows[id].attempts, world, now, settings);
      RunHubConcat(h, DeliverySteps(h, rows, shorter, token, world, now, settings),
                   AttemptSteps(mid, id, token, rows[id].attempts, world, now, settings));
    }
  }

  lemma AttemptIsARun(h: Hub, id: Id, token: Token, attempts: nat, world: Id -> Attempt, now: Time, settings: Settings)
    requires id in h.routes
    ensures AfterDelivery(h, id, token, attempts, world, now, settings)
         == RunHub(h, AttemptSteps(h, id, token, attempts, world, now, settings))
  {
    var around := world(id).before + world(id).during;
    var last := WorkDeliveries(Acknowledge(id, token, Ending(h, id, attempts, world, now, settings)));
    RunHubConcat(h, world(id).before, world(id).during);
    RunHubConcat(h, around, [last]);
    RunHubOne(RunHub(h, around), last);
  }

  lemma ClaimedAreRouted(h: Hub, now: Time, limit: nat, settings: Settings)
    requires h.deliveries.rows.Keys <= h.routes.Keys
    ensures var mid := Act(h, DeliveryRecover(now, limit, settings));
            forall i :: i in ClaimedDeliveries(h, now, limit, settings) ==>
              i in mid.deliveries.rows && i in Act(mid, DeliveryClaim(now, limit)).routes
  {
  }

  lemma DeliveryDrainIsARun(h: Hub, now: Time, limit: nat, world: Id -> Attempt, settings: Settings)
    requires h.deliveries.rows.Keys <= h.routes.Keys
    ensures AfterDrain(h, now, limit, world, settings) == RunHub(h, DeliveryDrainSteps(h, now, limit, world, settings))
  {
    var mid := Act(h, DeliveryRecover(now, limit, settings));
    var claimed := Act(mid, DeliveryClaim(now, limit));
    var batch := ClaimedDeliveries(h, now, limit, settings);
    ClaimedAreRouted(h, now, limit, settings);
    var steps := DeliverySteps(claimed, mid.deliveries.rows, batch, mid.deliveries.nextToken, world, now, settings);
    BatchIsARun(claimed, mid.deliveries.rows, batch, mid.deliveries.nextToken, world, now, settings);
    ThenRuns(h, DeliveryRecover(now, limit, settings), DeliveryClaim(now, limit), steps,
             DeliveryDrainSteps(h, now, limit, world, settings), AfterDrain(h, now, limit, world, settings));
  }

  lemma ThenRuns(h: Hub, first: Action, second: Action, steps: seq<Action>, all: seq<Action>, after: Hub)
    requires all == [first, second] + steps && after == RunHub(Act(Act(h, first), second), steps)
    ensures RunHub(h, all) == after
  {
    TwoSteps(h, first, second);
    RunHubConcat(h, [first, second], steps);
  }

  lemma TwoSteps(h: Hub, first: Action, second: Action)
    ensures RunHub(h, [first, second]) == Act(Act(h, first), second)
  {
    assert [first, second] == [first] + [second];
    RunHubConcat(h, [first], [second]);
    RunHubOne(h, first);
    RunHubOne(Act(h, first), second);
  }

  datatype DeliveryResult = DeliveryResult(
    delivered: nat, failed: nat, dead: nat, reclaimed: nat, reclaimExhausted: nat, fenced: nat, suppressed: nat)

  /** A refused acknowledgement is counted as fenced whatever it was. */
  function CountDelivery(counts: DeliveryResult, here: Hub, id: Id, token: Token, ack: Ack): DeliveryResult {
    if !HoldsDelivery(here, id, token) then counts.(fenced := counts.fenced + 1)
    else
      match ack
      case Finish(_) => counts.(delivered := counts.delivered + 1)
      case RetryAt(_, _) => counts.(failed := counts.failed + 1)
      case Bury(_) => counts.(dead := counts.dead + 1)
      case Suppress(_) => counts.(suppressed := counts.suppressed + 1)
  }

  function AfterCount(counts: DeliveryResult, h: Hub, id: Id, token: Token, attempts: nat, world: Id -> Attempt,
      now: Time, settings: Settings): DeliveryResult
    requires id in h.routes
  {
    CountDelivery(counts, AtAnswer(h, world, id), id, token, Ending(h, id, attempts, world, now, settings))
  }

  function DeliveryOpening(h: Hub, now: Time, limit: nat, settings: Settings): DeliveryResult {
    var gone := AbandonedBatch(h.deliveries.rows, now, limit);
    var dead := GivenUp(h.deliveries.rows, gone, settings.policy.maxReclaims);
    DeliveryResult(0, 0, 0, if dead <= |gone| then |gone| - dead else 0, dead, 0, 0)
  }

  /** The counters after a batch, read off the run. */
  function DeliveryCounts(opening: DeliveryResult, h: Hub, rows: Rows, batch: seq<Id>, token: Token,
      world: Id -> Attempt, now: Time, settings: Settings): DeliveryResult
    requires forall i :: i in batch ==> i in rows && i in h.routes
  {
    if batch == [] then opening
    else
      var shorter, id := batch[..|batch| - 1], batch[|batch| - 1];
      AfterCount(DeliveryCounts(opening, h, rows, shorter, token, world, now, settings),
                 AfterDeliveries(h, rows, shorter, token, world, now, settings),
                 id, token, rows[id].attempts, world, now, settings)
  }

  function DeliveryDrainCounts(h: Hub, now: Time, limit: nat, world: Id -> Attempt, settings: Settings): DeliveryResult
    requires h.deliveries.rows.Keys <= h.routes.Keys
  {
    var mid := Act(h, DeliveryRecover(now, limit, settings));
    DeliveryCounts(DeliveryOpening(h, now, limit, settings), Act(mid, DeliveryClaim(now, limit)), mid.deliveries.rows,
                   ClaimedDeliveries(h, now, limit, settings), mid.deliveries.nextToken, world, now, settings)
  }

  function Counted(c: DeliveryResult): nat {
    c.delivered + c.failed + c.dead + c.fenced + c.suppressed
  }

  /** Every claimed delivery is counted once, whatever became of it. */
  lemma {:induction false} EveryDeliveryIsCountedOnce(opening: DeliveryResult, h: Hub, rows: Rows, batch: seq<Id>,
      token: Token, world: Id -> Attempt, now: Time, settings: Settings)
    requires forall i :: i in batch ==> i in rows && i in h.routes
    ensures Counted(DeliveryCounts(opening, h, rows, batch, token, world, now, settings)) == Counted(opening) + |batch|
  {
    if batch != [] {
      EveryDeliveryIsCountedOnce(opening, h, rows, batch[..|batch| - 1], token, world, now, settings);
    }
  }

  class Worker {
    const hub: Eventing
    const settings: Settings

    constructor (hub: Eventing, settings: Settings)
      ensures this.hub == hub && this.settings == settings
    {
      this.hub, this.settings := hub, settings;
    }

    /** What the current subscription, the current outbox and the answer call for. */
    method Decide(id: Id, attempts: nat, answer: Answer, now: Time) returns (ack: Ack)
      requires hub.Valid() && id in hub.store.routes
      ensures ack == DeliveryAck(hub.Hub(), id, attempts, answer, now, settings)
    {
      var route := hub.store.routes[id];
      if route.subscription in hub.store.subscriptions && !hub.store.subscriptions[route.subscription].active {
        return Suppress("subscription is not active");
      }
      if route.subscription !in hub.store.subscriptions || route.event !in hub.outbox.rows {
        return Bury(if route.subscription in hub.store.subscriptions then "event no longer in the outbox"
                    else "subscription no longer exists");
      }
      if IsSuccess(answer.status) {
        return Finish(1);
      }
      if !IsRetryable(answer.status) || attempts + 1 >= settings.policy.maxAttempts {
        return Bury(answer.error);
      }
      ack := RetryAt(now + settings.baseBackoff * PowerOfTwo(attempts), answer.error);
    }

    /** Acknowledge, and count the ending only if the claim was still this worker's. */
    method Acknowledge(id: Id, token: Token, ack: Ack, counts: DeliveryResult) returns (result: DeliveryResult)
      requires hub.Valid()
      modifies hub.store.queue
      ensures hub.Valid() && hub.Hub() == Act(old(hub.Hub()), WorkDeliveries(Command.Acknowledge(id, token, ack)))
      ensures result == CountDelivery(counts, old(hub.Hub()), id, token, ack)
    {
      var applied := hub.store.queue.Settle(id, token, ack);
      if !applied {
        return counts.(fenced := counts.fenced + 1);
      }
      match ack
      case Finish(_) => result := counts.(delivered := counts.delivered + 1);
      case RetryAt(_, _) => result := counts.(failed := counts.failed + 1);
      case Bury(_) => result := counts.(dead := counts.dead + 1);
      case Suppress(_) => result := counts.(suppressed := counts.suppressed + 1);
    }

    /** One claimed delivery, sent or not, and the one acknowledgement its ending calls for. */
    method DeliverOne(lease: Lease, token: Token, world: Id -> Attempt, now: Time, counts: DeliveryResult)
      returns (result: DeliveryResult)
      requires hub.Valid() && RoutesWhole(hub.Hub()) && lease.id in hub.store.routes
      modifies hub, hub.outbox, hub.store, hub.store.queue
      ensures hub.Valid() && RoutesWhole(hub.Hub())
      ensures hub.Hub() == AfterDelivery(old(hub.Hub()), lease.id, token, lease.row.attempts, world, now, settings)
      ensures result == AfterCount(counts, old(hub.Hub()), lease.id, token, lease.row.attempts, world, now, settings)
    {
      RunHubKeepsRoutes(hub.Hub(), world(lease.id).before);
      hub.PerformAll(world(lease.id).before);
      var ack := Decide(lease.id, lease.row.attempts, world(lease.id).answer, now);
      hub.PerformAll(world(lease.id).during);
      ActKeepsRoutesWhole(hub.Hub(), WorkDeliveries(Command.Acknowledge(lease.id, token, ack)));
      result := Acknowledge(lease.id, token, ack, counts);
    }

    method DeliverBatch(due: seq<Lease>, token: Token, world: Id -> Attempt, now: Time, opening: DeliveryResult,
        ghost rows: Rows, ghost batch: seq<Id>)
      returns (result: DeliveryResult)
      requires hub.Valid() && RoutesWhole(hub.Hub())
      requires |due| == |batch| && forall i :: i in batch ==> i in rows && i in hub.store.routes
      requires forall n :: 0 <= n < |due| ==> due[n].id == batch[n] && due[n].row.attempts == rows[batch[n]].attempts
      modifies hub, hub.outbox, hub.store, hub.store.queue
      ensures hub.Valid() && RoutesWhole(hub.Hub())
      ensures hub.Hub() == AfterDeliveries(old(hub.Hub()), rows, batch, token, world, now, settings)
      ensures result == DeliveryCounts(opening, old(hub.Hub()), rows, batch, token, world, now, settings)
    {
      ghost var h := hub.Hub();
      result := opening;
      for n := 0 to |due|
        invariant hub.Valid() && RoutesWhole(hub.Hub())
        invariant hub.Hub() == AfterDeliveries(h, rows, batch[..n], token, world, now, settings)
        invariant result == DeliveryCounts(opening, h, rows, batch[..n], token, world, now, settings)
      {
        assert batch[..n + 1][..n] == batch[..n] && batch[n] in batch;
        result := DeliverOne(due[n], token, world, now, result);
      }
      assert batch[..|due|] == batch;
    }

    method RecoverAndClaim(now: Time, limit: nat) returns (due: seq<Lease>, token: Token, opening: DeliveryResult)
      requires hub.Valid()
      modifies hub.store.queue
      ensures var mid := Act(old(hub.Hub()), DeliveryRecover(now, limit, settings));
              && hub.Valid() && hub.Hub() == Act(mid, DeliveryClaim(now, limit))
              && token == mid.deliveries.nextToken
              && HandsOut(hub.store.queue.rows, due, ClaimedDeliveries(old(hub.Hub()), now, limit, settings))
      ensures opening == DeliveryOpening(old(hub.Hub()), now, limit, settings)
    {
      var reclaim := hub.store.queue.ReclaimExpired(now, settings.policy.maxReclaims, limit);
      opening := DeliveryResult(0, 0, 0, reclaim.reclaimed, reclaim.dead, 0, 0);
      token := hub.store.queue.nextToken;
      due := hub.store.queue.ClaimDueBySlice(now, limit, LEASE_MS);
    }

    /** `DeliveryWorker.drainOnce`. */
    method DrainOnce(now: Time, limit: nat, world: Id -> Attempt) returns (result: DeliveryResult)
      requires hub.Valid() && RoutesWhole(hub.Hub())
      modifies hub, hub.outbox, hub.store, hub.store.queue
      ensures hub.Valid() && RoutesWhole(hub.Hub())
      ensures hub.Hub() == AfterDrain(old(hub.Hub()), now, limit, world, settings)
      ensures result == DeliveryDrainCounts(old(hub.Hub()), now, limit, world, settings)
    {
      ghost var h := hub.Hub();
      ghost var mid := Act(h, DeliveryRecover(now, limit, settings));
      ActKeepsRoutesWhole(h, DeliveryRecover(now, limit, settings));
      ActKeepsRoutesWhole(mid, DeliveryClaim(now, limit));
      ClaimsKeepAttempts(mid.deliveries, now, limit, LEASE_MS);
      var due, token, opening := RecoverAndClaim(now, limit);
      result := DeliverBatch(due, token, world, now, opening, mid.deliveries.rows,
                             ClaimedDeliveries(h, now, limit, settings));
    }
  }
}
