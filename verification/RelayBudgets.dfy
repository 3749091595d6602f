/**
 Bounded work for events and deliveries under the drains themselves: every step the relay and
 the delivery worker take keeps to the attempts they read at the claim, whatever others do in
 between, so no event and no delivery is claimed more often than its budgets allow.
 */
module RelayBudgets {
  import opened Common
  import opened Queue
  import opened QueueRuns
  import opened QueueStore
  import opened QueueBudgets
  import opened Relay
  import opened RelayService
  import opened DeliveryWorker

  /** One policy for the relays, one for the delivery workers. */
  datatype Policies = Policies(events: Policy, deliveries: Policy)

  ghost predicate Obeys(h: Hub, a: Action, p: Policies) {
    match a
    case WorkOutbox(c) => WorkerStep(h.outbox, c, p.events)
    case WorkDeliveries(c) => WorkerStep(h.deliveries, c, p.deliveries)
    case _ => true
  }

  ghost predicate AllObey(h: Hub, log: seq<Action>, p: Policies) {
    log == [] || (AllObey(h, log[..|log| - 1], p) && Obeys(RunHub(h, log[..|log| - 1]), log[|log| - 1], p))
  }

  lemma {:induction false} AllObeyConcat(h: Hub, left: seq<Action>, right: seq<Action>, p: Policies)
    requires AllObey(h, left, p) && AllObey(RunHub(h, left), right, p)
    ensures AllObey(h, left + right, p)
  {
    if right == [] {
      assert left + right == left;
    } else {
      var shorter := right[..|right| - 1];
      assert (left + right)[..|left + right| - 1] == left + shorter;
      AllObeyConcat(h, left, shorter, p);
      RunHubConcat(h, left, shorter);
    }
  }

  lemma OneObeys(h: Hub, a: Action, p: Policies)
    requires Obeys(h, a, p)
    ensures AllObey(h, [a], p)
  {
    assert [a][..0] == [] && AllObey(h, [], p);
  }

  // ----- histories only grow -----

  lemma {:induction false} ClaimBatchExtends(s: State, batch: seq<Id>, now: Time, lease: int)
    requires forall i :: i in batch ==> i in s.rows
    ensures s.history <= ClaimBatch(s, batch, now, lease).history
  {
    if batch != [] {
      ClaimBatchExtends(s, batch[..|batch| - 1], now, lease);
    }
  }

  lemma {:induction false} RecoverBatchExtends(s: State, batch: seq<Id>, now: Time, maxReclaims: nat)
    requires forall i :: i in batch ==> i in s.rows
    ensures s.history <= RecoverBatch(s, batch, now, maxReclaims).history
  {
    if batch != [] {
      RecoverBatchExtends(s, batch[..|batch| - 1], now, maxReclaims);
    }
  }

  lemma StepExtends(s: State, c: Command)
    ensures s.history <= Step(s, c).history
  {
    match c
    case Claim(now, count, lease) => ClaimBatchExtends(s, DueBatch(s.rows, now, count), now, lease);
    case Recover(now, maxReclaims, limit) =>
      RecoverBatchExtends(s, AbandonedBatch(s.rows, now, limit), now, maxReclaims);
    case _ =>
  }

  lemma {:induction false} FanOutExtends(h: Hub, event: Id, order: seq<Id>, now: Time)
    ensures FanOut(h, event, order, now).outbox == h.outbox
    ensures h.deliveries.history <= FanOut(h, event, order, now).deliveries.history
  {
    if order != [] {
      FanOutExtends(h, event, order[..|order| - 1], now);
    }
  }

  lemma ActExtends(h: Hub, a: Action)
    ensures h.outbox.history <= Act(h, a).outbox.history && h.deliveries.history <= Act(h, a).deliveries.history
  {
    match a
    case WorkOutbox(c) => StepExtends(h.outbox, c);
    case WorkDeliveries(c) => StepExtends(h.deliveries, c);
    case Publish(event, token, now) =>
      if event in h.types {
        FanOutExtends(h, event, SubscriptionsFor(h.subscriptions, h.types[event]), now);
      }
    case _ =>
  }

  lemma {:induction false} RunExtends(h: Hub, log: seq<Action>)
    ensures h.outbox.history <= RunHub(h, log).outbox.history
    ensures h.deliveries.history <= RunHub(h, log).deliveries.history
  {
    if log != [] {
      RunExtends(h, log[..|log| - 1]);
      ActExtends(RunHub(h, log[..|log| - 1]), log[|log| - 1]);
    }
  }

  // ----- one acknowledgement -----

  /** A worker that read the attempts at its claim asks for a retry only while the policy leaves one. */
  lemma FailureIsDisciplined(s: State, id: Id, token: Token, attempts: nat, error: string, now: Time,
      settings: Settings)
    requires Consistent(s) && ClaimedAt(s.history, id, token, attempts)
    ensures WorkerStep(s, Acknowledge(id, token, FailureAck(attempts, error, now, settings)), settings.policy)
  {
    forall other: nat | ClaimedAt(s.history, id, token, other)
      ensures other == attempts
    {
      var p :| 0 <= p < |s.history| && s.history[p] == Claimed(id, token, attempts);
      var q :| 0 <= q < |s.history| && s.history[q] == Claimed(id, token, other);
    }
  }

  // ----- the relay's drain -----

  /** Everyone else keeps to the policies while the relay works through its batch. */
  ghost predicate OthersObey(h: Hub, rows: Rows, batch: seq<Id>, token: Token, world: Id -> Sending, now: Time,
      settings: Settings, p: Policies)
    requires forall i :: i in batch ==> i in rows
  {
    batch == []
    || (var shorter, id := batch[..|batch| - 1], batch[|batch| - 1];
        OthersObey(h, rows, shorter, token, world, now, settings, p)
        && AllObey(RunHub(h, PublishSteps(rows, shorter, token, world, now, settings)), world(id).meanwhile, p))
  }

  lemma PublishStepObeys(h: Hub, id: Id, token: Token, attempts: nat, failure: Option<string>, now: Time,
      settings: Settings, p: Policies)
    requires Consistent(h.outbox) && ClaimedAt(h.outbox.history, id, token, attempts) && settings.policy == p.events
    ensures Obeys(h, PublishStep(id, token, attempts, failure, now, settings), p)
  {
    if failure.Some? {
      FailureIsDisciplined(h.outbox, id, token, attempts, failure.value, now, settings);
    }
  }

  lemma {:induction false} RelayItemsObey(h: Hub, rows: Rows, batch: seq<Id>, token: Token, world: Id -> Sending,
      now: Time, settings: Settings, p: Policies)
    requires Whole(h) && settings.policy == p.events && forall i :: i in batch ==> i in rows
    requires forall i :: i in batch ==> ClaimedAt(h.outbox.history, i, token, rows[i].attempts)
    requires OthersObey(h, rows, batch, token, world, now, settings, p)
    ensures AllObey(h, PublishSteps(rows, batch, token, world, now, settings), p)
  {
    if batch != [] {
      var shorter, id := batch[..|batch| - 1], batch[|batch| - 1];
      RelayItemsObey(h, rows, shorter, token, world, now, settings, p);
      var steps := PublishSteps(rows, shorter, token, world, now, settings);
      AllObeyConcat(h, steps, world(id).meanwhile, p);
      var before := steps + world(id).meanwhile;
      RunHubConcat(h, steps, world(id).meanwhile);
      var here := RunHub(h, before);
      RunExtends(h, before);
      RunKeepsWhole(h, before);
      assert id in batch;
      var last := PublishStep(id, token, rows[id].attempts, world(id).failure, now, settings);
      PublishStepObeys(here, id, token, rows[id].attempts, world(id).failure, now, settings, p);
      OneObeys(here, last, p);
      AllObeyConcat(h, before, [last], p);
    }
  }

  lemma {:induction false} ClaimBatchRecords(s: State, batch: seq<Id>, now: Time, lease: int)
    requires (forall i :: i in batch ==> i in s.rows) && Distinct(batch)
    ensures forall i ::
            i in batch ==> ClaimedAt(ClaimBatch(s, batch, now, lease).history, i, s.nextToken, s.rows[i].attempts)
  {
    if batch != [] {
      var shorter, id := batch[..|batch| - 1], batch[|batch| - 1];
      ClaimBatchRecords(s, shorter, now, lease);
      ClaimBatchTouchesOnlyItself(s, shorter, now, lease);
      assert batch == shorter + [id] && id !in shorter;
      var earlier := ClaimBatch(s, shorter, now, lease);
      assert ClaimOne(earlier, id, now, lease).history[|earlier.history|]
          == Claimed(id, s.nextToken, s.rows[id].attempts);
    }
  }

  lemma OpeningObeys(h: Hub, now: Time, limit: int, settings: Settings, p: Policies)
    requires settings.policy == p.events
    ensures AllObey(h, Opening(now, limit, settings), p)
  {
    var o := Opening(now, limit, settings);
    assert o == [o[0]] + [o[1]];
    OneObeys(h, o[0], p);
    RunHubOne(h, o[0]);
    OneObeys(Act(h, o[0]), o[1], p);
    AllObeyConcat(h, [o[0]], [o[1]], p);
  }

  lemma ClaimedEventsAreRecorded(h: Hub, now: Time, limit: int, settings: Settings)
    ensures var mid := RecoveredHub(h, now, limit, settings);
            forall i :: i in ClaimedBatch(h, now, limit, settings) ==>
              ClaimedAt(Act(mid, Opening(now, limit, settings)[1]).outbox.history, i, mid.outbox.nextToken,
                        mid.outbox.rows[i].attempts)
  {
    var mid := RecoveredHub(h, now, limit, settings);
    DueBatchIsDue(mid.outbox.rows, now, if limit < 1 then 1 else limit);
    ClaimBatchRecords(mid.outbox, ClaimedBatch(h, now, limit, settings), now, LEASE_MS);
  }

  /** A whole drain of the relay obeys its policy as long as everybody else does meanwhile. */
  lemma DrainObeysThePolicy(h: Hub, now: Time, limit: int, world: Id -> Sending, settings: Settings, p: Policies)
    requires Whole(h) && settings.policy == p.events
    requires var mid := RecoveredHub(h, now, limit, settings);
             OthersObey(Act(mid, Opening(now, limit, settings)[1]), mid.outbox.rows,
                        ClaimedBatch(h, now, limit, settings),
                        mid.outbox.nextToken, world, now, settings, p)
    ensures AllObey(h, DrainSteps(h, now, limit, world, settings), p)
  {
    var mid := RecoveredHub(h, now, limit, settings);
    var claimed := Act(mid, Opening(now, limit, settings)[1]);
    var batch := ClaimedBatch(h, now, limit, settings);
    ActKeepsWhole(h, Opening(now, limit, settings)[0]);
    ActKeepsWhole(mid, Opening(now, limit, settings)[1]);
    ClaimedEventsAreRecorded(h, now, limit, settings);
    RelayItemsObey(claimed, mid.outbox.rows, batch, mid.outbox.nextToken, world, now, settings, p);
    OpeningObeys(h, now, limit, settings, p);
    OpeningRuns(h, now, limit, settings);
    AllObeyConcat(h, Opening(now, limit, settings),
                  PublishSteps(mid.outbox.rows, batch, mid.outbox.nextToken, world, now, settings), p);
  }

  // ----- the delivery worker's drain -----

  /** The acknowledgement is decided on one hub, before sending, and applied to a later one. */
  lemma DeliveryStepObeys(here: Hub, there: Hub, id: Id, token: Token, attempts: nat, answer: Answer, now: Time,
      settings: Settings, p: Policies)
    requires Consistent(there.deliveries) && id in here.routes
             && ClaimedAt(there.deliveries.history, id, token, attempts)
    requires settings.policy == p.deliveries
    ensures Obeys(there, WorkDeliveries(Acknowledge(id, token,
                                                    DeliveryAck(here, id, attempts, answer, now, settings))), p)
  {
    FailureIsDisciplined(there.deliveries, id, token, attempts, answer.error, now, settings);
  }

  /** Everyone else keeps to the policies, before each request and while it is out. */
  ghost predicate OthersObeyAround(h: Hub, rows: Rows, batch: seq<Id>, token: Token, world: Id -> Attempt, now: Time,
      settings: Settings, p: Policies)
    requires forall i :: i in batch ==> i in rows && i in h.routes
  {
    batch == []
    || (var shorter, id := batch[..|batch| - 1], batch[|batch| - 1];
        var mid := AfterDeliveries(h, rows, shorter, token, world, now, settings);
        && OthersObeyAround(h, rows, shorter, token, world, now, settings, p)
        && AllObey(mid, world(id).before, p)
        && AllObey(AtSending(mid, world, id), world(id).during, p))
  }

  /** One more attempt, from a hub the earlier ones left whole. */
  lemma AttemptObeys(mid: Hub, id: Id, token: Token, attempts: nat, world: Id -> Attempt, now: Time,
      settings: Settings, p: Policies)
    requires Whole(mid) && id in mid.routes && settings.policy == p.deliveries
    requires ClaimedAt(mid.deliveries.history, id, token, attempts)
    requires AllObey(mid, world(id).before, p) && AllObey(AtSending(mid, world, id), world(id).during, p)
    ensures AllObey(mid, AttemptSteps(mid, id, token, attempts, world, now, settings), p)
  {
    var around := world(id).before + world(id).during;
    var last := WorkDeliveries(Acknowledge(id, token, Ending(mid, id, attempts, world, now, settings)));
    AllObeyConcat(mid, world(id).before, world(id).during, p);
    RunHubConcat(mid, world(id).before, world(id).during);
    RunExtends(mid, around);
    RunKeepsWhole(mid, around);
    DeliveryStepObeys(AtSending(mid, world, id), RunHub(mid, around), id, token, attempts, world(id).answer, now,
                      settings, p);
    OneObeys(RunHub(mid, around), last, p);
    AllObeyConcat(mid, around, [last], p);
  }

  /** What a run leaves true of a claim taken before it. */
  lemma StillRecorded(h: Hub, steps: seq<Action>, mid: Hub, id: Id, token: Token, attempts: nat)
    requires Whole(h) && mid == RunHub(h, steps) && ClaimedAt(h.deliveries.history, id, token, attempts)
    ensures Whole(mid) && ClaimedAt(mid.deliveries.history, id, token, attempts)
  {
    RunExtends(h, steps);
    RunKeepsWhole(h, steps);
  }

  lemma JoinObeys(h: Hub, steps: seq<Action>, mid: Hub, attempt: seq<Action>, p: Policies)
    requires AllObey(h, steps, p) && mid == RunHub(h, steps) && AllObey(mid, attempt, p)
    ensures AllObey(h, steps + attempt, p)
  {
    AllObeyConcat(h, steps, attempt, p);
  }

  lemma {:induction false} DeliveryItemsObey(h: Hub, rows: Rows, batch: seq<Id>, token: Token, world: Id -> Attempt,
      now: Time, settings: Settings, p: Policies)
    requires Whole(h) && settings.policy == p.deliveries && forall i :: i in batch ==> i in rows && i in h.routes
    requires forall i :: i in batch ==> ClaimedAt(h.deliveries.history, i, token, rows[i].attempts)
    requires OthersObeyAround(h, rows, batch, token, world, now, settings, p)
    ensures AllObey(h, DeliverySteps(h, rows, batch, token, world, now, settings), p)
  {
    if batch != [] {
      var shorter, id := batch[..|batch| - 1], batch[|batch| - 1];
      assert id in batch;
      var mid := AfterDeliveries(h, rows, shorter, token, world, now, settings);
      var steps := DeliverySteps(h, rows, shorter, token, world, now, settings);
      DeliveryItemsObey(h, rows, shorter, token, world, now, settings, p);
      BatchIsARun(h, rows, shorter, token, world, now, settings);
      StillRecorded(h, steps, mid, id, token, rows[id].attempts);
      AttemptObeys(mid, id, token, rows[id].attempts, world, now, settings, p);
      JoinObeys(h, steps, mid, AttemptSteps(mid, id, token, rows[id].attempts, world, now, settings), p);
    }
  }

  lemma ClaimedDeliveriesAreRecorded(h: Hub, now: Time, limit: nat, settings: Settings)
    ensures var mid := Act(h, DeliveryRecover(now, limit, settings));
            forall i :: i in ClaimedDeliveries(h, now, limit, settings) ==>
              i in mid.deliveries.rows
              && ClaimedAt(Act(mid, DeliveryClaim(now, limit)).deliveries.history, i, mid.deliveries.nextToken,
                           mid.deliveries.rows[i].attempts)
  {
    var mid := Act(h, DeliveryRecover(now, limit, settings));
    DueBatchIsDue(mid.deliveries.rows, now, limit);
    ClaimBatchRecords(mid.deliveries, ClaimedDeliveries(h, now, limit, settings), now, LEASE_MS);
  }

  /** A whole drain of the delivery worker obeys its policy as long as everybody else does meanwhile. */
  lemma DeliveryDrainObeys(h: Hub, now: Time, limit: nat, world: Id -> Attempt, settings: Settings, p: Policies)
    requires Whole(h) && settings.policy == p.deliveries
    requires var mid := Act(h, DeliveryRecover(now, limit, settings));
             OthersObeyAround(Act(mid, DeliveryClaim(now, limit)), mid.deliveries.rows,
                              ClaimedDeliveries(h, now, limit, settings),
                              mid.deliveries.nextToken, world, now, settings, p)
    ensures AllObey(h, DeliveryDrainSteps(h, now, limit, world, settings), p)
  {
    var first, second := DeliveryRecover(now, limit, settings), DeliveryClaim(now, limit);
    var mid := Act(h, first);
    var batch := ClaimedDeliveries(h, now, limit, settings);
    ActKeepsWhole(h, first);
    ActKeepsWhole(mid, second);
    ClaimedDeliveriesAreRecorded(h, now, limit, settings);
    DeliveryItemsObey(Act(mid, second), mid.deliveries.rows, batch, mid.deliveries.nextToken, world, now, settings, p);
    TwoObey(h, first, second, p);
    TwoSteps(h, first, second);
    JoinObeys(h, [first, second], Act(mid, second),
              DeliverySteps(Act(mid, second), mid.deliveries.rows, batch, mid.deliveries.nextToken, world, now,
                            settings), p);
  }

  lemma TwoObey(h: Hub, first: Action, second: Action, p: Policies)
    requires Obeys(h, first, p) && Obeys(Act(h, first), second, p)
    ensures AllObey(h, [first, second], p)
  {
    assert [first, second] == [first] + [second];
    OneObeys(h, first, p);
    RunHubOne(h, first);
    OneObeys(Act(h, first), second, p);
    AllObeyConcat(h, [first], [second], p);
  }

  // ----- every run -----

  lemma {:induction false} FanOutAppends(h: Hub, event: Id, order: seq<Id>, now: Time, log: seq<Command>, p: Policy)
    returns (longer: seq<Command>)
    requires Run(EMPTY_STATE, log) == h.deliveries && WorkerRun(log, p)
    ensures Run(EMPTY_STATE, longer) == FanOut(h, event, order, now).deliveries && WorkerRun(longer, p)
  {
    longer := log;
    if order != [] {
      longer := FanOutAppends(h, event, order[..|order| - 1], now, log, p);
      var mid := FanOut(h, event, order[..|order| - 1], now);
      if !Queued(mid.routes, Route(event, order[|order| - 1])) {
        longer := Extend(longer, mid.deliveries, Append(mid.nextDelivery, now), p);
      }
    }
  }

  /** Each queue of a hub sees a run of its own. */
  lemma {:induction false} QueuesAreRuns(log: seq<Action>, p: Policies)
    returns (events: seq<Command>, deliveries: seq<Command>)
    requires AllObey(EMPTY_HUB, log, p)
    ensures Run(EMPTY_STATE, events) == RunHub(EMPTY_HUB, log).outbox && WorkerRun(events, p.events)
    ensures Run(EMPTY_STATE, deliveries) == RunHub(EMPTY_HUB, log).deliveries && WorkerRun(deliveries, p.deliveries)
  {
    events, deliveries := [], [];
    if log != [] {
      var h, a := RunHub(EMPTY_HUB, log[..|log| - 1]), log[|log| - 1];
      events, deliveries := QueuesAreRuns(log[..|log| - 1], p);
      match a
      case Emit(event, _, now) =>
        if event !in h.outbox.rows {
          events := Extend(events, h.outbox, Append(event, now), p.events);
        }
      case WorkOutbox(c) =>
        if !(c.Append? || (c.Acknowledge? && c.ack.Finish?)) {
          events := Extend(events, h.outbox, c, p.events);
        }
      case Publish(event, token, now) =>
        if event in h.types {
          FanOutExtends(h, event, SubscriptionsFor(h.subscriptions, h.types[event]), now);
          if Holds(h, event, token) {
            events := Extend(events, h.outbox, Acknowledge(event, token, Finish(0)), p.events);
            deliveries := FanOutAppends(h, event, SubscriptionsFor(h.subscriptions, h.types[event]), now, deliveries,
                                        p.deliveries);
          }
        }
      case WorkDeliveries(c) =>
        if !c.Append? {
          deliveries := Extend(deliveries, h.deliveries, c, p.deliveries);
        }
      case Subscribe(_, _, _) =>
      case SetActive(_, _) =>
    }
  }

  /**
   No run of relays, delivery workers and operators that keep to their policies claims an event
   or a delivery more often than its allowance since its insertion or latest revival.
   */
  lemma EventsAndDeliveriesAreBounded(log: seq<Action>, p: Policies, id: Id)
    requires AllObey(EMPTY_HUB, log, p)
    ensures var h := RunHub(EMPTY_HUB, log);
            && ClaimsSince(h.outbox.history, id) <= Allowance(SpentBefore(h.outbox.history, id), p.events)
            && ClaimsSince(h.deliveries.history, id) <= Allowance(SpentBefore(h.deliveries.history, id), p.deliveries)
  {
    var events, deliveries := QueuesAreRuns(log, p);
    WorkIsBounded(events, id, p.events);
    WorkIsBounded(deliveries, id, p.deliveries);
  }
}
