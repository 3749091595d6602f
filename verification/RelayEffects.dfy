/**
 What one item of a drain does to its row and to the worker's counters, said of the rows before and
 after it: for the relay, whose items are events, and for the worker that drains the deliveries.
 */
module RelayEffects {
  import opened Backoff
  import opened Common
  import opened Queue
  import opened QueueRuns
  import opened Relay
  import opened RelayService
  import D = DeliveryWorker

  /** An event as a relay that kept its claim leaves it. */
  predicate Relayed(before: Row, row: Row, attempts: nat, failure: Option<string>, now: Time, settings: Settings) {
    && row.token.None? && row.claimedAt.None? && row.reclaims == before.reclaims && row.arrival == before.arrival
    && (row.status == Finished <==> failure.None?)
    && (row.status == Pending <==> failure.Some? && attempts + 1 < settings.policy.maxAttempts)
    && (row.status == Pending ==> row.nextAttempt == now + Doubled(settings.baseBackoff, attempts))
    && row.attempts == before.attempts + (if failure.Some? then 1 else 0)
    && row.lastError == if failure.Some? then Reported(failure.value) else NoFault
  }

  /** A hub whose other events, and whose deliveries unless this one was published, are as they were. */
  ghost predicate OnlyThisEvent(h: Hub, after: Hub, id: Id, published: bool) {
    && after.outbox.rows.Keys == h.outbox.rows.Keys && after.outbox.nextToken == h.outbox.nextToken
    && (forall i :: i in h.outbox.rows && i != id ==> after.outbox.rows[i] == h.outbox.rows[i])
    && after.types == h.types && after.subscriptions == h.subscriptions
    && (!published ==> after.deliveries == h.deliveries && after.routes == h.routes && after.published == h.published)
  }

  lemma FailureEndsAsItShould(h: Hub, id: Id, token: Token, attempts: nat, error: string, now: Time,
      settings: Settings)
    requires Holds(h, id, token) && h.outbox.rows[id].status == Pending
    ensures var after := Act(h, PublishStep(id, token, attempts, Some(error), now, settings));
            && OnlyThisEvent(h, after, id, false)
            && Relayed(h.outbox.rows[id], after.outbox.rows[id], attempts, Some(error), now, settings)
  {
    BackoffDoubles(settings.baseBackoff, attempts);
  }

  lemma PublishingFinishes(h: Hub, id: Id, token: Token, attempts: nat, now: Time, settings: Settings)
    requires Holds(h, id, token) && id in h.types
    ensures var after := Act(h, PublishStep(id, token, attempts, None, now, settings));
            && OnlyThisEvent(h, after, id, true)
            && Relayed(h.outbox.rows[id], after.outbox.rows[id], attempts, None, now, settings)
  {
    FanOutSharesTheRest(h, id, SubscriptionsFor(h.subscriptions, h.types[id]), now);
  }

  lemma {:induction false} FanOutSharesTheRest(h: Hub, event: Id, order: seq<Id>, now: Time)
    ensures SameButDeliveries(h, FanOut(h, event, order, now))
  {
    if order != [] {
      FanOutSharesTheRest(h, event, order[..|order| - 1], now);
    }
  }

  lemma FencedLeavesNothing(h: Hub, id: Id, token: Token, attempts: nat, failure: Option<string>, now: Time,
      settings: Settings)
    requires !Holds(h, id, token)
    ensures var after := Act(h, PublishStep(id, token, attempts, failure, now, settings));
            after == h.(nextDelivery := after.nextDelivery)
  {
  }

  /**
   What relaying one claimed event leaves behind, however others acted meanwhile. A relay that lost
   its claim leaves nothing but spent identifiers. Otherwise the event is published exactly when
   nothing failed; it waits, for the base wait doubled as often as it failed before, exactly when it
   failed within the budget; and it is dead in every other case. A failure costs it one attempt.
   */
  lemma PublishEndsAsItShould(h: Hub, id: Id, token: Token, attempts: nat, failure: Option<string>, now: Time,
      settings: Settings)
    requires Whole(h)
    ensures var after := Act(h, PublishStep(id, token, attempts, failure, now, settings));
            if !Holds(h, id, token) then after == h.(nextDelivery := after.nextDelivery)
            else
              && OnlyThisEvent(h, after, id, failure.None?)
              && Relayed(h.outbox.rows[id], after.outbox.rows[id], attempts, failure, now, settings)
  {
    if !Holds(h, id, token) {
      FencedLeavesNothing(h, id, token, attempts, failure, now, settings);
    } else {
      assert InStep(h.outbox, id);
      match failure
      case None => PublishingFinishes(h, id, token, attempts, now, settings);
      case Some(error) => FailureEndsAsItShould(h, id, token, attempts, error, now, settings);
    }
  }

  /**
   The counters read the same off the rows: published and fenced exactly as the claim went. A failure
   is counted by the budget alone, whether or not the claim still stood when it was written.
   */
  lemma RelayCountsTheEnding(counts: PublisherResult, here: Hub, id: Id, token: Token, attempts: nat,
      failure: Option<string>, now: Time, settings: Settings)
    requires Whole(here)
    ensures var after := Act(here, PublishStep(id, token, attempts, failure, now, settings));
            var result := CountItem(counts, here, id, token, attempts, failure, settings);
            && result.reclaimed == counts.reclaimed && result.reclaimExhausted == counts.reclaimExhausted
            && result.published == counts.published + (if failure.None? && Holds(here, id, token) then 1 else 0)
            && result.fenced == counts.fenced + (if failure.None? && !Holds(here, id, token) then 1 else 0)
            && result.dead == counts.dead
                              + (if failure.Some? && attempts + 1 >= settings.policy.maxAttempts then 1 else 0)
            && result.failed == counts.failed
                                + (if failure.Some? && attempts + 1 < settings.policy.maxAttempts then 1 else 0)
            && (Holds(here, id, token) ==>
                  var status := after.outbox.rows[id].status;
                  && (result.published > counts.published <==> status == Finished)
                  && (result.failed > counts.failed <==> status == Pending)
                  && (result.dead > counts.dead <==> status == Dead))
  {
    PublishEndsAsItShould(here, id, token, attempts, failure, now, settings);
  }

  /** A delivery is counted as what its row then says, or as fenced when the claim was lost. */
  lemma DeliveryCountsTheEnding(counts: D.DeliveryResult, h: Hub, id: Id, token: Token, attempts: nat,
      world: Id -> D.Attempt, now: Time, settings: Settings)
    requires Whole(h) && id in h.routes
    ensures var there := D.AtAnswer(h, world, id);
            var after := D.AfterDelivery(h, id, token, attempts, world, now, settings);
            var result := D.AfterCount(counts, h, id, token, attempts, world, now, settings);
            var off := D.IsSwitchedOff(D.AtSending(h, world, id), id);
            && result.reclaimed == counts.reclaimed && result.reclaimExhausted == counts.reclaimExhausted
            && if !D.HoldsDelivery(there, id, token) then result == counts.(fenced := counts.fenced + 1)
               else
                 var status := after.deliveries.rows[id].status;
                 && result.fenced == counts.fenced
                 && result.delivered == counts.delivered + (if status == Finished then 1 else 0)
                 && result.failed == counts.failed + (if status == Pending then 1 else 0)
                 && result.suppressed == counts.suppressed + (if status == Dead && off then 1 else 0)
                 && result.dead == counts.dead + (if status == Dead && !off then 1 else 0)
  {
    D.AttemptEndsAsItShould(h, id, token, attempts, world, now, settings);
    if D.HoldsDelivery(D.AtAnswer(h, world, id), id, token) {
      D.HeldIsPending(h, world, id, token);
      D.EndingIs(D.AtSending(h, world, id), id, attempts, world(id).answer, now, settings);
    }
  }
}
