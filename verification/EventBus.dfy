/**
 The in-process bus and the inbox that makes its at-least-once delivery count once.

 What a handler does on each attempt is an argument: `None` when it succeeds, the text of its
 error when it throws.
 */
module EventBus {
  import opened Common

  type Consumer = string
  type EventId = nat
  type EventType = int

  datatype Subscription = Subscription(consumer: Consumer, eventType: EventType)

  /** (consumer, event) pairs the inbox has recorded. */
  type Entries = set<(Consumer, EventId)>

  /** How the handler of one subscription answers the successive attempts of one publish. */
  type Tries = nat -> Option<string>

  /** What one delivery leaves: the inbox, the error it ended on, and how often the handler ran. */
  datatype Delivery = Delivery(entries: Entries, failure: Option<string>, succeeded: bool, attempts: nat)

  /** Attempts from number `k` on, with the pair claimed; `lastError` is the error so far. */
  function Attempts(entries: Entries, pair: (Consumer, EventId), tries: Tries, k: nat, max: int,
      lastError: string): Delivery
    decreases max - k
  {
    if k >= max then Delivery(entries, Some(lastError), false, k)
    else
      match tries(k)
      case None => Delivery(entries, None, true, k + 1)
      case Some(error) =>
        var released := entries - {pair};
        Attempts(if k + 1 < max then released + {pair} else released, pair, tries, k + 1, max, error)
  }

  function DeliverOnce(entries: Entries, pair: (Consumer, EventId), tries: Tries, max: int): Delivery {
    if pair in entries then Delivery(entries, None, false, 0)
    else Attempts(entries + {pair}, pair, tries, 0, max, "")
  }

  /** The outcome of the attempts: the first success, or the last error. */
  predicate SomeTrySucceeds(tries: Tries, k: nat, max: int) {
    exists n: nat :: k <= n < max && tries(n).None?
  }

  lemma {:induction false} AttemptsEndAsTheyShould(entries: Entries, pair: (Consumer, EventId), tries: Tries, k: nat,
      max: int, lastError: string)
    requires pair in entries && k < max
    ensures var d := Attempts(entries, pair, tries, k, max, lastError);
            && d.succeeded == SomeTrySucceeds(tries, k, max)
            && d.entries == (if d.succeeded then entries else entries - {pair})
            && d.failure == (if d.succeeded then None else tries(max - 1))
            && (!d.succeeded ==> d.attempts == max)
    decreases max - k
  {
    if tries(k).Some? && k + 1 < max {
      var released := entries - {pair};
      assert released + {pair} == entries;
      AttemptsEndAsTheyShould(entries, pair, tries, k + 1, max, tries(k).value);
      assert SomeTrySucceeds(tries, k, max) <==> SomeTrySucceeds(tries, k + 1, max);
    }
  }

  /** One delivery: recorded afterwards exactly when it was recorded before or an attempt succeeded. */
  lemma DeliverRecordsSuccess(entries: Entries, pair: (Consumer, EventId), tries: Tries, max: int)
    requires max >= 1
    ensures var d := DeliverOnce(entries, pair, tries, max);
            && (pair in d.entries <==> pair in entries || SomeTrySucceeds(tries, 0, max))
            && d.entries - {pair} == entries - {pair}
            && (d.succeeded <==> pair !in entries && SomeTrySucceeds(tries, 0, max))
            && (d.failure.Some? <==> pair !in d.entries)
            && (d.failure.Some? ==> d.failure == tries(max - 1) && d.attempts == max)
  {
    if pair !in entries {
      AttemptsEndAsTheyShould(entries + {pair}, pair, tries, 0, max, "");
    }
  }

  // ----- one publish -----

  datatype DeadLetter = DeadLetter(event: EventId, consumer: Consumer, error: string, attempts: nat)

  datatype Published = Published(
    entries: Entries,
    failures: seq<(Consumer, string)>,
    successes: seq<(Consumer, EventId)>,
    letters: seq<DeadLetter>)

  /** `if (failure)`: an empty error text does not count as a failure. */
  predicate Counts(failure: Option<string>) {
    failure.Some? && failure.value != ""
  }

  /** A delivery that ran out of attempts leaves a dead letter, whatever its text. */
  function LetterOf(d: Delivery, event: EventId, consumer: Consumer): seq<DeadLetter> {
    if d.failure.Some? then [DeadLetter(event, consumer, d.failure.value, d.attempts)] else []
  }

  /** The first `n` subscriptions of a publish; `world(i)` is how the `i`-th handler answers. */
  function PublishTo(entries: Entries, subs: seq<Subscription>, event: EventId, eventType: EventType,
      world: nat -> Tries, max: int, n: nat): Published
    requires n <= |subs|
  {
    if n == 0 then Published(entries, [], [], [])
    else
      var earlier := PublishTo(entries, subs, event, eventType, world, max, n - 1);
      var sub := subs[n - 1];
      if sub.eventType != eventType then earlier
      else
        var d := DeliverOnce(earlier.entries, (sub.consumer, event), world(n - 1), max);
        Published(d.entries,
                  if Counts(d.failure) then earlier.failures + [(sub.consumer, d.failure.value)] else earlier.failures,
                  if d.succeeded then earlier.successes + [(sub.consumer, event)] else earlier.successes,
                  earlier.letters + LetterOf(d, event, sub.consumer))
  }

  function Publish(entries: Entries, subs: seq<Subscription>, event: EventId, eventType: EventType,
      world: nat -> Tries, max: int): Published
  {
    PublishTo(entries, subs, event, eventType, world, max, |subs|)
  }

  predicate Matches(subs: seq<Subscription>, i: nat, eventType: EventType) {
    i < |subs| && subs[i].eventType == eventType
  }

  predicate DistinctConsumers(subs: seq<Subscription>) {
    forall i, j :: 0 <= i < j < |subs| && subs[i].eventType == subs[j].eventType
        ==> subs[i].consumer != subs[j].consumer
  }

  /** A consumer nobody delivers to twice is recorded exactly by its own delivery. */
  ghost predicate OwnDelivery(entries: Entries, after: Entries, sub: Subscription, event: EventId, tries: Tries,
      max: int)
  {
    (sub.consumer, event) in after <==> (sub.consumer, event) in entries || SomeTrySucceeds(tries, 0, max)
  }

  lemma {:induction false} EachConsumerIsAttempted(entries: Entries, subs: seq<Subscription>, event: EventId,
      eventType: EventType, world: nat -> Tries, max: int, n: nat, i: nat)
    requires max >= 1 && DistinctConsumers(subs) && i < n <= |subs| && subs[i].eventType == eventType
    ensures OwnDelivery(entries, PublishTo(entries, subs, event, eventType, world, max, n).entries, subs[i], event,
                        world(i), max)
  {
    var earlier := PublishTo(entries, subs, event, eventType, world, max, n - 1);
    var pair := (subs[i].consumer, event);
    if i < n - 1 {
      EachConsumerIsAttempted(entries, subs, event, eventType, world, max, n - 1, i);
      if subs[n - 1].eventType == eventType {
        var other := (subs[n - 1].consumer, event);
        DeliverRecordsSuccess(earlier.entries, other, world(n - 1), max);
        assert pair in DeliverOnce(earlier.entries, other, world(n - 1), max).entries - {other}
               <==> pair in earlier.entries - {other};
      }
    } else {
      OthersKeepEntries(entries, subs, event, eventType, world, max, n - 1, i);
      DeliverRecordsSuccess(earlier.entries, pair, world(i), max);
    }
  }

  lemma {:induction false} OthersKeepEntries(entries: Entries, subs: seq<Subscription>, event: EventId,
      eventType: EventType, world: nat -> Tries, max: int, n: nat, i: nat)
    requires max >= 1 && DistinctConsumers(subs) && n <= i < |subs| && subs[i].eventType == eventType
    ensures (subs[i].consumer, event) in PublishTo(entries, subs, event, eventType, world, max, n).entries
            <==> (subs[i].consumer, event) in entries
  {
    if n > 0 {
      OthersKeepEntries(entries, subs, event, eventType, world, max, n - 1, i);
      if subs[n - 1].eventType == eventType {
        var earlier := PublishTo(entries, subs, event, eventType, world, max, n - 1);
        var other, pair := (subs[n - 1].consumer, event), (subs[i].consumer, event);
        DeliverRecordsSuccess(earlier.entries, other, world(n - 1), max);
        assert pair in DeliverOnce(earlier.entries, other, world(n - 1), max).entries - {other}
               <==> pair in earlier.entries - {other};
      }
    }
  }

  /** The consumers a publish leaves unrecorded although they match. */
  ghost predicate Missed(entries: Entries, subs: seq<Subscription>, event: EventId, eventType: EventType,
      world: nat -> Tries, max: int, i: nat)
  {
    Matches(subs, i, eventType)
        && (subs[i].consumer, event) !in Publish(entries, subs, event, eventType, world, max).entries
  }

  ghost predicate CountedFailure(entries: Entries, subs: seq<Subscription>, event: EventId, eventType: EventType,
      world: nat -> Tries, max: int, i: nat)
  {
    Matches(subs, i, eventType) && (subs[i].consumer, event) !in entries && !SomeTrySucceeds(world(i), 0, max)
    && max >= 1 && world(i)(max - 1) != Some("")
  }

  lemma {:induction false} FailuresAreCounted(entries: Entries, subs: seq<Subscription>, event: EventId,
      eventType: EventType, world: nat -> Tries, max: int, n: nat)
    requires max >= 1 && DistinctConsumers(subs) && n <= |subs|
    ensures PublishTo(entries, subs, event, eventType, world, max, n).failures != []
       <==> exists i: nat :: i < n && CountedFailure(entries, subs, event, eventType, world, max, i)
  {
    if n > 0 {
      FailuresAreCounted(entries, subs, event, eventType, world, max, n - 1);
      var sub := subs[n - 1];
      if sub.eventType == eventType {
        var earlier := PublishTo(entries, subs, event, eventType, world, max, n - 1);
        OthersKeepEntries(entries, subs, event, eventType, world, max, n - 1, n - 1);
        DeliverRecordsSuccess(earlier.entries, (sub.consumer, event), world(n - 1), max);
        assert Counts(DeliverOnce(earlier.entries, (sub.consumer, event), world(n - 1), max).failure)
          <==> CountedFailure(entries, subs, event, eventType, world, max, n - 1);
      }
    }
  }

  /**
   `publish` returns normally exactly when every matching consumer is recorded in the inbox
   afterwards or its last error had no text. With texts never empty, returning means recorded.
   */
  lemma PublishReturnsExactlyWhen(entries: Entries, subs: seq<Subscription>, event: EventId, eventType: EventType,
      world: nat -> Tries, max: int)
    requires max >= 1 && DistinctConsumers(subs)
    ensures Publish(entries, subs, event, eventType, world, max).failures == []
       <==> forall i: nat :: Missed(entries, subs, event, eventType, world, max, i) ==> world(i)(max - 1) == Some("")
  {
    FailuresAreCounted(entries, subs, event, eventType, world, max, |subs|);
    forall i: nat | Matches(subs, i, eventType)
      ensures Missed(entries, subs, event, eventType, world, max, i)
         <==> (subs[i].consumer, event) !in entries && !SomeTrySucceeds(world(i), 0, max)
    {
      EachConsumerIsAttempted(entries, subs, event, eventType, world, max, |subs|, i);
    }
    if i: nat :| i < |subs| && CountedFailure(entries, subs, event, eventType, world, max, i) {
      assert Missed(entries, subs, event, eventType, world, max, i);
    }
    if i: nat :| Missed(entries, subs, event, eventType, world, max, i) && world(i)(max - 1) != Some("") {
      assert CountedFailure(entries, subs, event, eventType, world, max, i);
    }
  }

  /** The letter a missed consumer leaves: its last error, after every attempt it was allowed. */
  ghost predicate LetterFor(subs: seq<Subscription>, event: EventId, world: nat -> Tries, max: nat, i: nat,
      letter: DeadLetter)
  {
    && i < |subs| && max >= 1
    && world(i)(max - 1).Some? && letter == DeadLetter(event, subs[i].consumer, world(i)(max - 1).value, max)
  }

  lemma {:induction false} LettersAreForTheUnserved(entries: Entries, subs: seq<Subscription>, event: EventId,
      eventType: EventType, world: nat -> Tries, max: nat, n: nat, letter: DeadLetter)
    requires max >= 1 && DistinctConsumers(subs) && n <= |subs|
    ensures letter in PublishTo(entries, subs, event, eventType, world, max, n).letters
       <==> exists i: nat :: i < n && Unserved(entries, subs, event, eventType, world, max, i)
                             && LetterFor(subs, event, world, max, i, letter)
  {
    if n > 0 {
      LettersAreForTheUnserved(entries, subs, event, eventType, world, max, n - 1, letter);
      var sub := subs[n - 1];
      if sub.eventType == eventType {
        var earlier := PublishTo(entries, subs, event, eventType, world, max, n - 1);
        OthersKeepEntries(entries, subs, event, eventType, world, max, n - 1, n - 1);
        DeliverRecordsSuccess(earlier.entries, (sub.consumer, event), world(n - 1), max);
        assert letter in LetterOf(DeliverOnce(earlier.entries, (sub.consumer, event), world(n - 1), max), event,
                                  sub.consumer)
          <==> Unserved(entries, subs, event, eventType, world, max, n - 1)
               && LetterFor(subs, event, world, max, n - 1, letter);
      }
    }
  }

  /** The matching consumers whose handler neither had succeeded before nor succeeds now. */
  ghost predicate Unserved(entries: Entries, subs: seq<Subscription>, event: EventId, eventType: EventType,
      world: nat -> Tries, max: int, i: nat)
  {
    Matches(subs, i, eventType) && (subs[i].consumer, event) !in entries && !SomeTrySucceeds(world(i), 0, max)
  }

  /**
   A publish leaves a dead letter for a consumer exactly when it leaves it unrecorded, carrying
   the consumer's last error and the full count of attempts, empty texts included.
   */
  lemma DeadLettersAreTheMissed(entries: Entries, subs: seq<Subscription>, event: EventId, eventType: EventType,
      world: nat -> Tries, max: nat, letter: DeadLetter)
    requires max >= 1 && DistinctConsumers(subs)
    ensures letter in Publish(entries, subs, event, eventType, world, max).letters
       <==> exists i: nat :: Missed(entries, subs, event, eventType, world, max, i)
                             && LetterFor(subs, event, world, max, i, letter)
  {
    LettersAreForTheUnserved(entries, subs, event, eventType, world, max, |subs|, letter);
    forall i: nat | i < |subs|
      ensures Missed(entries, subs, event, eventType, world, max, i)
         <==> Unserved(entries, subs, event, eventType, world, max, i)
    {
      if Matches(subs, i, eventType) {
        EachConsumerIsAttempted(entries, subs, event, eventType, world, max, |subs|, i);
      }
    }
  }

  /** A delivery that may not be attempted claims the pair and keeps it. */
  ghost predicate Claimed(subs: seq<Subscription>, event: EventId, eventType: EventType, n: nat,
      pair: (Consumer, EventId))
  {
    exists i: nat :: i < n && Matches(subs, i, eventType) && pair == (subs[i].consumer, event)
  }

  lemma {:induction false} NoAttemptsClaim(entries: Entries, subs: seq<Subscription>, event: EventId,
      eventType: EventType, world: nat -> Tries, max: int, n: nat, pair: (Consumer, EventId))
    requires max <= 0 && n <= |subs|
    ensures var p := PublishTo(entries, subs, event, eventType, world, max, n);
            && p.failures == [] && p.successes == []
            && (pair in p.entries <==> pair in entries || Claimed(subs, event, eventType, n, pair))
            && (DeadLetter(pair.1, pair.0, "", 0) in p.letters
                <==> pair !in entries && Claimed(subs, event, eventType, n, pair))
  {
    if n > 0 {
      NoAttemptsClaim(entries, subs, event, eventType, world, max, n - 1, pair);
      assert Claimed(subs, event, eventType, n, pair)
        <==> Claimed(subs, event, eventType, n - 1, pair)
             || (Matches(subs, n - 1, eventType) && pair == (subs[n - 1].consumer, event));
    }
  }

  /**
   With no attempts allowed, every publish returns, nobody is run, and every matching consumer is
   recorded as if it had been; each one newly recorded leaves a dead letter of no text.
   */
  lemma NoAttemptsLookLikeSuccess(entries: Entries, subs: seq<Subscription>, event: EventId, eventType: EventType,
      world: nat -> Tries, max: int)
    requires max <= 0
    ensures var p := Publish(entries, subs, event, eventType, world, max);
            && p.failures == [] && p.successes == []
            && (forall pair :: pair in p.entries <==> pair in entries || Claimed(subs, event, eventType, |subs|, pair))
            && (forall pair: (Consumer, EventId) ::
                  DeadLetter(pair.1, pair.0, "", 0) in p.letters
                  <==> pair !in entries && Claimed(subs, event, eventType, |subs|, pair))
  {
    forall pair: (Consumer, EventId) {
      NoAttemptsClaim(entries, subs, event, eventType, world, max, |subs|, pair);
    }
    NoAttemptsClaim(entries, subs, event, eventType, world, max, |subs|, ("", event));
  }

  /** A handler that always throws an empty text: nobody is served, a letter is left, and the publish returns. */
  lemma EmptyTextLooksLikeSuccess(entries: Entries, consumer: Consumer, event: EventId, eventType: EventType, max: nat)
    requires (consumer, event) !in entries && max >= 1
    ensures var p := Publish(entries, [Subscription(consumer, eventType)], event, eventType, _ => _ => Some(""), max);
            && p.failures == [] && p.successes == [] && (consumer, event) !in p.entries
            && p.letters == [DeadLetter(event, consumer, "", max)]
  {
    var subs := [Subscription(consumer, eventType)];
    var silent: Tries := _ => Some("");
    assert PublishTo(entries, subs, event, eventType, _ => silent, max, 0) == Published(entries, [], [], []);
    DeliverRecordsSuccess(entries, (consumer, event), silent, max);
  }

  // ----- over any number of publishes -----

  datatype Occasion = Occasion(event: EventId, eventType: EventType, world: nat -> Tries)

  datatype Bus = Bus(entries: Entries, successes: seq<(Consumer, EventId)>)

  function Deliveries(subs: seq<Subscription>, max: int, log: seq<Occasion>): Bus {
    if log == [] then Bus({}, [])
    else
      var earlier := Deliveries(subs, max, log[..|log| - 1]);
      var o := log[|log| - 1];
      var p := Publish(earlier.entries, subs, o.event, o.eventType, o.world, max);
      Bus(p.entries, earlier.successes + p.successes)
  }

  ghost predicate RecordedOnce(entries: Entries, successes: seq<(Consumer, EventId)>) {
    && (forall k :: 0 <= k < |successes| ==> successes[k] in entries)
    && (forall j, k :: 0 <= j < k < |successes| ==> successes[j] != successes[k])
  }

  lemma {:induction false} PublishKeepsRecordedOnce(entries: Entries, past: seq<(Consumer, EventId)>,
      subs: seq<Subscription>, event: EventId, eventType: EventType, world: nat -> Tries, max: int, n: nat)
    requires n <= |subs| && RecordedOnce(entries, past)
    ensures var p := PublishTo(entries, subs, event, eventType, world, max, n);
            RecordedOnce(p.entries, past + p.successes)
  {
    if n > 0 {
      PublishKeepsRecordedOnce(entries, past, subs, event, eventType, world, max, n - 1);
      var earlier := PublishTo(entries, subs, event, eventType, world, max, n - 1);
      if subs[n - 1].eventType == eventType {
        var pair := (subs[n - 1].consumer, event);
        DeliverKeepsOthers(earlier.entries, pair, world(n - 1), max);
        assert past + (earlier.successes + [pair]) == (past + earlier.successes) + [pair];
      }
    } else {
      assert past + [] == past;
    }
  }

  lemma DeliverKeepsOthers(entries: Entries, pair: (Consumer, EventId), tries: Tries, max: int)
    ensures entries <= DeliverOnce(entries, pair, tries, max).entries
    ensures DeliverOnce(entries, pair, tries, max).succeeded
            ==> pair !in entries && pair in DeliverOnce(entries, pair, tries, max).entries
  {
    if max >= 1 {
      DeliverRecordsSuccess(entries, pair, tries, max);
      var after := DeliverOnce(entries, pair, tries, max).entries;
      forall x | x in entries
        ensures x in after
      {
        assert x != pair ==> x in entries - {pair} && x in after - {pair};
      }
    }
  }

  /** However often events are redelivered, each consumer's handler succeeds at most once per event. */
  lemma {:induction false} EachHandlerSucceedsAtMostOnce(subs: seq<Subscription>, max: int, log: seq<Occasion>)
    ensures RecordedOnce(Deliveries(subs, max, log).entries, Deliveries(subs, max, log).successes)
  {
    if log != [] {
      EachHandlerSucceedsAtMostOnce(subs, max, log[..|log| - 1]);
      var earlier, o := Deliveries(subs, max, log[..|log| - 1]), log[|log| - 1];
      PublishKeepsRecordedOnce(earlier.entries, earlier.successes, subs, o.event, o.eventType, o.world, max, |subs|);
    }
  }

  ghost predicate OnlyTheServed(entries: Entries, successes: seq<(Consumer, EventId)>) {
    forall pair :: pair in entries ==> pair in successes
  }

  lemma {:induction false} PublishRecordsTheServed(entries: Entries, past: seq<(Consumer, EventId)>,
      subs: seq<Subscription>, event: EventId, eventType: EventType, world: nat -> Tries, max: int, n: nat)
    requires max >= 1 && n <= |subs| && OnlyTheServed(entries, past)
    ensures var p := PublishTo(entries, subs, event, eventType, world, max, n);
            OnlyTheServed(p.entries, past + p.successes)
  {
    if n > 0 {
      PublishRecordsTheServed(entries, past, subs, event, eventType, world, max, n - 1);
      var earlier := PublishTo(entries, subs, event, eventType, world, max, n - 1);
      if subs[n - 1].eventType == eventType {
        ServedOrAsBefore(earlier.entries, past + earlier.successes, (subs[n - 1].consumer, event), world(n - 1), max);
        var pair := (subs[n - 1].consumer, event);
        assert past + (earlier.successes + [pair]) == (past + earlier.successes) + [pair];
      }
    } else {
      assert past + [] == past;
    }
  }

  lemma ServedOrAsBefore(entries: Entries, past: seq<(Consumer, EventId)>, pair: (Consumer, EventId), tries: Tries,
      max: int)
    requires max >= 1 && OnlyTheServed(entries, past)
    ensures var d := DeliverOnce(entries, pair, tries, max);
            OnlyTheServed(d.entries, if d.succeeded then past + [pair] else past)
  {
    DeliverRecordsSuccess(entries, pair, tries, max);
    var d := DeliverOnce(entries, pair, tries, max);
    forall x | x in d.entries && x != pair
      ensures x in past
    {
      assert x in d.entries - {pair} && x in entries - {pair};
    }
  }

  /** With at least one attempt, the inbox records exactly the deliveries some handler succeeded at. */
  lemma RecordedExactlyWhenServed(subs: seq<Subscription>, max: int, log: seq<Occasion>,
      pair: (Consumer, EventId))
    requires max >= 1
    ensures var bus := Deliveries(subs, max, log); pair in bus.entries <==> pair in bus.successes
  {
    EachHandlerSucceedsAtMostOnce(subs, max, log);
    EveryRecordWasServed(subs, max, log);
    var bus := Deliveries(subs, max, log);
    if pair in bus.successes {
      var k :| 0 <= k < |bus.successes| && bus.successes[k] == pair;
    }
  }

  lemma {:induction false} EveryRecordWasServed(subs: seq<Subscription>, max: int, log: seq<Occasion>)
    requires max >= 1
    ensures OnlyTheServed(Deliveries(subs, max, log).entries, Deliveries(subs, max, log).successes)
  {
    if log != [] {
      EveryRecordWasServed(subs, max, log[..|log| - 1]);
      var earlier, o := Deliveries(subs, max, log[..|log| - 1]), log[|log| - 1];
      PublishRecordsTheServed(earlier.entries, earlier.successes, subs, o.event, o.eventType, o.world, max, |subs|);
    }
  }

  // ----- objects -----

  class InMemoryInbox {
    var entries: Entries

    constructor ()
      ensures entries == {}
    {
      entries := {};
    }

    method Claim(consumer: Consumer, event: EventId) returns (claimed: bool)
      modifies this
      ensures claimed == ((consumer, event) !in old(entries)) && entries == old(entries) + {(consumer, event)}
    {
      if (consumer, event) in entries {
        return false;
      }
      entries := entries + {(consumer, event)};
      claimed := true;
    }

    method Release(consumer: Consumer, event: EventId)
      modifies this
      ensures entries == old(entries) - {(consumer, event)}
    {
      entries := entries - {(consumer, event)};
    }
  }

  datatype PublishOutcome = Returned | InvalidEnvelope | NotConsumed(failures: seq<(Consumer, string)>)

  class LocalEventBus {
    const inbox: InMemoryInbox
    const maxAttempts: int
    var subs: seq<Subscription>
    var deadLetters: seq<DeadLetter>
    ghost var successes: seq<(Consumer, EventId)>

    constructor (inbox: InMemoryInbox, maxAttempts: int)
      ensures this.inbox == inbox && this.maxAttempts == maxAttempts && subs == [] && successes == []
    {
      this.inbox, this.maxAttempts := inbox, maxAttempts;
      subs, deadLetters, successes := [], [], [];
    }

    method Subscribe(consumer: Consumer, eventType: EventType)
      modifies this`subs
      ensures subs == old(subs) + [Subscription(consumer, eventType)]
    {
      subs := subs + [Subscription(consumer, eventType)];
    }

    /** Claim, try, release and claim again until an attempt succeeds or none is left. */
    method Deliver(consumer: Consumer, event: EventId, tries: Tries) returns (failure: Option<string>)
      modifies this`deadLetters, this`successes, inbox
      ensures var d := DeliverOnce(old(inbox.entries), (consumer, event), tries, maxAttempts);
              && inbox.entries == d.entries && failure == d.failure
              && successes == (if d.succeeded then old(successes) + [(consumer, event)] else old(successes))
              && deadLetters == old(deadLetters) + LetterOf(d, event, consumer)
    {
      ghost var start, pair := inbox.entries, (consumer, event);
      var claimed := inbox.Claim(consumer, event);
      if !claimed {
        return None;
      }
      var attempts, lastError := 0, "";
      while attempts < maxAttempts
        invariant successes == old(successes) && deadLetters == old(deadLetters)
        invariant Attempts(inbox.entries, pair, tries, attempts, maxAttempts, lastError)
               == Attempts(start + {pair}, pair, tries, 0, maxAttempts, "")
      {
        attempts := attempts + 1;
        match tries(attempts - 1)
        case None =>
          successes := successes + [pair];
          return None;
        case Some(error) =>
          lastError := error;
          inbox.Release(consumer, event);
          if attempts < maxAttempts {
            var again := inbox.Claim(consumer, event);
          }
      }
      deadLetters := deadLetters + [DeadLetter(event, consumer, lastError, attempts)];
      failure := Some(lastError);
    }

    /**
     Every matching subscriber is attempted before the publish throws; a malformed envelope is
     refused before anybody is.
     */
    method PublishEvent(event: EventId, eventType: EventType, valid: bool, world: nat -> Tries)
      returns (outcome: PublishOutcome)
      modifies this`deadLetters, this`successes, inbox
      ensures !valid ==> outcome == InvalidEnvelope && inbox.entries == old(inbox.entries)
                         && deadLetters == old(deadLetters) && successes == old(successes)
      ensures valid ==>
                var p := Publish(old(inbox.entries), subs, event, eventType, world, maxAttempts);
                && inbox.entries == p.entries && successes == old(successes) + p.successes
                && deadLetters == old(deadLetters) + p.letters
                && outcome == if p.failures == [] then Returned else NotConsumed(p.failures)
    {
      if !valid {
        return InvalidEnvelope;
      }
      ghost var start := inbox.entries;
      var failures: seq<(Consumer, string)> := [];
      for n := 0 to |subs|
        invariant var p := PublishTo(start, subs, event, eventType, world, maxAttempts, n);
                  && inbox.entries == p.entries && failures == p.failures
                  && successes == old(successes) + p.successes
                  && deadLetters == old(deadLetters) + p.letters
      {
        if subs[n].eventType == eventType {
          var failure := Deliver(subs[n].consumer, event, world(n));
          if failure.Some? && failure.value != "" {
            failures := failures + [(subs[n].consumer, failure.value)];
          }
        }
      }
      outcome := if failures == [] then Returned else NotConsumed(failures);
    }
  }
}
