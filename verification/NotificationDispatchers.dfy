/**
 Any number of dispatchers on one store. Each of them recovers, claims, sends under the leases it
 was handed and acknowledges them, in any interleaving, however late, or dies on the way. Nothing
 is supposed of them but that they run the dispatcher's code under one configuration.
 */
module NotificationDispatchers {
  import opened Common
  import opened Notifications
  import opened NotificationService

  /** `handed` is every lease any dispatcher was given; `unsent` those it has not sent under yet. */
  datatype Office = Office(store: State, handed: set<Lease>, unsent: set<Lease>)

  const EMPTY_OFFICE := Office(EMPTY_STATE, {}, {})

  datatype Action =
    | Arrive(id: Id, now: Time, addressed: bool)
    | Recover(now: Time, limit: nat)
    | Claim(now: Time, limit: nat)
    | SendUnder(lease: Lease)
    | End(lease: Lease, answer: Answer, now: Time)

  /** The statement an action puts to the store, if it may be taken at all. */
  function CommandOf(o: Office, a: Action, settings: Settings): Option<Command> {
    match a
    case Arrive(id, now, addressed) => Some(Enqueue(id, now, addressed))
    case Recover(now, limit) => Some(ReclaimExpired(now, settings.maxAttempts, limit))
    case Claim(now, limit) => Some(ClaimDue(now, limit, settings.lease))
    case SendUnder(l) => if l in o.unsent then Some(Send(l.id, l.token)) else None
    case End(l, answer, now) =>
      if l in o.handed then Some(Acknowledge(l.id, l.token, AckFor(answer, l.attempts, now, settings))) else None
  }

  function HandedOut(s: State, now: Time, limit: nat): set<Lease> {
    set l | l in Leases(s, DueBatch(s.rows, now, limit))
  }

  function Act(o: Office, a: Action, settings: Settings): Office {
    match CommandOf(o, a, settings)
    case None => o
    case Some(c) =>
      var given := if a.Claim? then HandedOut(o.store, a.now, a.limit) else {};
      Office(Step(o.store, c), o.handed + given, o.unsent + given - if a.SendUnder? then {a.lease} else {})
  }

  function RunOffice(o: Office, log: seq<Action>, settings: Settings): Office {
    if log == [] then o else Act(RunOffice(o, log[..|log| - 1], settings), log[|log| - 1], settings)
  }

  // ----- what a step adds to the history -----

  ghost predicate SameSends(s: State, after: State) {
    && (forall m :: m in s.history ==> m in after.history)
    && (forall m: Mark :: m.Sent? && m in after.history ==> m in s.history)
  }

  lemma {:induction false} ClaimBatchSendsNothing(s: State, batch: seq<Id>, now: Time, lease: int)
    requires forall i :: i in batch ==> i in s.rows
    ensures SameSends(s, ClaimBatch(s, batch, now, lease))
  {
    if batch != [] {
      ClaimBatchSendsNothing(s, batch[..|batch| - 1], now, lease);
    }
  }

  lemma {:induction false} ReclaimBatchSendsNothing(s: State, batch: seq<Id>, maxAttempts: int)
    requires forall i :: i in batch ==> i in s.rows
    ensures SameSends(s, ReclaimBatch(s, batch, maxAttempts))
  {
    if batch != [] {
      ReclaimBatchSendsNothing(s, batch[..|batch| - 1], maxAttempts);
    }
  }

  lemma OnlySendsSend(s: State, c: Command)
    requires !c.Send?
    ensures SameSends(s, Step(s, c))
  {
    match c
    case ClaimDue(now, limit, lease) => ClaimBatchSendsNothing(s, DueBatch(s.rows, now, limit), now, lease);
    case ReclaimExpired(now, maxAttempts, limit) =>
      ReclaimBatchSendsNothing(s, AbandonedBatch(s.rows, now, limit), maxAttempts);
    case _ =>
  }

  /** A lease handed out has a token of its own, and its claim is on record. */
  lemma {:induction false} LeasesAreFresh(s: State, batch: seq<Id>, now: Time, lease: int)
    requires forall i :: i in batch ==> i in s.rows
    ensures forall l :: l in Leases(s, batch) ==>
              s.tokens <= l.token < s.tokens + |batch|
                  && Claimed(l.id, l.token) in ClaimBatch(s, batch, now, lease).history
    ensures forall l, k :: l in Leases(s, batch) && k in Leases(s, batch) && l.token == k.token ==> l == k
    ensures ClaimBatch(s, batch, now, lease).tokens == s.tokens + |batch|
  {
    if batch != [] {
      var shorter, id := batch[..|batch| - 1], batch[|batch| - 1];
      LeasesAreFresh(s, shorter, now, lease);
      var last := Lease(id, s.tokens + |batch| - 1, s.rows[id].attempts + 1);
      assert Leases(s, batch) == Leases(s, shorter) + [last];
      var mid := ClaimBatch(s, shorter, now, lease);
      assert ClaimOne(mid, id, now, lease).history == mid.history + [Claimed(id, last.token)];
    }
  }

  // ----- what every reachable office satisfies -----

  ghost predicate Sound(o: Office, settings: Settings) {
    && Consistent(o.store, settings.maxAttempts)
    && (forall l :: l in o.handed ==> Told(o.store, l))
    && (forall l, k :: l in o.handed && k in o.handed && l.token == k.token ==> l == k)
    && o.unsent <= o.handed
    && (forall l :: l in o.unsent ==> MaySend(o.store, l.id, l.token))
  }

  /** What an action asks of the store is always within the budget. */
  lemma ActionsObey(o: Office, a: Action, settings: Settings)
    requires Sound(o, settings) && CommandOf(o, a, settings).Some?
    ensures DispatcherStep(o.store, CommandOf(o, a, settings).value, settings.maxAttempts)
  {
    if a.End? {
      AcknowledgementIsDisciplined(o.store, a.lease, a.answer, a.now, settings);
    }
  }

  lemma StillUnsent(s: State, c: Command, l: Lease)
    requires MaySend(s, l.id, l.token) && (c.Send? ==> c.token != l.token)
    ensures MaySend(Step(s, c), l.id, l.token)
  {
    if !c.Send? {
      OnlySendsSend(s, c);
    }
  }

  lemma ClaimKeepsSound(o: Office, now: Time, limit: nat, settings: Settings)
    requires Sound(o, settings)
    ensures Sound(Act(o, Claim(now, limit), settings), settings)
  {
    var s, c := o.store, ClaimDue(now, limit, settings.lease);
    var batch := DueBatch(s.rows, now, limit);
    var after := Step(s, c);
    StepKeepsConsistent(s, c, settings.maxAttempts);
    BatchIsDistinct(s.rows, DueIds(s.rows, now), limit);
    ClaimingTells(s, batch, now, settings.lease);
    LeasesAreFresh(s, batch, now, settings.lease);
    OnlySendsSend(s, c);
    forall l | l in HandedOut(s, now, limit)
      ensures Told(after, l) && MaySend(after, l.id, l.token)
    {
      assert Sent(l.id, l.token) !in s.history;
    }
    forall l | l in o.handed
      ensures Told(after, l)
    {
      StepKeepsTold(s, c, l);
    }
    forall l | l in o.unsent
      ensures MaySend(after, l.id, l.token)
    {
      StillUnsent(s, c, l);
    }
  }

  lemma ActKeepsSound(o: Office, a: Action, settings: Settings)
    requires Sound(o, settings)
    ensures Sound(Act(o, a, settings), settings)
  {
    if a.Claim? {
      ClaimKeepsSound(o, a.now, a.limit, settings);
    } else if CommandOf(o, a, settings).Some? {
      var c := CommandOf(o, a, settings).value;
      ActionsObey(o, a, settings);
      StepKeepsConsistent(o.store, c, settings.maxAttempts);
      var after := Act(o, a, settings);
      forall l | l in o.handed
        ensures Told(after.store, l)
      {
        StepKeepsTold(o.store, c, l);
      }
      forall l | l in after.unsent
        ensures MaySend(after.store, l.id, l.token)
      {
        StillUnsent(o.store, c, l);
      }
    }
  }

  lemma {:induction false} EveryRunIsSound(log: seq<Action>, settings: Settings)
    ensures Sound(RunOffice(EMPTY_OFFICE, log, settings), settings)
  {
    if log == [] {
      EmptyIsConsistent(settings.maxAttempts);
    } else {
      EveryRunIsSound(log[..|log| - 1], settings);
      ActKeepsSound(RunOffice(EMPTY_OFFICE, log[..|log| - 1], settings), log[|log| - 1], settings);
    }
  }

  /**
   Over every run of any number of dispatchers a notification is claimed, and so sent, at most
   `maxAttempts` times (once if that is less than one), stalled dispatchers included.
   */
  lemma SentAtMostMaxAttempts(log: seq<Action>, settings: Settings, id: Id)
    ensures var history := RunOffice(EMPTY_OFFICE, log, settings).store.history;
            Sends(history, id) <= Claims(history, id) <= Budget(settings.maxAttempts)
  {
    EveryRunIsSound(log, settings);
    SentAtMostClaimed(RunOffice(EMPTY_OFFICE, log, settings).store, id, settings.maxAttempts);
  }

  lemma UnsentIsRecorded(o: Office, settings: Settings, l: Lease)
    requires l in o.unsent && MaySend(o.store, l.id, l.token)
    ensures Act(o, SendUnder(l), settings).store.history == o.store.history + [Sent(l.id, l.token)]
  {
  }

  /** Every send a dispatcher makes goes on record, so none escapes the count. */
  lemma EverySendIsRecorded(log: seq<Action>, settings: Settings, l: Lease)
    requires l in RunOffice(EMPTY_OFFICE, log, settings).unsent
    ensures var o := RunOffice(EMPTY_OFFICE, log, settings);
            Act(o, SendUnder(l), settings).store.history == o.store.history + [Sent(l.id, l.token)]
  {
    EveryRunIsSound(log, settings);
    UnsentIsRecorded(RunOffice(EMPTY_OFFICE, log, settings), settings, l);
  }

  // ----- a drain is a run of such actions -----

  /** What other dispatchers do around one send of a drain: before it, and while it is on its way. */
  datatype Meddling = Meddling(before: seq<Action>, during: seq<Action>)

  /** What the actions of a log come to at the store. */
  function Commands(o: Office, log: seq<Action>, settings: Settings): seq<Command> {
    if log == [] then []
    else
      var earlier := Commands(o, log[..|log| - 1], settings);
      match CommandOf(RunOffice(o, log[..|log| - 1], settings), log[|log| - 1], settings)
      case None => earlier
      case Some(c) => earlier + [c]
  }

  lemma {:induction false} CommandsRunAlike(o: Office, log: seq<Action>, settings: Settings)
    ensures RunFrom(o.store, Commands(o, log, settings)) == RunOffice(o, log, settings).store
  {
    if log != [] {
      CommandsRunAlike(o, log[..|log| - 1], settings);
      var earlier := Commands(o, log[..|log| - 1], settings);
      var c := CommandOf(RunOffice(o, log[..|log| - 1], settings), log[|log| - 1], settings);
      if c.Some? {
        assert (earlier + [c.value])[..|earlier|] == earlier;
      }
    }
  }

  function OwnSend(l: Lease, answer: Answer): seq<Action> {
    if ReachesTheChannel(answer) then [SendUnder(l)] else []
  }

  function ItemActions(l: Lease, answer: Answer, others: Meddling, now: Time): seq<Action> {
    others.before + OwnSend(l, answer) + others.during + [End(l, answer, now)]
  }

  function ItemsActions(claimed: seq<Lease>, answers: Id -> Answer, others: Id -> Meddling, now: Time): seq<Action> {
    if claimed == [] then []
    else
      var last := claimed[|claimed| - 1];
      ItemsActions(claimed[..|claimed| - 1], answers, others, now)
      + ItemActions(last, answers(last.id), others(last.id), now)
  }

  function ClaimedBy(o: Office, now: Time, limit: nat, settings: Settings): seq<Lease> {
    var recovered := Act(o, Recover(now, limit), settings).store;
    Leases(recovered, DueBatch(recovered.rows, now, limit))
  }

  function DrainActions(o: Office, now: Time, limit: nat, answers: Id -> Answer, others: Id -> Meddling,
      settings: Settings): seq<Action>
  {
    [Recover(now, limit), Claim(now, limit)]
    + ItemsActions(ClaimedBy(o, now, limit, settings), answers, others, now)
  }

  /** The sending one item meets, when it is its turn. */
  function SendingAt(o: Office, l: Lease, answer: Answer, others: Meddling, settings: Settings): Sending {
    var sent := RunOffice(o, others.before + OwnSend(l, answer), settings);
    Sending(Commands(o, others.before, settings), Commands(sent, others.during, settings), answer)
  }

  lemma {:induction false} RunOfficeConcat(o: Office, left: seq<Action>, right: seq<Action>, settings: Settings)
    ensures RunOffice(o, left + right, settings) == RunOffice(RunOffice(o, left, settings), right, settings)
  {
    if right == [] {
      assert left + right == left;
    } else {
      assert (left + right)[..|left + right| - 1] == left + right[..|right| - 1];
      RunOfficeConcat(o, left, right[..|right| - 1], settings);
    }
  }

  lemma OneAction(o: Office, a: Action, settings: Settings)
    ensures RunOffice(o, [a], settings) == Act(o, a, settings)
  {
    assert [a][..0] == [] && RunOffice(o, [], settings) == o;
  }

  /** The leases are still the drain's to send under. */
  ghost predicate Waiting(o: Office, leases: seq<Lease>) {
    forall l :: l in leases ==> l in o.handed && l in o.unsent
  }

  ghost predicate LeftAlone(log: seq<Action>, leases: seq<Lease>) {
    forall l :: l in leases ==> SendUnder(l) !in log
  }

  lemma {:induction false} OthersLeaveWaiting(o: Office, log: seq<Action>, leases: seq<Lease>, settings: Settings)
    requires Waiting(o, leases) && LeftAlone(log, leases)
    ensures Waiting(RunOffice(o, log, settings), leases)
  {
    if log != [] {
      OthersLeaveWaiting(o, log[..|log| - 1], leases, settings);
      assert log[|log| - 1] in log;
    }
  }

  lemma {:induction false} HandedStays(o: Office, log: seq<Action>, l: Lease, settings: Settings)
    requires l in o.handed
    ensures l in RunOffice(o, log, settings).handed
  {
    if log != [] {
      HandedStays(o, log[..|log| - 1], l, settings);
    }
  }

  /** One item of a drain, with whatever others do around its send. */
  lemma ItemIsARun(o: Office, l: Lease, answer: Answer, others: Meddling, now: Time, settings: Settings)
    requires Waiting(o, [l]) && LeftAlone(others.before, [l])
    ensures RunOffice(o, ItemActions(l, answer, others, now), settings).store
         == AfterItem(o.store, l.id, l.token, l.attempts, SendingAt(o, l, answer, others, settings), now, settings)
  {
    assert l in [l];
    var ready := RunOffice(o, others.before, settings);
    OthersLeaveWaiting(o, others.before, [l], settings);
    CommandsRunAlike(o, others.before, settings);
    RunOfficeConcat(o, others.before, OwnSend(l, answer), settings);
    var sent := RunOffice(o, others.before + OwnSend(l, answer), settings);
    OneAction(ready, SendUnder(l), settings);
    assert sent.store == if ReachesTheChannel(answer) then Step(ready.store, Send(l.id, l.token)) else ready.store;
    CommandsRunAlike(sent, others.during, settings);
    RunOfficeConcat(o, others.before + OwnSend(l, answer), others.during, settings);
    HandedStays(o, others.before + OwnSend(l, answer) + others.during, l, settings);
    RunOfficeConcat(o, others.before + OwnSend(l, answer) + others.during, [End(l, answer, now)], settings);
    OneAction(RunOffice(sent, others.during, settings), End(l, answer, now), settings);
  }

  lemma ItemLeavesWaiting(o: Office, l: Lease, answer: Answer, others: Meddling, now: Time, rest: seq<Lease>,
      settings: Settings)
    requires Waiting(o, rest) && LeftAlone(others.before, rest) && LeftAlone(others.during, rest) && l !in rest
    ensures Waiting(RunOffice(o, ItemActions(l, answer, others, now), settings), rest)
  {
    OthersLeaveWaiting(o, ItemActions(l, answer, others, now), rest, settings);
  }

  ghost predicate DistinctIds(leases: seq<Lease>) {
    forall a, b :: 0 <= a < b < |leases| ==> leases[a].id != leases[b].id && leases[a] != leases[b]
  }

  ghost predicate OthersKeepOff(claimed: seq<Lease>, others: Id -> Meddling) {
    forall l :: l in claimed ==> LeftAlone(others(l.id).before, claimed) && LeftAlone(others(l.id).during, claimed)
  }

  /** The items of a drain before number `n`, and what is still to be sent after them. */
  lemma {:induction false} RestIsWaiting(o: Office, claimed: seq<Lease>, n: nat, answers: Id -> Answer,
      others: Id -> Meddling, now: Time, settings: Settings)
    requires Waiting(o, claimed) && DistinctIds(claimed) && OthersKeepOff(claimed, others) && n <= |claimed|
    ensures Waiting(RunOffice(o, ItemsActions(claimed[..n], answers, others, now), settings), claimed[n..])
  {
    if n > 0 {
      RestIsWaiting(o, claimed, n - 1, answers, others, now, settings);
      var last, rest := claimed[n - 1], claimed[n..];
      assert claimed[..n][..n - 1] == claimed[..n - 1] && claimed[..n][n - 1] == last && last in claimed;
      assert claimed[n - 1..] == [last] + rest;
      var earlier := ItemsActions(claimed[..n - 1], answers, others, now);
      RunOfficeConcat(o, earlier, ItemActions(last, answers(last.id), others(last.id), now), settings);
      ItemLeavesWaiting(RunOffice(o, earlier, settings), last, answers(last.id), others(last.id), now, rest, settings);
    }
  }

  function HereAt(o: Office, claimed: seq<Lease>, k: nat, answers: Id -> Answer, others: Id -> Meddling, now: Time,
      settings: Settings): Office
    requires k <= |claimed|
  {
    RunOffice(o, ItemsActions(claimed[..k], answers, others, now), settings)
  }

  /** Each item's sending is what the others did around it, as it fell in the run. */
  ghost predicate Meets(o: Office, claimed: seq<Lease>, world: Id -> Sending, answers: Id -> Answer,
      others: Id -> Meddling, now: Time, settings: Settings)
  {
    forall k :: 0 <= k < |claimed| ==>
      var l := claimed[k];
      var here := HereAt(o, claimed, k, answers, others, now, settings);
      world(l.id) == SendingAt(here, l, answers(l.id), others(l.id), settings)
  }

  ghost function WorldOf(o: Office, claimed: seq<Lease>, answers: Id -> Answer, others: Id -> Meddling, now: Time,
      settings: Settings): Id -> Sending
  {
    (id: Id) =>
      if k: nat :| k < |claimed| && claimed[k].id == id then
        SendingAt(HereAt(o, claimed, k, answers, others, now, settings), claimed[k], answers(id), others(id), settings)
      else Sending([], [], answers(id))
  }

  lemma WorldMeets(o: Office, claimed: seq<Lease>, answers: Id -> Answer, others: Id -> Meddling, now: Time,
      settings: Settings)
    requires DistinctIds(claimed)
    ensures Meets(o, claimed, WorldOf(o, claimed, answers, others, now, settings), answers, others, now, settings)
  {
  }

  ghost predicate InTurn(here: Office, l: Lease, world: Id -> Sending, answers: Id -> Answer, others: Id -> Meddling,
      settings: Settings)
  {
    && Waiting(here, [l]) && LeftAlone(others(l.id).before, [l])
    && world(l.id) == SendingAt(here, l, answers(l.id), others(l.id), settings)
  }

  lemma ItsTurn(o: Office, claimed: seq<Lease>, n: nat, world: Id -> Sending, answers: Id -> Answer,
      others: Id -> Meddling, now: Time, settings: Settings)
    requires Waiting(o, claimed) && DistinctIds(claimed) && OthersKeepOff(claimed, others) && n < |claimed|
    requires Meets(o, claimed, world, answers, others, now, settings)
    ensures InTurn(HereAt(o, claimed, n, answers, others, now, settings), claimed[n], world, answers, others, settings)
  {
    RestIsWaiting(o, claimed, n, answers, others, now, settings);
    var l := claimed[n];
    assert l in claimed && claimed[n..][0] == l && l in claimed[n..];
    assert SendUnder(l) !in others(l.id).before;
  }

  lemma OneMoreItem(o: Office, here: Office, earlier: seq<Lease>, l: Lease, world: Id -> Sending,
      answers: Id -> Answer, others: Id -> Meddling, now: Time, settings: Settings)
    requires here == RunOffice(o, ItemsActions(earlier, answers, others, now), settings)
    requires here.store == AfterItems(o.store, earlier, world, now, settings)
    requires InTurn(here, l, world, answers, others, settings)
    ensures RunOffice(o, ItemsActions(earlier + [l], answers, others, now), settings).store
         == AfterItems(o.store, earlier + [l], world, now, settings)
  {
    var claimed, item := earlier + [l], ItemActions(l, answers(l.id), others(l.id), now);
    assert claimed[..|claimed| - 1] == earlier && claimed[|claimed| - 1] == l;
    RunOfficeConcat(o, ItemsActions(earlier, answers, others, now), item, settings);
    ItemIsARun(here, l, answers(l.id), others(l.id), now, settings);
  }

  ghost predicate AllInTurn(o: Office, claimed: seq<Lease>, world: Id -> Sending, answers: Id -> Answer,
      others: Id -> Meddling, now: Time, settings: Settings)
  {
    forall k :: 0 <= k < |claimed| ==>
      InTurn(HereAt(o, claimed, k, answers, others, now, settings), claimed[k], world, answers, others, settings)
  }

  /** Where a drain stands after some of its items, and what the same items alone would leave. */
  ghost predicate InStep(o: Office, claimed: seq<Lease>, n: nat, world: Id -> Sending, answers: Id -> Answer,
      others: Id -> Meddling, now: Time, settings: Settings)
    requires n <= |claimed|
  {
    HereAt(o, claimed, n, answers, others, now, settings).store
    == AfterItems(o.store, claimed[..n], world, now, settings)
  }

  lemma NextInStep(o: Office, claimed: seq<Lease>, n: nat, world: Id -> Sending, answers: Id -> Answer,
      others: Id -> Meddling, now: Time, settings: Settings)
    requires 0 < n <= |claimed| && InStep(o, claimed, n - 1, world, answers, others, now, settings)
    requires InTurn(HereAt(o, claimed, n - 1, answers, others, now, settings), claimed[n - 1], world, answers, others,
                    settings)
    ensures InStep(o, claimed, n, world, answers, others, now, settings)
  {
    OneMoreItem(o, HereAt(o, claimed, n - 1, answers, others, now, settings), claimed[..n - 1], claimed[n - 1],
                world, answers, others, now, settings);
    assert claimed[..n] == claimed[..n - 1] + [claimed[n - 1]];
  }

  lemma {:induction false} ItemsAreARun(o: Office, claimed: seq<Lease>, n: nat, world: Id -> Sending,
      answers: Id -> Answer, others: Id -> Meddling, now: Time, settings: Settings)
    requires n <= |claimed| && AllInTurn(o, claimed, world, answers, others, now, settings)
    ensures InStep(o, claimed, n, world, answers, others, now, settings)
  {
    if n > 0 {
      ItemsAreARun(o, claimed, n - 1, world, answers, others, now, settings);
      NextInStep(o, claimed, n, world, answers, others, now, settings);
    }
  }

  lemma ClaimedWait(o: Office, now: Time, limit: nat, settings: Settings)
    ensures var claimed := ClaimedBy(o, now, limit, settings);
            DistinctIds(claimed) && Waiting(RunOffice(o, [Recover(now, limit), Claim(now, limit)], settings), claimed)
  {
    var recovered := Act(o, Recover(now, limit), settings);
    var batch := DueBatch(recovered.store.rows, now, limit);
    TwoActions(o, Recover(now, limit), Claim(now, limit), settings);
    BatchIsDistinct(recovered.store.rows, DueIds(recovered.store.rows, now), limit);
    LeasesNameTheBatch(recovered.store, batch);
  }

  lemma {:induction false} LeasesNameTheBatch(s: State, batch: seq<Id>)
    requires forall i :: i in batch ==> i in s.rows
    ensures |Leases(s, batch)| == |batch|
    ensures forall k :: 0 <= k < |batch| ==> Leases(s, batch)[k].id == batch[k]
  {
    if batch != [] {
      LeasesNameTheBatch(s, batch[..|batch| - 1]);
    }
  }

  /**
   A dispatcher's drain, with whatever other dispatchers do between and during its sends, is a run
   of the office's actions: the drain's own and theirs, in the order they fell.
   */
  lemma DrainIsARun(o: Office, now: Time, limit: nat, answers: Id -> Answer, others: Id -> Meddling, settings: Settings)
    returns (world: Id -> Sending)
    requires OthersKeepOff(ClaimedBy(o, now, limit, settings), others)
    ensures var ready := RunOffice(o, [Recover(now, limit), Claim(now, limit)], settings);
            Meets(ready, ClaimedBy(o, now, limit, settings), world, answers, others, now, settings)
    ensures RunOffice(o, DrainActions(o, now, limit, answers, others, settings), settings).store
         == AfterDrain(o.store, now, limit, world, settings)
  {
    var claimed, first := ClaimedBy(o, now, limit, settings), [Recover(now, limit), Claim(now, limit)];
    var ready := RunOffice(o, first, settings);
    ClaimedWait(o, now, limit, settings);
    world := WorldOf(ready, claimed, answers, others, now, settings);
    WorldMeets(ready, claimed, answers, others, now, settings);
    forall k | 0 <= k < |claimed|
      ensures InTurn(HereAt(ready, claimed, k, answers, others, now, settings), claimed[k], world, answers, others,
                     settings)
    {
      ItsTurn(ready, claimed, k, world, answers, others, now, settings);
    }
    ItemsAreARun(ready, claimed, |claimed|, world, answers, others, now, settings);
    assert claimed[..|claimed|] == claimed;
    OpeningStore(o, now, limit, ready, settings);
    RunOfficeConcat(o, first, ItemsActions(claimed, answers, others, now), settings);
  }

  lemma OpeningStore(o: Office, now: Time, limit: nat, ready: Office, settings: Settings)
    requires ready == RunOffice(o, [Recover(now, limit), Claim(now, limit)], settings)
    ensures ready.store == Step(Step(o.store, ReclaimExpired(now, settings.maxAttempts, limit)),
                                ClaimDue(now, limit, settings.lease))
  {
    TwoActions(o, Recover(now, limit), Claim(now, limit), settings);
  }

  lemma TwoActions(o: Office, first: Action, second: Action, settings: Settings)
    ensures RunOffice(o, [first, second], settings) == Act(Act(o, first, settings), second, settings)
  {
    assert [first] + [second] == [first, second];
    RunOfficeConcat(o, [first], [second], settings);
    OneAction(o, first, settings);
    OneAction(Act(o, first, settings), second, settings);
  }
}
