/**
 Money commands running concurrently: any number of units of work stage writes against rows
 that other units then change, and commit in any order.

 Whatever the interleaving, every committed state agrees with its ledger and keeps every
 ceiling, and a leg that missed another leg on the same hold cannot commit.
 */
module MoneyRaces {
  import opened Common
  import opened Money
  import opened MoneyRuns
  import opened MoneyChanges

  datatype Office = Office(books: Books, nextId: nat, staged: map<nat, seq<Write>>)

  datatype Event =
    | Begin(now: Time, command: Command)
    | BeginExpiry(now: Time, hold: HoldId)
    | Finish(ticket: nat)

  const EMPTY_OFFICE := Office(EMPTY_TILL.books, 0, map[])

  /** What one command stages when it reads these rows; nothing when it is refused. */
  ghost function StagedWrites(b: Books, id: nat, now: Time, c: Command): seq<Write> {
    match c
    case OpenWallet(owner, currency) => WritesOf(StageOpenWallet(b, id, owner, currency))
    case CreditWallet(wallet, amount, text) => WritesOf(StageCredit(b, now, wallet, amount, text))
    case Authorize(wallet, amount, reference, expiresAt) =>
      WritesOf(StageAuthorize(b, now, id, wallet, amount, reference, expiresAt))
    case CaptureHold(hold, leg, part) => WritesOf(StageCapture(b, now, hold, leg, part))
    case RefundHold(hold, key, reason, part) => WritesOf(StageRefund(b, now, hold, key, reason, part))
    case VoidHold(hold, reason) => WritesOf(StageVoid(b, now, hold, reason))
    case Sweep => []
  }

  function WritesOf<T>(s: Staged<T>): seq<Write> {
    if s.Staged? then s.writes else []
  }

  /** The sweep lists its holds first and then closes each in a transaction of its own. */
  function ExpiryWrites(b: Books, now: Time, id: HoldId): seq<Write> {
    if id in b.holds && SweepDue(b.holds[id], now)
    then [UpdateHold(id, VoidedAs(b.holds[id], "expired", now))]
    else []
  }

  ghost function Step(o: Office, e: Event): Office {
    match e
    case Begin(now, c) =>
      Office(o.books, o.nextId + 1, o.staged[o.nextId := StagedWrites(o.books, o.nextId, now, c)])
    case BeginExpiry(now, id) =>
      Office(o.books, o.nextId + 1, o.staged[o.nextId := ExpiryWrites(o.books, now, id)])
    case Finish(ticket) =>
      if ticket !in o.staged then o
      else
        match Commit(o.books, o.staged[ticket])
        case Ok(after) => Office(after, o.nextId, o.staged - {ticket})
        case Err(_) => Office(o.books, o.nextId, o.staged - {ticket})
  }

  ghost function Run(start: Office, log: seq<Event>): Office {
    if log == [] then start else Step(Run(start, log[..|log| - 1]), log[|log| - 1])
  }

  ghost predicate PlausibleNext(b: Books, id: HoldId, next: Hold) {
    id in b.holds && HoldShape(next) && SameTerms(b.holds[id], next)
  }

  /** What every staged unit looks like, however old the rows it was staged against. */
  ghost predicate Plausible(b: Books, ticket: nat, writes: seq<Write>) {
    || writes == []
    || (|writes| == 1 && match writes[0]
        case InsertWallet(w, _) => w == ticket
        case InsertHold(id, h) =>
          id == ticket && ValidAmount(h.amount) && HoldShape(h) && h.captured == 0 && h.wallet in b.wallets
        case UpdateHold(id, next) => PlausibleNext(b, id, next)
        case InsertTransaction(t) => SoundTransaction(b, t) && t.kind == Credit)
    || (|writes| == 2 && writes[0].UpdateHold? && writes[1].InsertTransaction?
        && PlausibleNext(b, writes[0].id, writes[0].hold)
        && SoundTransaction(b, writes[1].transaction) && writes[1].transaction.hold == Some(writes[0].id)
        && (writes[1].transaction.reference == CaptureReference(writes[0].id, "") ==> writes[0].hold.status == Captured)
        && (writes[1].transaction.kind == Capture ==>
              writes[0].hold.status == Authorized || writes[0].hold.status == Captured))
  }

  ghost predicate OfficeSound(o: Office) {
    && Sound(o.books) && Conserved(o.books)
    && (forall h :: h in o.books.holds ==> h < o.nextId && h !in o.staged)
    && (forall w :: w in o.books.wallets ==> w < o.nextId && w !in o.staged)
    && (forall t :: t in o.staged ==> t < o.nextId && Plausible(o.books, t, o.staged[t]))
  }

  lemma StagedIsPlausible(b: Books, id: nat, now: Time, c: Command)
    requires Sound(b)
    ensures Plausible(b, id, StagedWrites(b, id, now, c))
  {
    var writes := StagedWrites(b, id, now, c);
    match c
    case CaptureHold(hold, leg, part) =>
      if writes != [] { assert SoundHold(b, hold); }
    case RefundHold(hold, key, reason, part) =>
      if writes != [] { assert SoundHold(b, hold); }
    case VoidHold(hold, reason) =>
      if writes != [] { assert SoundHold(b, hold); }
    case _ =>
  }

  lemma ExpiryIsPlausible(b: Books, ticket: nat, now: Time, id: HoldId)
    requires Sound(b)
    ensures Plausible(b, ticket, ExpiryWrites(b, now, id))
  {
    if ExpiryWrites(b, now, id) != [] {
      assert SoundHold(b, id);
    }
  }

  /** A plausible unit that commits is one of the legal changes; otherwise nothing moved. */
  lemma CommitIsALegalChange(b: Books, ticket: nat, writes: seq<Write>) returns (change: Change)
    requires Sound(b) && Plausible(b, ticket, writes)
    requires ticket !in b.holds && ticket !in b.wallets
    requires Commit(b, writes).Ok?
    ensures Legal(b, change) && Commit(b, writes).value == Apply(b, change)
    ensures change.WalletOpened? ==> change.wallet == ticket
    ensures change.HoldOpened? ==> change.id == ticket
    ensures |writes| == 2 ==> change == LegPosted(writes[0].id, writes[0].hold, writes[1].transaction)
    ensures |writes| == 1 && writes[0].UpdateHold? ==> change == HoldReleased(writes[0].id, writes[0].hold)
  {
    change := Unchanged;
    if |writes| == 1 {
      assert writes == [writes[0]];
      ApplyOne(b, writes[0]);
      match writes[0]
      case InsertWallet(w, row) => change := WalletOpened(w, row);
      case InsertHold(id, h) => change := HoldOpened(id, h);
      case UpdateHold(id, next) =>
        assert SoundHold(b, id);
        ReleaseCommitsExactlyWhenCurrent(b, id, next);
        change := HoldReleased(id, next);
      case InsertTransaction(t) => change := CreditPosted(t);
    } else if |writes| == 2 {
      assert writes == [writes[0], writes[1]];
      assert SoundHold(b, writes[0].id);
      LegCommitsExactlyWhenCurrent(b, writes[0].id, writes[0].hold, writes[1].transaction);
      change := LegPosted(writes[0].id, writes[0].hold, writes[1].transaction);
    }
  }

  /** Terms never change and rows never disappear, so what was plausible stays plausible. */
  lemma PlausibleStays(b: Books, change: Change, ticket: nat, writes: seq<Write>)
    requires Sound(b) && Legal(b, change) && Plausible(b, ticket, writes)
    ensures Plausible(Apply(b, change), ticket, writes)
  {
    var after := Apply(b, change);
    assert forall id :: id in b.holds ==> id in after.holds && SameTerms(b.holds[id], after.holds[id]);
  }

  /** Staging a plausible unit commits nothing. */
  lemma StagingKeepsOfficeSound(o: Office, writes: seq<Write>)
    requires OfficeSound(o) && Plausible(o.books, o.nextId, writes)
    ensures OfficeSound(Office(o.books, o.nextId + 1, o.staged[o.nextId := writes]))
  {
  }

  lemma FinishingKeepsOfficeSound(o: Office, ticket: nat, change: Change)
    requires OfficeSound(o) && ticket in o.staged && Legal(o.books, change)
    requires change.WalletOpened? ==> change.wallet == ticket
    requires change.HoldOpened? ==> change.id == ticket
    ensures OfficeSound(Office(Apply(o.books, change), o.nextId, o.staged - {ticket}))
  {
    ChangeKeepsSound(o.books, change);
    ChangeConserves(o.books, change);
    forall t | t in o.staged - {ticket}
      ensures Plausible(Apply(o.books, change), t, o.staged[t])
    {
      PlausibleStays(o.books, change, t, o.staged[t]);
    }
  }

  lemma StepKeepsOfficeSound(o: Office, e: Event)
    requires OfficeSound(o)
    ensures OfficeSound(Step(o, e))
  {
    match e
    case Begin(now, c) =>
      StagedIsPlausible(o.books, o.nextId, now, c);
      StagingKeepsOfficeSound(o, StagedWrites(o.books, o.nextId, now, c));
    case BeginExpiry(now, id) =>
      ExpiryIsPlausible(o.books, o.nextId, now, id);
      StagingKeepsOfficeSound(o, ExpiryWrites(o.books, now, id));
    case Finish(ticket) =>
      if ticket in o.staged && Commit(o.books, o.staged[ticket]).Ok? {
        var change := CommitIsALegalChange(o.books, ticket, o.staged[ticket]);
        FinishingKeepsOfficeSound(o, ticket, change);
      }
  }

  /**
   Every state any interleaving can commit: each hold's totals are what the ledger says moved,
   0 <= refunded <= captured <= amount, references are unique and the accounts balance.
   */
  lemma {:induction false} EveryInterleavingIsSound(log: seq<Event>)
    ensures OfficeSound(Run(EMPTY_OFFICE, log))
  {
    if log == [] {
      assert WalletIds(EMPTY_OFFICE.books) == map[];
    } else {
      EveryInterleavingIsSound(log[..|log| - 1]);
      StepKeepsOfficeSound(Run(EMPTY_OFFICE, log[..|log| - 1]), log[|log| - 1]);
    }
  }

  // ----- legs that missed another leg -----

  /** The hold whose totals a unit was staged from, if it rewrites one. */
  predicate Rewrites(writes: seq<Write>, id: HoldId) {
    && |writes| >= 1 && writes[0].UpdateHold? && writes[0].id == id
    && (|writes| == 2 ==> writes[1].InsertTransaction? && |writes[1].transaction.entries| == 2)
    && |writes| <= 2
  }

  /** The totals the unit read from the hold. */
  function SeenCaptured(writes: seq<Write>): int
    requires |writes| >= 1 && Rewrites(writes, if writes[0].UpdateHold? then writes[0].id else 0)
  {
    writes[0].hold.captured - (if |writes| == 2 then CapturedChange(writes[1].transaction) else 0)
  }

  function SeenRefunded(writes: seq<Write>): int
    requires |writes| >= 1 && Rewrites(writes, if writes[0].UpdateHold? then writes[0].id else 0)
  {
    writes[0].hold.refunded - (if |writes| == 2 then RefundedChange(writes[1].transaction) else 0)
  }

  /** A unit that rewrites a hold read the totals the hold had when it was staged. */
  lemma StagingSeesTheTotals(b: Books, id: nat, now: Time, c: Command, hold: HoldId)
    requires Sound(b) && Rewrites(StagedWrites(b, id, now, c), hold)
    ensures hold in b.holds
    ensures SeenCaptured(StagedWrites(b, id, now, c)) == b.holds[hold].captured
    ensures SeenRefunded(StagedWrites(b, id, now, c)) == b.holds[hold].refunded
  {
  }

  /**
   The exact condition under which a staged capture, refund or void commits: the totals it saw
   are the totals the hold has now, and its reference is still free.
   */
  lemma CommitsExactlyWhenNothingWasMissed(o: Office, ticket: nat, hold: HoldId)
    requires OfficeSound(o) && ticket in o.staged && Rewrites(o.staged[ticket], hold)
    ensures hold in o.books.holds
    ensures Commit(o.books, o.staged[ticket]).Ok?
       <==> && SeenCaptured(o.staged[ticket]) == o.books.holds[hold].captured
            && SeenRefunded(o.staged[ticket]) == o.books.holds[hold].refunded
            && (|o.staged[ticket]| == 2 ==>
                  FindTransaction(o.books.ledger, o.staged[ticket][1].transaction.reference).None?)
  {
    var writes := o.staged[ticket];
    assert Plausible(o.books, ticket, writes);
    assert SoundHold(o.books, hold);
    if |writes| == 2 {
      assert writes == [writes[0], writes[1]];
      LegCommitsExactlyWhenCurrent(o.books, hold, writes[0].hold, writes[1].transaction);
    } else {
      assert writes == [writes[0]];
      ReleaseCommitsExactlyWhenCurrent(o.books, hold, writes[0].hold);
    }
  }

  function Progress(b: Books, hold: HoldId): int {
    if hold in b.holds then b.holds[hold].captured + b.holds[hold].refunded else 0
  }

  lemma ChangeAdvances(b: Books, change: Change, hold: HoldId)
    requires Sound(b) && Legal(b, change) && hold in b.holds
    ensures var after := Apply(b, change);
            && hold in after.holds && SameHold(b.holds[hold], after.holds[hold])
            && Progress(b, hold) <= Progress(after, hold)
            && (change.LegPosted? && change.id == hold ==> Progress(b, hold) < Progress(after, hold))
  {
  }

  lemma ProgressNeverFalls(o: Office, e: Event, hold: HoldId)
    requires OfficeSound(o) && hold in o.books.holds
    ensures hold in Step(o, e).books.holds && SameTerms(o.books.holds[hold], Step(o, e).books.holds[hold])
    ensures Progress(o.books, hold) <= Progress(Step(o, e).books, hold)
    ensures o.books.holds[hold].status == Captured ==> Step(o, e).books.holds[hold].status == Captured
    ensures e.Finish? && e.ticket in o.staged && |o.staged[e.ticket]| == 2 && Rewrites(o.staged[e.ticket], hold)
            && Commit(o.books, o.staged[e.ticket]).Ok? ==>
              Progress(o.books, hold) < Progress(Step(o, e).books, hold)
  {
    if e.Finish? && e.ticket in o.staged && Commit(o.books, o.staged[e.ticket]).Ok? {
      var change := CommitIsALegalChange(o.books, e.ticket, o.staged[e.ticket]);
      assert Step(o, e).books == Apply(o.books, change);
      ChangeAdvances(o.books, change, hold);
    }
  }

  lemma {:induction false} ProgressNeverFallsInRuns(o: Office, log: seq<Event>, hold: HoldId)
    requires OfficeSound(o) && hold in o.books.holds
    ensures OfficeSound(Run(o, log)) && hold in Run(o, log).books.holds
    ensures Progress(o.books, hold) <= Progress(Run(o, log).books, hold)
    ensures o.books.holds[hold].status == Captured ==> Run(o, log).books.holds[hold].status == Captured
  {
    if log != [] {
      ProgressNeverFallsInRuns(o, log[..|log| - 1], hold);
      StepKeepsOfficeSound(Run(o, log[..|log| - 1]), log[|log| - 1]);
      ProgressNeverFalls(Run(o, log[..|log| - 1]), log[|log| - 1], hold);
    }
  }

  lemma {:induction false} StagedUntilFinished(o: Office, log: seq<Event>, ticket: nat)
    requires OfficeSound(o) && ticket < o.nextId
    ensures ticket in Run(o, log).staged ==> ticket in o.staged && Run(o, log).staged[ticket] == o.staged[ticket]
    ensures o.nextId <= Run(o, log).nextId
  {
    if log != [] {
      StagedUntilFinished(o, log[..|log| - 1], ticket);
    }
  }

  /** What an event that reads stages: a command's writes, or one closure of the expiry sweep. */
  ghost function WritesOfReading(o: Office, e: Event): seq<Write>
    requires !e.Finish?
  {
    match e
    case Begin(now, c) => StagedWrites(o.books, o.nextId, now, c)
    case BeginExpiry(now, id) => ExpiryWrites(o.books, now, id)
  }

  /**
   A capture, refund or void, the expiry sweep's included, that was staged before another leg on
   its hold committed is refused when it tries to commit, whatever happens in between.
   */
  lemma MissedLegAborts(o: Office, reading: Event, first: seq<Event>, other: nat, second: seq<Event>, hold: HoldId)
    requires OfficeSound(o) && !reading.Finish? && Rewrites(WritesOfReading(o, reading), hold)
    requires var mid := Run(Step(o, reading), first);
             && other in mid.staged && |mid.staged[other]| == 2 && Rewrites(mid.staged[other], hold)
             && Commit(mid.books, mid.staged[other]).Ok?
    requires o.nextId in Run(Step(Run(Step(o, reading), first), Finish(other)), second).staged
    ensures var end := Run(Step(Run(Step(o, reading), first), Finish(other)), second);
            Commit(end.books, end.staged[o.nextId]).Err?
  {
    var ticket, begun := o.nextId, Step(o, reading);
    StepKeepsOfficeSound(o, reading);
    if reading.Begin? {
      StagingSeesTheTotals(o.books, o.nextId, reading.now, reading.command, hold);
    }
    ProgressNeverFallsInRuns(begun, first, hold);
    StagedUntilFinished(begun, first, ticket);
    MissedAfterwards(Run(begun, first), other, second, hold, ticket, WritesOfReading(o, reading));
  }

  /** From the moment the other leg commits, the older unit is doomed. */
  lemma MissedAfterwards(mid: Office, other: nat, second: seq<Event>, hold: HoldId, ticket: nat, writes: seq<Write>)
    requires OfficeSound(mid) && hold in mid.books.holds && ticket < mid.nextId
    requires other in mid.staged && |mid.staged[other]| == 2 && Rewrites(mid.staged[other], hold)
    requires Commit(mid.books, mid.staged[other]).Ok?
    requires Rewrites(writes, hold) && SeenCaptured(writes) + SeenRefunded(writes) <= Progress(mid.books, hold)
    requires ticket in mid.staged ==> mid.staged[ticket] == writes
    requires ticket in Run(Step(mid, Finish(other)), second).staged
    ensures var end := Run(Step(mid, Finish(other)), second);
            Commit(end.books, end.staged[ticket]).Err?
  {
    StepKeepsOfficeSound(mid, Finish(other));
    ProgressNeverFalls(mid, Finish(other), hold);
    var after := Step(mid, Finish(other));
    ProgressNeverFallsInRuns(after, second, hold);
    StagedUntilFinished(after, second, ticket);
    CommitsExactlyWhenNothingWasMissed(Run(after, second), ticket, hold);
  }

  // ----- what the ledger check does not catch -----

  /**
   So a closed hold stays closed exactly as far as the totals protect it: a staged capture moves
   a voided or partially captured hold if and only if the totals it saw are still current, that
   is, if only voids came between.
   */
  lemma ClosedHoldReopensExactlyWhenTotalsAreCurrent(o: Office, ticket: nat, hold: HoldId)
    requires OfficeSound(o) && ticket in o.staged && Rewrites(o.staged[ticket], hold)
    requires |o.staged[ticket]| == 2 && o.staged[ticket][1].transaction.kind == Capture
    requires hold in o.books.holds
    requires o.books.holds[hold].status == Voided || o.books.holds[hold].status == PartiallyCaptured
    ensures Step(o, Finish(ticket)).books.holds.Keys >= {hold}
    ensures Step(o, Finish(ticket)).books.holds[hold].status != o.books.holds[hold].status
       <==> && SeenCaptured(o.staged[ticket]) == o.books.holds[hold].captured
            && SeenRefunded(o.staged[ticket]) == o.books.holds[hold].refunded
            && FindTransaction(o.books.ledger, o.staged[ticket][1].transaction.reference).None?
  {
    CommitsExactlyWhenNothingWasMissed(o, ticket, hold);
    ProgressNeverFalls(o, Finish(ticket), hold);
    if Commit(o.books, o.staged[ticket]).Ok? {
      var _ := CommitIsALegalChange(o.books, ticket, o.staged[ticket]);
    }
  }

  /**
   A run in which that happens. A wallet is opened and credited with 10, and 10 are held; a capture
   of 4 reads the hold, a void reads it too and commits, and then the capture commits.
   */
  const REOPENING_RUN: seq<Event> := [
    Begin(0, OpenWallet("org", "SAR")), Finish(0),
    Begin(1, CreditWallet(0, 10, "top-up")), Finish(1),
    Begin(2, Authorize(0, 10, "order", None)), Finish(2),
    Begin(3, CaptureHold(2, "leg", Some(4))),
    Begin(4, VoidHold(2, "cancelled")), Finish(4),
    Finish(3)]

  const PAYER := Wallet("org", "SAR", Active)
  const TOP_UP := Movement(Credit, CreditReference("top-up"), "SAR", WalletAccount(0), ClearingExternal, 10, None, 1)
  const ORDER_HOLD := NewHold(0, "SAR", 10, "order", 2, None)
  const HELD := Books(map[0 := PAYER], map[2 := ORDER_HOLD], [TOP_UP])

  /** A command that stages one write, and commits before anything else happens. */
  lemma OneWriteAlone(o: Office, now: Time, c: Command, w: Write, after: Books)
    requires StagedWrites(o.books, o.nextId, now, c) == [w] && o.staged == map[]
    requires ApplyWrite(o.books, w) == Ok(after) && DeferredHolds(after, w)
    ensures Step(Step(o, Begin(now, c)), Finish(o.nextId)) == Office(after, o.nextId + 1, map[])
  {
    ApplyOne(o.books, w);
    assert Commit(o.books, [w]) == Ok(after);
    assert map[o.nextId := [w]] - {o.nextId} == map[];
  }

  lemma TwoMoreSteps(start: Office, log: seq<Event>, first: Event, second: Event)
    ensures Run(start, log + [first, second]) == Step(Step(Run(start, log), first), second)
  {
    var once := log + [first];
    assert log + [first, second] == once + [second];
    assert (once + [second])[..|once|] == once && once[..|log|] == log;
  }

  lemma TopUpCommits(b: Books)
    requires b == Books(map[0 := PAYER], map[], [])
    ensures ApplyWrite(b, InsertTransaction(TOP_UP)) == Ok(b.(ledger := [TOP_UP]))
    ensures DeferredHolds(b.(ledger := [TOP_UP]), InsertTransaction(TOP_UP))
    ensures StagedWrites(b, 1, 1, CreditWallet(0, 10, "top-up")) == [InsertTransaction(TOP_UP)]
  {
    assert TOP_UP.entries[..1] == [TOP_UP.entries[0]] && TOP_UP.entries[..1][..0] == [];
    assert EntrySum(TOP_UP.entries) == 0;
    assert b.ledger + [TOP_UP] == [TOP_UP];
  }

  lemma HoldIsAffordable(b: Books)
    requires b == Books(map[0 := PAYER], map[], [TOP_UP])
    ensures Available(b, 0, 2) == 10
  {
    PostedAppend([], TOP_UP, WalletAccount(0));
    TwoEntries(TOP_UP.entries[0], TOP_UP.entries[1], WalletAccount(0));
    assert [] + [TOP_UP] == [TOP_UP] && TOP_UP.entries == [TOP_UP.entries[0], TOP_UP.entries[1]];
  }

  lemma WalletIsOpened()
    ensures Run(EMPTY_OFFICE, REOPENING_RUN[..2]) == Office(Books(map[0 := PAYER], map[], []), 1, map[])
  {
    var open := Begin(0, OpenWallet("org", "SAR"));
    OneWriteAlone(EMPTY_OFFICE, 0, open.command, InsertWallet(0, PAYER), Books(map[0 := PAYER], map[], []));
    TwoMoreSteps(EMPTY_OFFICE, [], open, Finish(0));
    assert [] + [open, Finish(0)] == REOPENING_RUN[..2];
  }

  lemma WalletIsCredited()
    ensures Run(EMPTY_OFFICE, REOPENING_RUN[..4]) == Office(Books(map[0 := PAYER], map[], [TOP_UP]), 2, map[])
  {
    var b, log := Books(map[0 := PAYER], map[], []), REOPENING_RUN;
    WalletIsOpened();
    TopUpCommits(b);
    OneWriteAlone(Office(b, 1, map[]), 1, CreditWallet(0, 10, "top-up"), InsertTransaction(TOP_UP),
                  b.(ledger := [TOP_UP]));
    TwoMoreSteps(EMPTY_OFFICE, log[..2], log[2], log[3]);
    assert log[..4] == log[..2] + [log[2], log[3]];
  }

  /** The first six steps leave 10 held of 10. */
  lemma HeldIsReached()
    ensures Run(EMPTY_OFFICE, REOPENING_RUN[..6]) == Office(HELD, 3, map[])
  {
    var b, log := Books(map[0 := PAYER], map[], [TOP_UP]), REOPENING_RUN;
    WalletIsCredited();
    HoldIsAffordable(b);
    OneWriteAlone(Office(b, 2, map[]), 2, Authorize(0, 10, "order", None), InsertHold(2, ORDER_HOLD), HELD);
    TwoMoreSteps(EMPTY_OFFICE, log[..4], log[4], log[5]);
    assert log[..6] == log[..4] + [log[4], log[5]];
  }

  /** The capture and the void both read the hold as it is. */
  lemma BothAreStaged()
    ensures Run(EMPTY_OFFICE, REOPENING_RUN[..8])
         == Office(HELD, 5, map[3 := StageCapture(HELD, 3, 2, "leg", Some(4)).writes,
                                4 := [UpdateHold(2, VoidedAs(ORDER_HOLD, "cancelled", 4))]])
  {
    var log := REOPENING_RUN;
    HeldIsReached();
    TwoMoreSteps(EMPTY_OFFICE, log[..6], log[6], log[7]);
    assert log[..8] == log[..6] + [log[6], log[7]];
  }

  /** The void commits. */
  lemma VoidedIsReached()
    ensures var o := Run(EMPTY_OFFICE, REOPENING_RUN[..9]);
            && o.books == HELD.(holds := map[2 := VoidedAs(ORDER_HOLD, "cancelled", 4)])
            && 3 in o.staged && o.staged[3] == StageCapture(HELD, 3, 2, "leg", Some(4)).writes
  {
    var log := REOPENING_RUN;
    BothAreStaged();
    assert log[..9][..8] == log[..8];
    EveryInterleavingIsSound(log[..8]);
    VoidCommits(Run(EMPTY_OFFICE, log[..8]), VoidedAs(ORDER_HOLD, "cancelled", 4));
  }

  lemma VoidCommits(o: Office, next: Hold)
    requires OfficeSound(o) && o.books == HELD && next == VoidedAs(ORDER_HOLD, "cancelled", 4)
    requires 4 in o.staged && o.staged[4] == [UpdateHold(2, next)]
    ensures Step(o, Finish(4)) == Office(HELD.(holds := map[2 := next]), o.nextId, o.staged - {4})
  {
    CommitsExactlyWhenNothingWasMissed(o, 4, 2);
    ApplyOne(HELD, UpdateHold(2, next));
    assert HELD.holds[2 := next] == map[2 := next];
  }

  /**
   A void moves no money, so the ledger check cannot see that one was missed: the capture that had
   read the hold before the void commits after it, and the closed hold is open again.
   */
  lemma StaleCaptureReopensAVoidedHold()
    ensures var voided, reopened := Run(EMPTY_OFFICE, REOPENING_RUN[..9]).books, Run(EMPTY_OFFICE, REOPENING_RUN).books;
            && 2 in voided.holds && voided.holds[2].status == Voided
            && 2 in reopened.holds && reopened.holds[2].status == Authorized && reopened.holds[2].captured == 4
  {
    var log := REOPENING_RUN;
    VoidedIsReached();
    EveryInterleavingIsSound(log[..9]);
    assert log[..|log| - 1] == log[..9];
    var o := Run(EMPTY_OFFICE, log[..9]);
    LegIsStaged(o.staged[3]);
    assert FindTransaction([], CaptureReference(2, "leg")).None? && [TOP_UP][..0] == [];
    CommitsExactlyWhenNothingWasMissed(o, 3, 2);
    ApplyTwo(o.books, o.staged[3][0], o.staged[3][1]);
  }

  lemma LegIsStaged(writes: seq<Write>)
    requires writes == StageCapture(HELD, 3, 2, "leg", Some(4)).writes
    ensures |writes| == 2 && writes[0] == UpdateHold(2, CapturedBy(ORDER_HOLD, 4, 3)) && writes[1].InsertTransaction?
    ensures writes == [writes[0], writes[1]] && writes[1].transaction.reference == CaptureReference(2, "leg")
    ensures Rewrites(writes, 2) && SeenCaptured(writes) == 0 && SeenRefunded(writes) == 0
  {
    assert [TOP_UP][..0] == [] && FindTransaction([TOP_UP], CaptureReference(2, "leg")).None?;
  }
}
