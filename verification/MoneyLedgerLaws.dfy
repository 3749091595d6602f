/**
 The laws of serial runs: the deferred check is never tripped, money is conserved, no wallet
 is overdrawn, closed holds stay closed, and repeating a successful command changes nothing.
 */
module MoneyLedgerLaws {
  import opened Common
  import opened Totals
  import opened Money
  import opened MoneyRuns
  import opened MoneyChanges

  /** What the deferred check would refuse, a serial command never stages. */
  ghost predicate CommitsCleanly<T>(b: Books, staged: Staged<T>) {
    staged.Staged? ==> Commit(b, staged.writes).Ok?
  }

  /** A hold that is no longer authorized keeps its status and its captured total. */
  ghost predicate ClosedStayClosed(b: Books, after: Books) {
    forall id :: id in b.holds ==>
      && id in after.holds
      && SameHold(b.holds[id], after.holds[id])
      && (b.holds[id].status != Authorized ==>
            && after.holds[id].status == b.holds[id].status
            && after.holds[id].captured == b.holds[id].captured)
  }

  ghost predicate OnlyOpenHoldsMove(b: Books, change: Change)
    requires Legal(b, change)
  {
    change.LegPosted? || change.HoldReleased? ==>
      || b.holds[change.id].status == Authorized
      || (change.next.status == b.holds[change.id].status && change.next.captured == b.holds[change.id].captured)
  }

  lemma ChangeKeepsClosed(b: Books, change: Change)
    requires Legal(b, change) && OnlyOpenHoldsMove(b, change)
    ensures ClosedStayClosed(b, Apply(b, change))
  {
  }

  lemma NothingStagedCommits(b: Books)
    ensures Commit(b, []) == Ok(b)
  {
  }

  lemma SingleInsertCommits(b: Books, w: Write)
    requires ApplyWrite(b, w).Ok?
    requires DeferredHolds(ApplyWrite(b, w).value, w)
    ensures Commit(b, [w]) == ApplyWrite(b, w)
  {
    ApplyOne(b, w);
  }

  lemma OpenWalletChange(b: Books, id: WalletId, owner: string, currency: string) returns (change: Change)
    requires FreshFrom(b, id)
    ensures Legal(b, change)
    ensures CommitsCleanly(b, StageOpenWallet(b, id, owner, currency))
    ensures BooksStep(b, id, 0, OpenWallet(owner, currency)) == Apply(b, change)
    ensures change.Unchanged?
            || (change.WalletOpened? && change.wallet == id && change.row == Wallet(owner, currency, Active))
    ensures change.Unchanged? ==>
              exists w :: w in b.wallets && b.wallets[w].owner == owner && b.wallets[w].currency == currency
  {
    NothingStagedCommits(b);
    if exists w :: w in b.wallets && b.wallets[w].owner == owner && b.wallets[w].currency == currency {
      change := Unchanged;
    } else {
      change := WalletOpened(id, Wallet(owner, currency, Active));
      SingleInsertCommits(b, InsertWallet(id, Wallet(owner, currency, Active)));
    }
  }

  lemma CreditChange(b: Books, now: Time, wallet: WalletId, amount: int, text: string) returns (change: Change)
    requires Sound(b)
    ensures Legal(b, change)
    ensures CommitsCleanly(b, StageCredit(b, now, wallet, amount, text))
    ensures BooksStep(b, 0, now, CreditWallet(wallet, amount, text)) == Apply(b, change)
    ensures change.Unchanged? || change.CreditPosted?
  {
    NothingStagedCommits(b);
    change := Unchanged;
    var staged := StageCredit(b, now, wallet, amount, text);
    if staged.Staged? && staged.writes != [] {
      var t := staged.writes[0].transaction;
      change := CreditPosted(t);
      TransactionPosts(b, t, ClearingExternal);
      SingleInsertCommits(b, InsertTransaction(t));
    }
  }

  lemma AuthorizeChange(b: Books, id: HoldId, now: Time, wallet: WalletId, amount: int, reference: string,
      expiresAt: Option<Time>)
    returns (change: Change)
    requires Sound(b) && FreshFrom(b, id)
    ensures Legal(b, change)
    ensures CommitsCleanly(b, StageAuthorize(b, now, id, wallet, amount, reference, expiresAt))
    ensures BooksStep(b, id, now, Authorize(wallet, amount, reference, expiresAt)) == Apply(b, change)
    ensures Affordable(b, change, now)
    ensures change.Unchanged? || (change.HoldOpened? && change.id == id && change.hold.reference == reference)
    ensures change.Unchanged? && StageAuthorize(b, now, id, wallet, amount, reference, expiresAt).Staged? ==>
              HoldReferenceTaken(b, reference)
  {
    NothingStagedCommits(b);
    change := Unchanged;
    var staged := StageAuthorize(b, now, id, wallet, amount, reference, expiresAt);
    if staged.Staged? && staged.writes != [] {
      var h := staged.writes[0].hold;
      change := HoldOpened(id, h);
      SingleInsertCommits(b, InsertHold(id, h));
    }
  }

  lemma CaptureChange(b: Books, now: Time, id: HoldId, leg: string, part: Option<int>) returns (change: Change)
    requires Sound(b)
    ensures Legal(b, change)
    ensures CommitsCleanly(b, StageCapture(b, now, id, leg, part))
    ensures BooksStep(b, 0, now, CaptureHold(id, leg, part)) == Apply(b, change)
    ensures Affordable(b, change, now)
    ensures change.Unchanged? || change.LegPosted?
    ensures OnlyOpenHoldsMove(b, change)
  {
    NothingStagedCommits(b);
    change := Unchanged;
    var staged := StageCapture(b, now, id, leg, part);
    if staged.Staged? && staged.writes != [] {
      assert SoundHold(b, id);
      var next, t := staged.writes[0].hold, staged.writes[1].transaction;
      change := LegPosted(id, next, t);
      LegCommitsExactlyWhenCurrent(b, id, next, t);
    }
  }

  lemma RefundChange(b: Books, now: Time, id: HoldId, key: string, reason: string, part: Option<int>)
    returns (change: Change)
    requires Sound(b)
    ensures Legal(b, change)
    ensures CommitsCleanly(b, StageRefund(b, now, id, key, reason, part))
    ensures BooksStep(b, 0, now, RefundHold(id, key, reason, part)) == Apply(b, change)
    ensures Affordable(b, change, now)
    ensures change.Unchanged? || change.LegPosted?
    ensures OnlyOpenHoldsMove(b, change)
  {
    NothingStagedCommits(b);
    change := Unchanged;
    var staged := StageRefund(b, now, id, key, reason, part);
    if staged.Staged? && staged.writes != [] {
      assert SoundHold(b, id);
      var next, t := staged.writes[0].hold, staged.writes[1].transaction;
      change := LegPosted(id, next, t);
      LegCommitsExactlyWhenCurrent(b, id, next, t);
    }
  }

  lemma VoidChange(b: Books, now: Time, id: HoldId, reason: string) returns (change: Change)
    requires Sound(b)
    ensures Legal(b, change)
    ensures CommitsCleanly(b, StageVoid(b, now, id, reason))
    ensures BooksStep(b, 0, now, VoidHold(id, reason)) == Apply(b, change)
    ensures Affordable(b, change, now)
    ensures change.Unchanged? || change.HoldReleased?
    ensures OnlyOpenHoldsMove(b, change)
  {
    NothingStagedCommits(b);
    change := Unchanged;
    var staged := StageVoid(b, now, id, reason);
    if staged.Staged? && staged.writes != [] {
      assert SoundHold(b, id);
      var next := staged.writes[0].hold;
      change := HoldReleased(id, next);
      ReleaseCommitsExactlyWhenCurrent(b, id, next);
    }
  }

  /** Every serial command but the sweep is one affordable legal change, and never a refused commit. */
  lemma SerialChange(b: Books, id: nat, now: Time, c: Command) returns (change: Change)
    requires Sound(b) && FreshFrom(b, id) && !c.Sweep?
    ensures Legal(b, change) && Affordable(b, change, now)
    ensures BooksStep(b, id, now, c) == Apply(b, change)
    ensures OnlyOpenHoldsMove(b, change)
    ensures change.WalletOpened? ==> c.OpenWallet? && change.wallet == id
    ensures change.HoldOpened? ==> c.Authorize? && change.id == id
  {
    match c
    case OpenWallet(owner, currency) => change := OpenWalletChange(b, id, owner, currency);
    case CreditWallet(wallet, amount, text) => change := CreditChange(b, now, wallet, amount, text);
    case Authorize(wallet, amount, reference, expiresAt) =>
      change := AuthorizeChange(b, id, now, wallet, amount, reference, expiresAt);
    case CaptureHold(hold, leg, part) =>
      change := CaptureChange(b, now, hold, leg, part);
    case RefundHold(hold, key, reason, part) =>
      change := RefundChange(b, now, hold, key, reason, part);
    case VoidHold(hold, reason) =>
      change := VoidChange(b, now, hold, reason);
  }

  lemma SweepKeepsSound(b: Books, now: Time)
    requires Sound(b)
    ensures Sound(Swept(b, now))
    ensures ClosedStayClosed(b, Swept(b, now))
  {
    var after := Swept(b, now);
    SameTransactions(b, after);
    forall id | id in b.holds
      ensures SoundHold(after, id)
    {
      assert SoundHold(b, id);
    }
  }

  lemma SweepMovesNothing(b: Books, now: Time)
    requires Sound(b)
    ensures Conserved(b) ==> Conserved(Swept(b, now))
    ensures NoOverdraft(b, now) ==> NoOverdraft(Swept(b, now), now)
  {
    var after := Swept(b, now);
    TotalAgrees(b.holds, after.holds, NetCaptured(), NetCaptured());
    assert WalletIds(after) == WalletIds(b);
    forall w | w in b.wallets
      ensures Available(after, w, now) == Available(b, w, now)
    {
      TotalAgrees(b.holds, after.holds, HeldFor(w, now), HeldFor(w, now));
    }
  }

  /** The refusal a command meets while it reads, before anything is staged. */
  ghost predicate ReadingRefuses(b: Books, id: nat, now: Time, c: Command) {
    match c
    case OpenWallet(owner, currency) => StageOpenWallet(b, id, owner, currency).Refused?
    case CreditWallet(wallet, amount, text) => StageCredit(b, now, wallet, amount, text).Refused?
    case Authorize(wallet, amount, reference, expiresAt) =>
      StageAuthorize(b, now, id, wallet, amount, reference, expiresAt).Refused?
    case CaptureHold(hold, leg, part) => StageCapture(b, now, hold, leg, part).Refused?
    case RefundHold(hold, key, reason, part) => StageRefund(b, now, hold, key, reason, part).Refused?
    case VoidHold(hold, reason) => StageVoid(b, now, hold, reason).Refused?
    case Sweep => false
  }

  ghost predicate Succeeds(b: Books, id: nat, now: Time, c: Command) {
    match c
    case OpenWallet(owner, currency) => Perform(b, StageOpenWallet(b, id, owner, currency)).Ok?
    case CreditWallet(wallet, amount, text) => Perform(b, StageCredit(b, now, wallet, amount, text)).Ok?
    case Authorize(wallet, amount, reference, expiresAt) =>
      Perform(b, StageAuthorize(b, now, id, wallet, amount, reference, expiresAt)).Ok?
    case CaptureHold(hold, leg, part) => Perform(b, StageCapture(b, now, hold, leg, part)).Ok?
    case RefundHold(hold, key, reason, part) => Perform(b, StageRefund(b, now, hold, key, reason, part)).Ok?
    case VoidHold(hold, reason) => Perform(b, StageVoid(b, now, hold, reason)).Ok?
    case Sweep => true
  }

  /**
   On sound books a command that is not refused while it reads always commits: neither a
   uniqueness rule, nor a check constraint, nor the deferred ledger check ever stops it.
   */
  lemma SerialCommandsNeverTripAConstraint(b: Books, id: nat, now: Time, c: Command)
    requires Sound(b) && FreshFrom(b, id)
    ensures Succeeds(b, id, now, c) <==> !ReadingRefuses(b, id, now, c)
  {
    match c
    case OpenWallet(owner, currency) => var _ := OpenWalletChange(b, id, owner, currency);
    case CreditWallet(wallet, amount, text) => var _ := CreditChange(b, now, wallet, amount, text);
    case Authorize(wallet, amount, reference, expiresAt) =>
      var _ := AuthorizeChange(b, id, now, wallet, amount, reference, expiresAt);
    case CaptureHold(hold, leg, part) => var _ := CaptureChange(b, now, hold, leg, part);
    case RefundHold(hold, key, reason, part) => var _ := RefundChange(b, now, hold, key, reason, part);
    case VoidHold(hold, reason) => var _ := VoidChange(b, now, hold, reason);
    case Sweep =>
  }

  // ----- runs -----

  datatype Timed = Timed(at: Time, command: Command)

  ghost function Run(start: Till, log: seq<Timed>): Till {
    if log == [] then start
    else
      var last := log[|log| - 1];
      Step(Run(start, log[..|log| - 1]), last.at, last.command)
  }

  ghost predicate ClockRuns(log: seq<Timed>) {
    forall i, j :: 0 <= i < j < |log| ==> log[i].at <= log[j].at
  }

  ghost predicate TillSound(t: Till) {
    Sound(t.books) && FreshFrom(t.books, t.nextId) && Conserved(t.books)
  }

  lemma ChangeKeepsFresh(b: Books, id: nat, change: Change)
    requires FreshFrom(b, id) && Legal(b, change)
    requires change.WalletOpened? ==> change.wallet == id
    requires change.HoldOpened? ==> change.id == id
    ensures change.WalletOpened? || change.HoldOpened? ==> FreshFrom(Apply(b, change), id + 1) && Apply(b, change) != b
    ensures !change.WalletOpened? && !change.HoldOpened? ==> FreshFrom(Apply(b, change), id)
  {
    if change.WalletOpened? {
      assert change.wallet in Apply(b, change).wallets;
    }
    if change.HoldOpened? {
      assert change.id in Apply(b, change).holds;
    }
  }

  /** Soundness and conservation are kept by every step, and a covered wallet stays covered. */
  lemma StepKeepsLaws(t: Till, now: Time, c: Command)
    requires TillSound(t)
    ensures TillSound(Step(t, now, c))
    ensures NoOverdraft(t.books, now) ==> NoOverdraft(Step(t, now, c).books, now)
    ensures ClosedStayClosed(t.books, Step(t, now, c).books)
  {
    if c.Sweep? {
      SweepKeepsLaws(t, now);
    } else {
      var change := SerialChange(t.books, t.nextId, now, c);
      assert Step(t, now, c).books == Apply(t.books, change);
      ChangeKeepsLaws(t.books, t.nextId, change, now, Apply(t.books, change));
    }
  }

  lemma SweepKeepsLaws(t: Till, now: Time)
    requires TillSound(t)
    ensures TillSound(Step(t, now, Sweep))
    ensures NoOverdraft(t.books, now) ==> NoOverdraft(Step(t, now, Sweep).books, now)
    ensures ClosedStayClosed(t.books, Step(t, now, Sweep).books)
  {
    SweepKeepsSound(t.books, now);
    SweepMovesNothing(t.books, now);
    assert Step(t, now, Sweep).books == Swept(t.books, now);
  }

  lemma ChangeKeepsLaws(b: Books, id: nat, change: Change, now: Time, after: Books)
    requires Sound(b) && FreshFrom(b, id) && Conserved(b) && after == Apply(b, change)
    requires Legal(b, change) && Affordable(b, change, now) && OnlyOpenHoldsMove(b, change)
    requires change.WalletOpened? ==> change.wallet == id
    requires change.HoldOpened? ==> change.id == id
    ensures Sound(after) && Conserved(after) && ClosedStayClosed(b, after)
    ensures if change.WalletOpened? || change.HoldOpened? then FreshFrom(after, id + 1) && after != b
            else FreshFrom(after, id)
    ensures NoOverdraft(b, now) ==> NoOverdraft(after, now)
  {
    ChangeKeepsSound(b, change);
    ChangeKeepsClosed(b, change);
    ChangeConserves(b, change);
    ChangeKeepsFresh(b, id, change);
    if NoOverdraft(b, now) {
      AffordableKeepsCovered(b, change, now);
    }
  }

  lemma EmptyTillSound()
    ensures TillSound(EMPTY_TILL)
  {
    assert WalletIds(EMPTY_TILL.books) == map[];
  }

  /** Soundness and conservation after every serial run, whatever the clock does. */
  lemma {:induction false} EveryRunConserves(log: seq<Timed>)
    ensures TillSound(Run(EMPTY_TILL, log))
  {
    if log == [] {
      EmptyTillSound();
    } else {
      EveryRunConserves(log[..|log| - 1]);
      StepKeepsLaws(Run(EMPTY_TILL, log[..|log| - 1]), log[|log| - 1].at, log[|log| - 1].command);
    }
  }

  /** With a clock that never runs backwards, no wallet is ever overdrawn, then or later. */
  lemma {:induction false} NoRunOverdraws(log: seq<Timed>, now: Time)
    requires ClockRuns(log)
    requires log != [] ==> log[|log| - 1].at <= now
    ensures NoOverdraft(Run(EMPTY_TILL, log).books, now)
  {
    if log != [] {
      var earlier, last := log[..|log| - 1], log[|log| - 1];
      var t := Run(EMPTY_TILL, earlier);
      assert earlier != [] ==> earlier[|earlier| - 1].at <= last.at by {
        if earlier != [] {
          assert log[|log| - 2].at <= log[|log| - 1].at;
        }
      }
      NoRunOverdraws(earlier, last.at);
      EveryRunConserves(earlier);
      StepKeepsLaws(t, last.at, last.command);
      var after := Run(EMPTY_TILL, log).books;
      EveryRunConserves(log);
      forall w | w in after.wallets
        ensures Available(after, w, now) >= 0
      {
        assert Available(after, w, last.at) >= 0;
        WaitingReleases(after, w, last.at, now);
      }
    }
  }

  // ----- repeating a command -----

  /** The rows already hold this command's answer, so it will be returned and nothing written. */
  ghost predicate Answered(b: Books, c: Command) {
    match c
    case OpenWallet(owner, currency) =>
      exists w :: w in b.wallets && b.wallets[w].owner == owner && b.wallets[w].currency == currency
    case CreditWallet(wallet, amount, text) =>
      wallet in b.wallets && ValidAmount(amount) && FindTransaction(b.ledger, CreditReference(text)).Some?
    case Authorize(wallet, amount, reference, _) =>
      wallet in b.wallets && ValidAmount(amount) && HoldReferenceTaken(b, reference)
    case CaptureHold(hold, leg, _) =>
      hold in b.holds && FindTransaction(b.ledger, CaptureReference(hold, leg)).Some?
    case RefundHold(hold, key, reason, _) =>
      key != "" && reason != "" && hold in b.holds && FindTransaction(b.ledger, RefundReference(hold, key)).Some?
    case VoidHold(hold, _) =>
      hold in b.holds && (b.holds[hold].status == Voided || b.holds[hold].status == PartiallyCaptured)
    case Sweep => false
  }

  lemma OpeningIsAnswered(b: Books, id: nat, now: Time, c: Command)
    requires Sound(b) && FreshFrom(b, id) && (c.OpenWallet? || c.Authorize?) && Succeeds(b, id, now, c)
    ensures Answered(BooksStep(b, id, now, c), c)
  {
    NothingStagedCommits(b);
    var after := BooksStep(b, id, now, c);
    match c
    case OpenWallet(owner, currency) =>
      var change := OpenWalletChange(b, id, owner, currency);
      if change.WalletOpened? {
        assert id in after.wallets && after.wallets[id].owner == owner && after.wallets[id].currency == currency;
      } else {
        assert after == b;
      }
    case Authorize(wallet, amount, reference, expiresAt) =>
      var change := AuthorizeChange(b, id, now, wallet, amount, reference, expiresAt);
      if change.HoldOpened? {
        assert id in after.holds && after.holds[id].reference == reference;
      }
  }

  lemma CreditIsAnswered(b: Books, id: nat, now: Time, wallet: WalletId, amount: int, text: string)
    requires Sound(b) && Succeeds(b, id, now, CreditWallet(wallet, amount, text))
    ensures Answered(BooksStep(b, id, now, CreditWallet(wallet, amount, text)), CreditWallet(wallet, amount, text))
  {
    NothingStagedCommits(b);
    var change := CreditChange(b, now, wallet, amount, text);
    if change.CreditPosted? {
      FindAppend(b.ledger, change.t, CreditReference(text));
    }
  }

  lemma CaptureIsAnswered(b: Books, id: nat, now: Time, hold: HoldId, leg: string, part: Option<int>)
    requires Sound(b) && Succeeds(b, id, now, CaptureHold(hold, leg, part))
    ensures Answered(BooksStep(b, id, now, CaptureHold(hold, leg, part)), CaptureHold(hold, leg, part))
  {
    NothingStagedCommits(b);
    var change := CaptureChange(b, now, hold, leg, part);
    if change.LegPosted? {
      FindAppend(b.ledger, change.t, CaptureReference(hold, leg));
    }
  }

  lemma RefundIsAnswered(b: Books, id: nat, now: Time, hold: HoldId, key: string, reason: string, part: Option<int>)
    requires Sound(b) && Succeeds(b, id, now, RefundHold(hold, key, reason, part))
    ensures Answered(BooksStep(b, id, now, RefundHold(hold, key, reason, part)), RefundHold(hold, key, reason, part))
  {
    NothingStagedCommits(b);
    var change := RefundChange(b, now, hold, key, reason, part);
    if change.LegPosted? {
      FindAppend(b.ledger, change.t, RefundReference(hold, key));
    }
  }

  lemma PostingIsAnswered(b: Books, id: nat, now: Time, c: Command)
    requires Sound(b) && (c.CreditWallet? || c.CaptureHold? || c.RefundHold?) && Succeeds(b, id, now, c)
    ensures Answered(BooksStep(b, id, now, c), c)
  {
    match c
    case CreditWallet(wallet, amount, text) => CreditIsAnswered(b, id, now, wallet, amount, text);
    case CaptureHold(hold, leg, part) => CaptureIsAnswered(b, id, now, hold, leg, part);
    case RefundHold(hold, key, reason, part) => RefundIsAnswered(b, id, now, hold, key, reason, part);
  }

  /** A command that succeeded has left its answer on the rows. */
  lemma SuccessIsAnswered(t: Till, now: Time, c: Command)
    requires TillSound(t) && !c.Sweep? && Succeeds(t.books, t.nextId, now, c)
    ensures Answered(Step(t, now, c).books, c)
  {
    if c.VoidHold? {
      NothingStagedCommits(t.books);
      var change := VoidChange(t.books, now, c.hold, c.reason);
    } else if c.OpenWallet? || c.Authorize? {
      OpeningIsAnswered(t.books, t.nextId, now, c);
    } else {
      PostingIsAnswered(t.books, t.nextId, now, c);
    }
  }

  lemma AnsweredStays(t: Till, now: Time, c: Command, answered: Command)
    requires TillSound(t) && Answered(t.books, answered)
    ensures Answered(Step(t, now, c).books, answered)
  {
    StepKeepsLaws(t, now, c);
    if c.Sweep? {
      SweepKeepsAnswers(t.books, now, answered);
    } else {
      var change := SerialChange(t.books, t.nextId, now, c);
      ChangeKeepsClosed(t.books, change);
      ChangeKeepsAnswers(t.books, change, answered, Apply(t.books, change));
    }
  }

  lemma SweepKeepsAnswers(b: Books, now: Time, answered: Command)
    requires Answered(b, answered)
    ensures Answered(Swept(b, now), answered)
  {
    if answered.Authorize? {
      var id :| id in b.holds && b.holds[id].reference == answered.reference;
      assert id in Swept(b, now).holds && Swept(b, now).holds[id].reference == answered.reference;
    }
  }

  lemma ChangeKeepsAnswers(b: Books, change: Change, answered: Command, after: Books)
    requires Legal(b, change) && ClosedStayClosed(b, after) && Answered(b, answered) && after == Apply(b, change)
    ensures Answered(after, answered)
  {
    if change.CreditPosted? || change.LegPosted? {
      match answered
      case CreditWallet(_, _, text) => FindAppend(b.ledger, change.t, CreditReference(text));
      case CaptureHold(hold, leg, _) => FindAppend(b.ledger, change.t, CaptureReference(hold, leg));
      case RefundHold(hold, key, _, _) => FindAppend(b.ledger, change.t, RefundReference(hold, key));
      case _ =>
    }
    if answered.OpenWallet? {
      var w :| w in b.wallets && b.wallets[w].owner == answered.owner && b.wallets[w].currency == answered.currency;
      assert w in after.wallets && after.wallets[w] == b.wallets[w];
    }
    if answered.Authorize? {
      var id :| id in b.holds && b.holds[id].reference == answered.reference;
      assert id in after.holds && after.holds[id].reference == answered.reference;
    }
  }

  lemma AnsweredIsIdle(t: Till, now: Time, c: Command)
    requires Answered(t.books, c)
    ensures Step(t, now, c) == t
  {
    NothingStagedCommits(t.books);
  }

  lemma {:induction false} RunConcat(start: Till, first: seq<Timed>, second: seq<Timed>)
    ensures Run(start, first + second) == Run(Run(start, first), second)
  {
    if second == [] {
      assert first + second == first;
    } else {
      assert (first + second)[..|first + second| - 1] == first + second[..|second| - 1];
      RunConcat(start, first, second[..|second| - 1]);
    }
  }

  lemma {:induction false} AnsweredForEver(t: Till, log: seq<Timed>, answered: Command)
    requires TillSound(t) && Answered(t.books, answered)
    ensures TillSound(Run(t, log)) && Answered(Run(t, log).books, answered)
  {
    if log != [] {
      var earlier, last := log[..|log| - 1], log[|log| - 1];
      AnsweredForEver(t, earlier, answered);
      StepKeepsLaws(Run(t, earlier), last.at, last.command);
      AnsweredStays(Run(t, earlier), last.at, last.command, answered);
    }
  }

  /**
   A second copy of a command that succeeded, sent at any later point of any run and at any
   time, leaves the wallets, the holds and the ledger exactly as they would have been.
   */
  lemma RepeatChangesNothing(before: seq<Timed>, first: Timed, between: seq<Timed>, again: Timed, rest: seq<Timed>)
    requires !first.command.Sweep? && again.command == first.command
    requires Succeeds(Run(EMPTY_TILL, before).books, Run(EMPTY_TILL, before).nextId, first.at, first.command)
    ensures Run(EMPTY_TILL, before + [first] + between + [again] + rest)
         == Run(EMPTY_TILL, before + [first] + between + rest)
  {
    var t0 := Run(EMPTY_TILL, before);
    var t1 := Step(t0, first.at, first.command);
    EveryRunConserves(before);
    assert [first][..0] == [] && [again][..0] == [];
    RunConcat(EMPTY_TILL, before, [first]);
    RunConcat(EMPTY_TILL, before + [first], between);
    RunConcat(EMPTY_TILL, before + [first] + between, [again]);
    RunConcat(EMPTY_TILL, before + [first] + between + [again], rest);
    RunConcat(EMPTY_TILL, before + [first] + between, rest);
    SuccessIsAnswered(t0, first.at, first.command);
    StepKeepsLaws(t0, first.at, first.command);
    AnsweredForEver(t1, between, first.command);
    AnsweredIsIdle(Run(t1, between), again.at, again.command);
  }
}
