/**
 `MoneyService` over the reference store: every command reads, stages and commits in one
 transaction, and leaves the rows exactly as the serial step of `MoneyRuns` says.
 */
module MoneyService {
  import opened Common
  import opened Totals
  import opened Money
  import opened MoneyRuns
  import opened MoneyLedgerLaws
  import MoneyEffects
  import opened MoneyStore

  class MoneyService {
    const repo: InMemoryMoneyRepository
    /** The next identifier `newId` hands out. */
    var nextId: nat

    constructor (repo: InMemoryMoneyRepository)
      ensures this.repo == repo && nextId == 0
    {
      this.repo := repo;
      nextId := 0;
    }

    ghost function State(): Till
      reads this, repo
    {
      Till(repo.Rows(), nextId)
    }

    /** Applies staged writes one by one, verifies what they deferred, and undoes them all if anything refuses. */
    method WithTransaction(writes: seq<Write>) returns (ok: bool)
      modifies repo
      ensures ok == Commit(old(repo.Rows()), writes).Ok?
      ensures repo.Rows() == (if ok then Commit(old(repo.Rows()), writes).value else old(repo.Rows()))
    {
      var journal := new MemoryJournal();
      ok := repo.RunMutations(writes, journal);
      if ok {
        ok := repo.Verify(journal);
        VerifiedMeansDeferredHold(repo.Rows(), writes, journal.Checks());
      }
      if !ok {
        repo.Rollback(journal);
      }
    }

    /** `newId` never repeats an identifier already in use. */
    ghost predicate Valid()
      reads this, repo
    {
      FreshFrom(repo.Rows(), nextId)
    }

    /** The wallet of this owner in this currency: the one there is, or a new one. */
    method CreateWallet(owner: string, currency: string) returns (wallet: WalletId, created: bool)
      requires Valid()
      modifies this`nextId, repo
      ensures Valid() && State() == Step(old(State()), 0, OpenWallet(owner, currency))
      ensures wallet in repo.wallets && IsWalletOf(repo.wallets[wallet], owner, currency)
      ensures created == (wallet !in old(repo.wallets))
      ensures created == forall w :: w in old(repo.wallets) ==> !IsWalletOf(old(repo.wallets)[w], owner, currency)
    {
      var rest := repo.wallets.Keys;
      while rest != {}
        invariant rest <= repo.wallets.Keys
        invariant forall w :: w in repo.wallets && w !in rest ==> !IsWalletOf(repo.wallets[w], owner, currency)
        decreases rest
      {
        var w :| w in rest;
        rest := rest - {w};
        if IsWalletOf(repo.wallets[w], owner, currency) {
          NothingStagedCommits(repo.Rows());
          return w, false;
        }
      }
      ghost var change := OpenWalletChange(repo.Rows(), nextId, owner, currency);
      var committed := WithTransaction([Write.InsertWallet(nextId, Wallet(owner, currency, Active))]);
      assert nextId in repo.wallets;
      wallet, created := nextId, true;
      nextId := nextId + 1;
    }

    /**
     Posted, held and available balance, and what expired holds still keep; an unknown wallet
     has none.
     */
    method Balance(now: Time, wallet: WalletId) returns (outcome: Result<Balances, Failure>)
      ensures wallet !in repo.wallets ==> outcome == Err(WalletNotFound)
      ensures wallet in repo.wallets ==> outcome.Ok? && AreBalances(repo.Rows(), wallet, now, outcome.value)
    {
      if wallet !in repo.wallets {
        return Err(WalletNotFound);
      }
      var posted := 0;
      for i := 0 to |repo.ledger|
        invariant posted == Posted(repo.ledger[..i], WalletAccount(wallet))
      {
        assert repo.ledger[..i + 1][..i] == repo.ledger[..i];
        var t := repo.ledger[i];
        ghost var before := posted;
        for k := 0 to |t.entries|
          invariant posted == before + PostedBy(t.entries[..k], WalletAccount(wallet))
        {
          assert t.entries[..k + 1][..k] == t.entries[..k];
          if t.entries[k].account == WalletAccount(wallet) {
            posted := posted + t.entries[k].amount;
          }
        }
        assert t.entries[..|t.entries|] == t.entries;
      }
      assert repo.ledger[..|repo.ledger|] == repo.ledger;
      var held, expired := 0, 0;
      var rest := repo.authorizations;
      while rest != map[]
        invariant forall id :: id in rest ==> id in repo.authorizations && rest[id] == repo.authorizations[id]
        invariant held + Total(rest, HeldFor(wallet, now)) == Total(repo.authorizations, HeldFor(wallet, now))
        invariant held + expired + Total(rest, OpenFor(wallet)) == Total(repo.authorizations, OpenFor(wallet))
        decreases |rest|
      {
        var id :| id in rest;
        TotalExtract(rest, HeldFor(wallet, now), id);
        TotalExtract(rest, OpenFor(wallet), id);
        if rest[id].wallet == wallet && rest[id].status == Authorized {
          if Expired(rest[id], now) {
            expired := expired + RemainingHold(rest[id]);
          } else {
            held := held + RemainingHold(rest[id]);
          }
        }
        rest := rest - {id};
      }
      outcome := Ok(Balances(posted, held, posted - held, expired));
    }

    /** The ledger's transaction for the reference, found or newly posted, or why there is none. */
    method Credit(now: Time, wallet: WalletId, amount: int, text: string)
      returns (outcome: Result<Transaction, Failure>)
      requires Valid()
      modifies repo
      ensures Valid() && State() == Step(old(State()), now, CreditWallet(wallet, amount, text))
      ensures Answers(Perform(old(repo.Rows()), StageCredit(old(repo.Rows()), now, wallet, amount, text)), outcome)
      ensures outcome.Ok? ==> FindTransaction(repo.ledger, CreditReference(text)) == Some(outcome.value)
      ensures Sound(old(repo.Rows())) ==>
                && (outcome.Ok? <==> MoneyEffects.MayCredit(old(repo.Rows()), wallet, amount))
                && MoneyEffects.Credited(old(repo.Rows()), repo.Rows(), now, wallet, amount, text)
    {
      if Sound(repo.Rows()) {
        MoneyEffects.CreditIsExact(repo.Rows(), 0, now, wallet, amount, text);
      }
      NothingStagedCommits(repo.Rows());
      if wallet !in repo.wallets {
        return Err(WalletNotFound);
      }
      if !ValidAmount(amount) {
        return Err(AmountInvalid);
      }
      var existing := repo.FindTransactionByReference(CreditReference(text));
      if existing.Some? {
        return Ok(existing.value);
      }
      var t := Movement(Kind.Credit, CreditReference(text), repo.wallets[wallet].currency,
                        WalletAccount(wallet), ClearingExternal, amount, None, now);
      ApplyOne(repo.Rows(), InsertTransaction(t));
      var ok := WithTransaction([InsertTransaction(t)]);
      outcome := if ok then Ok(t) else Err(ConstraintViolated);
    }

    /** Reads, decides, and commits the hold. */
    method AuthorizeWithin(now: Time, wallet: WalletId, amount: int, reference: string, expiresAt: Option<Time>)
      returns (outcome: Result<HoldId, Failure>)
      requires Valid()
      modifies this`nextId, repo
      ensures Valid() && State() == Step(old(State()), now, Command.Authorize(wallet, amount, reference, expiresAt))
      ensures match Perform(old(repo.Rows()),
                            StageAuthorize(old(repo.Rows()), now, old(nextId), wallet, amount, reference, expiresAt))
              case Err(e) => outcome == Err(e)
              case Ok(held) => outcome.Ok? && (DistinctHoldReferences(old(repo.Rows())) ==> outcome.value == held.0)
    {
      NothingStagedCommits(repo.Rows());
      if wallet !in repo.wallets {
        return Err(WalletNotFound);
      }
      if !ValidAmount(amount) {
        return Err(AmountInvalid);
      }
      var existing := repo.FindAuthorizationByReference(reference);
      if existing.Some? {
        return Ok(existing.value);
      }
      if repo.wallets[wallet].status != Active {
        return Err(WalletNotActive);
      }
      var balances := Balance(now, wallet);
      if balances.value.available < amount {
        return Err(InsufficientBalance);
      }
      if expiresAt.Some? && expiresAt.value <= now {
        return Err(ExpiryInThePast);
      }
      var hold := NewHold(wallet, repo.wallets[wallet].currency, amount, reference, now, expiresAt);
      ApplyOne(repo.Rows(), InsertHold(nextId, hold));
      var ok := WithTransaction([InsertHold(nextId, hold)]);
      assert nextId in repo.authorizations;
      outcome := Ok(nextId);
      nextId := nextId + 1;
    }

    /** The hold of the reference, found or newly taken, or what the caller is refused with. */
    method Authorize(now: Time, wallet: WalletId, amount: int, reference: string, expiresAt: Option<Time>)
      returns (outcome: Result<HoldId, Failure>)
      requires Valid()
      modifies this`nextId, repo
      ensures Valid() && State() == Step(old(State()), now, Command.Authorize(wallet, amount, reference, expiresAt))
      ensures match Perform(old(repo.Rows()),
                            StageAuthorize(old(repo.Rows()), now, old(nextId), wallet, amount, reference, expiresAt))
              case Err(e) => outcome == Err(e)
              case Ok(held) => outcome.Ok? && (DistinctHoldReferences(old(repo.Rows())) ==> outcome.value == held.0)
      ensures Sound(old(repo.Rows())) ==>
                && (outcome.Ok? <==>
                      MoneyEffects.MayAuthorize(old(repo.Rows()), now, wallet, amount, reference, expiresAt))
                && MoneyEffects.Authorizes(old(repo.Rows()), repo.Rows(), old(nextId), now, wallet, amount, reference,
                                           expiresAt)
    {
      if Sound(repo.Rows()) {
        MoneyEffects.AuthorizeIsExact(repo.Rows(), nextId, now, wallet, amount, reference, expiresAt);
      }
      outcome := AuthorizeWithin(now, wallet, amount, reference, expiresAt);
    }

    /** Reads, decides, and commits the leg with its hold. */
    method CaptureWithin(now: Time, id: HoldId, leg: string, part: Option<int>)
      returns (outcome: Result<(Transaction, Hold), Failure>)
      requires Valid()
      modifies repo
      ensures Valid() && State() == Step(old(State()), now, CaptureHold(id, leg, part))
      ensures Answers(Perform(old(repo.Rows()), StageCapture(old(repo.Rows()), now, id, leg, part)), HoldOf(outcome))
      ensures outcome.Ok? ==> FindTransaction(repo.ledger, CaptureReference(id, leg)) == Some(outcome.value.0)
      ensures outcome.Ok? ==> id in repo.authorizations && repo.authorizations[id] == outcome.value.1
    {
      NothingStagedCommits(repo.Rows());
      if id !in repo.authorizations {
        return Err(HoldNotFound);
      }
      var h := repo.authorizations[id];
      var existing := repo.FindTransactionByReference(CaptureReference(id, leg));
      if existing.Some? {
        return Ok((existing.value, h));
      }
      if h.status != Authorized {
        return Err(NotCapturable);
      }
      if Expired(h, now) {
        return Err(HoldExpired);
      }
      var requested := if part.Some? then part.value else RemainingHold(h);
      if !ValidAmount(requested) {
        return Err(AmountInvalid);
      }
      if requested < RemainingHold(h) && leg == "" {
        return Err(LegReferenceRequired);
      }
      if requested > RemainingHold(h) {
        return Err(ExceedsRemainingHold);
      }
      if h.wallet !in repo.wallets {
        return Err(WalletNotFound);
      }
      var t := Movement(Kind.Capture, CaptureReference(id, leg), h.currency, ClearingCaptured,
                        WalletAccount(h.wallet), requested, Some(id), now);
      LegLands(repo.Rows(), id, CapturedBy(h, requested, now), t);
      var ok := WithTransaction([UpdateHold(id, CapturedBy(h, requested, now)), InsertTransaction(t)]);
      outcome := if ok then Ok((t, CapturedBy(h, requested, now))) else Err(ConstraintViolated);
    }

    /** The leg the ledger holds for the reference and the hold as it now stands, or the refusal. */
    method Capture(now: Time, id: HoldId, leg: string, part: Option<int>)
      returns (outcome: Result<(Transaction, Hold), Failure>)
      requires Valid()
      modifies repo
      ensures Valid() && State() == Step(old(State()), now, CaptureHold(id, leg, part))
      ensures Answers(Perform(old(repo.Rows()), StageCapture(old(repo.Rows()), now, id, leg, part)), HoldOf(outcome))
      ensures outcome.Ok? ==> FindTransaction(repo.ledger, CaptureReference(id, leg)) == Some(outcome.value.0)
      ensures outcome.Ok? ==> id in repo.authorizations && repo.authorizations[id] == outcome.value.1
      ensures Sound(old(repo.Rows())) ==>
                && (outcome.Ok? <==> MoneyEffects.MayCapture(old(repo.Rows()), now, id, leg, part))
                && MoneyEffects.Captures(old(repo.Rows()), repo.Rows(), now, id, leg, part)
    {
      if Sound(repo.Rows()) {
        MoneyEffects.CaptureIsExact(repo.Rows(), 0, now, id, leg, part);
      }
      outcome := CaptureWithin(now, id, leg, part);
    }

    /** Reads, decides, and commits the refund with its hold. */
    method RefundWithin(now: Time, id: HoldId, key: string, reason: string, part: Option<int>)
      returns (outcome: Result<Transaction, Failure>)
      requires Valid()
      modifies repo
      ensures Valid() && State() == Step(old(State()), now, RefundHold(id, key, reason, part))
      ensures Answers(Perform(old(repo.Rows()), StageRefund(old(repo.Rows()), now, id, key, reason, part)), outcome)
      ensures outcome.Ok? ==> FindTransaction(repo.ledger, RefundReference(id, key)) == Some(outcome.value)
    {
      NothingStagedCommits(repo.Rows());
      if key == "" {
        return Err(RefundReferenceRequired);
      }
      if reason == "" {
        return Err(ReasonRequired);
      }
      if id !in repo.authorizations {
        return Err(HoldNotFound);
      }
      var h := repo.authorizations[id];
      var existing := repo.FindTransactionByReference(RefundReference(id, key));
      if existing.Some? {
        return Ok(existing.value);
      }
      if h.captured == 0 {
        return Err(NothingCaptured);
      }
      if RefundableAmount(h) == 0 {
        return Err(NothingRefundable);
      }
      var requested := if part.Some? then part.value else RefundableAmount(h);
      if !ValidAmount(requested) {
        return Err(AmountInvalid);
      }
      if requested > RefundableAmount(h) {
        return Err(ExceedsRefundable);
      }
      if h.wallet !in repo.wallets {
        return Err(WalletNotFound);
      }
      var next := h.(refunded := h.refunded + requested);
      var t := Movement(Kind.Refund, RefundReference(id, key), h.currency, WalletAccount(h.wallet),
                        ClearingCaptured, requested, Some(id), now);
      assert StageRefund(repo.Rows(), now, id, key, reason, part)
             == Staged(t, [UpdateHold(id, next), InsertTransaction(t)]);
      LegLands(repo.Rows(), id, next, t);
      var ok := WithTransaction([UpdateHold(id, next), InsertTransaction(t)]);
      outcome := if ok then Ok(t) else Err(ConstraintViolated);
    }

    /** The refund the ledger holds for the key, found or newly posted, or the refusal. */
    method Refund(now: Time, id: HoldId, key: string, reason: string, part: Option<int>)
      returns (outcome: Result<Transaction, Failure>)
      requires Valid()
      modifies repo
      ensures Valid() && State() == Step(old(State()), now, RefundHold(id, key, reason, part))
      ensures Answers(Perform(old(repo.Rows()), StageRefund(old(repo.Rows()), now, id, key, reason, part)), outcome)
      ensures outcome.Ok? ==> FindTransaction(repo.ledger, RefundReference(id, key)) == Some(outcome.value)
      ensures Sound(old(repo.Rows())) ==>
                && (outcome.Ok? <==> MoneyEffects.MayRefund(old(repo.Rows()), id, key, reason, part))
                && MoneyEffects.Refunds(old(repo.Rows()), repo.Rows(), now, id, key, reason, part)
    {
      if Sound(repo.Rows()) {
        MoneyEffects.RefundIsExact(repo.Rows(), 0, now, id, key, reason, part);
      }
      outcome := RefundWithin(now, id, key, reason, part);
    }

    /** The hold as the release left it, or as an earlier one did, or the refusal. */
    method VoidAuthorization(now: Time, id: HoldId, reason: string) returns (outcome: Result<Hold, Failure>)
      requires Valid()
      modifies repo
      ensures Valid() && State() == Step(old(State()), now, VoidHold(id, reason))
      ensures Answers(Perform(old(repo.Rows()), StageVoid(old(repo.Rows()), now, id, reason)), outcome)
      ensures outcome.Ok? ==> id in repo.authorizations && repo.authorizations[id] == outcome.value
      ensures Sound(old(repo.Rows())) ==>
                && (outcome.Ok? <==> MoneyEffects.MayVoid(old(repo.Rows()), id, reason))
                && MoneyEffects.Voids(old(repo.Rows()), repo.Rows(), now, id, reason)
    {
      if Sound(repo.Rows()) {
        MoneyEffects.VoidIsExact(repo.Rows(), 0, now, id, reason);
      }
      NothingStagedCommits(repo.Rows());
      if id !in repo.authorizations {
        return Err(HoldNotFound);
      }
      var h := repo.authorizations[id];
      if h.status == Voided || h.status == PartiallyCaptured {
        return Ok(h);
      }
      if h.status == Captured {
        return Err(CapturedCannotBeVoided);
      }
      if reason == "" {
        return Err(ReasonRequired);
      }
      ApplyOne(repo.Rows(), UpdateHold(id, VoidedAs(h, reason, now)));
      var ok := WithTransaction([UpdateHold(id, VoidedAs(h, reason, now))]);
      outcome := if ok then Ok(VoidedAs(h, reason, now)) else Err(ConstraintViolated);
    }

    /**
     The expiry sweep: lists the due holds first, then closes each in a transaction of its own,
     in whatever order; what comes out is every due hold closed, listed as it was closed, and
     nothing else touched.
     */
    method ExpireDueAuthorizations(now: Time) returns (expired: map<HoldId, Hold>)
      requires Valid() && Sound(repo.Rows())
      modifies repo
      ensures Valid() && State() == Step(old(State()), now, Sweep)
      ensures expired.Keys == DueHolds(old(repo.authorizations), now)
      ensures forall id :: id in expired ==> id in repo.authorizations && repo.authorizations[id] == expired[id]
    {
      ghost var start := repo.Rows();
      var listed := repo.authorizations;
      var rest := DueHolds(listed, now);
      ghost var due := rest;
      SweepEnds(start, now);
      assert due - rest == {};
      expired := map[];
      while rest != {}
        invariant rest <= due
        invariant SweptSoFar(start, now, due - rest, repo.Rows(), expired)
        decreases rest
      {
        var id :| id in rest;
        ghost var done := due - rest;
        var closed := CloseExpired(start, done, expired, now, id, listed[id]);
        expired := expired[id := closed];
        rest := rest - {id};
        assert due - rest == done + {id};
      }
      assert due - rest == due;
    }

    method CloseExpired(ghost start: Books, ghost done: set<HoldId>, ghost expired: map<HoldId, Hold>,
        now: Time, id: HoldId, h: Hold) returns (closed: Hold)
      requires Sound(start) && id in start.holds && h == start.holds[id] && SweepDue(h, now) && id !in done
      requires SweptSoFar(start, now, done, repo.Rows(), expired)
      modifies repo
      ensures SweptSoFar(start, now, done + {id}, repo.Rows(), expired[id := closed])
    {
      SweepCloses(start, now, done, id);
      closed := VoidedAs(h, "expired", now);
      var ok := WithTransaction([UpdateHold(id, closed)]);
    }
  }

  /** The rows, and what a sweep has listed, once it has closed the holds in `done`. */
  ghost predicate SweptSoFar(start: Books, now: Time, done: set<HoldId>, rows: Books, expired: map<HoldId, Hold>) {
    && Sound(rows) && rows == SweptPart(start, now, done)
    && expired.Keys == done
    && forall id :: id in expired ==> id in rows.holds && rows.holds[id] == expired[id]
  }

  predicate IsWalletOf(row: Wallet, owner: string, currency: string) {
    row.owner == owner && row.currency == currency
  }

  datatype Balances = Balances(posted: int, held: int, available: int, expired: int)

  /** Everything a wallet's open holds keep, whether or not they have expired. */
  ghost function OpenFor(wallet: WalletId): Hold -> int {
    (h: Hold) => if h.wallet == wallet then RemainingHold(h) else 0
  }

  ghost predicate AreBalances(b: Books, wallet: WalletId, now: Time, r: Balances) {
    && r.posted == Posted(b.ledger, WalletAccount(wallet))
    && r.held == Total(b.holds, HeldFor(wallet, now))
    && r.available == Available(b, wallet, now)
    && r.held + r.expired == Total(b.holds, OpenFor(wallet))
  }

  /** A call answers with the value of the step it made, or with what refused it. */
  ghost predicate Answers<T(!new)>(done: Result<(T, Books), Failure>, outcome: Result<T, Failure>) {
    match done
    case Err(e) => outcome == Err(e)
    case Ok(made) => outcome == Ok(made.0)
  }

  function HoldOf(outcome: Result<(Transaction, Hold), Failure>): Result<Hold, Failure> {
    match outcome
    case Err(e) => Err(e)
    case Ok(both) => Ok(both.1)
  }

  function DueHolds(holds: map<HoldId, Hold>, now: Time): set<HoldId> {
    set id | id in holds && SweepDue(holds[id], now)
  }

  lemma SweepEnds(start: Books, now: Time)
    ensures SweptPart(start, now, {}) == start
    ensures SweptPart(start, now, DueHolds(start.holds, now)) == Swept(start, now)
    ensures forall id :: FreshFrom(start, id) ==> FreshFrom(Swept(start, now), id)
  {
    assert SweptPart(start, now, {}).holds == start.holds;
    assert SweptPart(start, now, DueHolds(start.holds, now)).holds == Swept(start, now).holds;
  }

  /** The sweep after it has closed the holds in `done`. */
  function SweptPart(b: Books, now: Time, done: set<HoldId>): Books {
    b.(holds := map id | id in b.holds ::
         if id in done then VoidedAs(b.holds[id], "expired", now) else b.holds[id])
  }

  /** One closure of the sweep, on top of those already made. */
  lemma SweepCloses(start: Books, now: Time, done: set<HoldId>, id: HoldId)
    requires Sound(start) && Sound(SweptPart(start, now, done))
    requires id in start.holds && id !in done && SweepDue(start.holds[id], now)
    ensures Commit(SweptPart(start, now, done), [UpdateHold(id, VoidedAs(start.holds[id], "expired", now))])
         == Ok(SweptPart(start, now, done + {id}))
    ensures Sound(SweptPart(start, now, done + {id}))
  {
    var b, next := SweptPart(start, now, done), VoidedAs(start.holds[id], "expired", now);
    assert SoundHold(b, id);
    assert b.holds[id] == start.holds[id];
    ReleaseCommitsExactlyWhenCurrent(b, id, next);
    ReleaseKeepsSound(b, id, next);
    assert b.holds[id := next] == SweptPart(start, now, done + {id}).holds;
  }

  /** A leg that commits writes its hold and its transaction, and adds no row under a new identifier. */
  lemma LegLands(b: Books, id: HoldId, next: Hold, t: Transaction)
    requires id in b.holds
    ensures match Commit(b, [UpdateHold(id, next), InsertTransaction(t)])
            case Err(e) => e == ConstraintViolated
            case Ok(after) =>
              && after.holds == b.holds[id := next] && after.wallets == b.wallets
              && FindTransaction(after.ledger, t.reference) == Some(t)
  {
    ApplyTwo(b, UpdateHold(id, next), InsertTransaction(t));
  }
}
