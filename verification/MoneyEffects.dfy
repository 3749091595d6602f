/**
 What each money command does, in amounts: when it succeeds, and which balances, holds and wallets
 it moves by how much. Everything is said of the rows before and after, run alone on sound books.
 */
module MoneyEffects {
  import opened Common
  import opened Totals
  import opened Money
  import opened MoneyRuns
  import opened MoneyChanges
  import opened MoneyLedgerLaws

  /** The ledger has a transaction of this reference already, which answers the command. */
  predicate OnLedger(b: Books, r: Reference) {
    exists i :: 0 <= i < |b.ledger| && b.ledger[i].reference == r
  }

  /** `amount` moves from one account to another, and no other account moves. */
  ghost predicate Moves(b: Books, after: Books, plus: Account, minus: Account, amount: int) {
    forall account :: Posted(after.ledger, account)
      == Posted(b.ledger, account) + (if account == plus then amount else 0) - (if account == minus then amount else 0)
  }

  /** One transaction is added at the end, and it is this kind of leg at this time. */
  ghost predicate Posts(b: Books, after: Books, kind: Kind, r: Reference, hold: Option<HoldId>, now: Time) {
    && |after.ledger| == |b.ledger| + 1 && after.ledger[..|b.ledger|] == b.ledger
    && var t := after.ledger[|b.ledger|];
       t.kind == kind && t.reference == r && t.hold == hold && t.occurredAt == now
  }

  lemma MovementMoves(b: Books, after: Books, kind: Kind, r: Reference, currency: string, plus: Account,
      minus: Account, amount: int, hold: Option<HoldId>, now: Time)
    requires plus != minus
    requires after.ledger == b.ledger + [Movement(kind, r, currency, plus, minus, amount, hold, now)]
    ensures Moves(b, after, plus, minus, amount) && Posts(b, after, kind, r, hold, now)
  {
    var t := Movement(kind, r, currency, plus, minus, amount, hold, now);
    forall account
      ensures Posted(after.ledger, account) == Posted(b.ledger, account) + PostedBy(t.entries, account)
      ensures PostedBy(t.entries, account)
           == (if account == plus then amount else 0) - (if account == minus then amount else 0)
    {
      PostedAppend(b.ledger, t, account);
      TwoEntries(t.entries[0], t.entries[1], account);
      assert t.entries == [t.entries[0], t.entries[1]];
    }
  }

  /** Everything but the one hold is as it was. */
  predicate OnlyHold(b: Books, after: Books, id: HoldId) {
    && after.wallets == b.wallets && id in after.holds && after.holds == b.holds[id := after.holds[id]]
  }

  // ----- credit -----

  predicate MayCredit(b: Books, wallet: WalletId, amount: int) {
    wallet in b.wallets && 0 < amount <= MAX_SAFE_INTEGER
  }

  ghost predicate Credited(b: Books, after: Books, now: Time, wallet: WalletId, amount: int, text: string) {
    if !MayCredit(b, wallet, amount) || OnLedger(b, CreditReference(text)) then after == b
    else
      && after.wallets == b.wallets && after.holds == b.holds
      && Moves(b, after, WalletAccount(wallet), ClearingExternal, amount)
      && Posts(b, after, Credit, CreditReference(text), None, now)
  }

  lemma InsertLands(b: Books, t: Transaction)
    requires Commit(b, [InsertTransaction(t)]).Ok?
    ensures Commit(b, [InsertTransaction(t)]).value == b.(ledger := b.ledger + [t])
  {
    ApplyOne(b, InsertTransaction(t));
  }

  lemma CreditIsExact(b: Books, id: nat, now: Time, wallet: WalletId, amount: int, text: string)
    requires Sound(b)
    ensures Succeeds(b, id, now, CreditWallet(wallet, amount, text)) <==> MayCredit(b, wallet, amount)
    ensures Credited(b, BooksStep(b, id, now, CreditWallet(wallet, amount, text)), now, wallet, amount, text)
  {
    NothingStagedCommits(b);
    FindIsMembership(b.ledger, CreditReference(text));
    var change := CreditChange(b, now, wallet, amount, text);
    if MayCredit(b, wallet, amount) && !OnLedger(b, CreditReference(text)) {
      var r, currency := CreditReference(text), b.wallets[wallet].currency;
      var t := Movement(Credit, r, currency, WalletAccount(wallet), ClearingExternal, amount, None, now);
      InsertLands(b, t);
      MovementMoves(b, b.(ledger := b.ledger + [t]), Credit, r, currency, WalletAccount(wallet), ClearingExternal,
                    amount, None, now);
    }
  }

  // ----- authorize -----

  ghost predicate MayAuthorize(b: Books, now: Time, wallet: WalletId, amount: int, reference: string,
      expiresAt: Option<Time>)
  {
    && wallet in b.wallets && 0 < amount <= MAX_SAFE_INTEGER
    && (HoldReferenceTaken(b, reference)
        || (b.wallets[wallet].status == Active && amount <= Available(b, wallet, now)
            && (expiresAt.Some? ==> now < expiresAt.value)))
  }

  /** A new hold of exactly the amount, wallet, reference and expiry asked for, with nothing moved yet. */
  predicate HoldOf(h: Hold, currency: string, now: Time, wallet: WalletId, amount: int, reference: string,
      expiresAt: Option<Time>)
  {
    && h.wallet == wallet && h.amount == amount && h.reference == reference && h.expiresAt == expiresAt
    && h.currency == currency && h.status == Authorized && h.captured == 0 && h.refunded == 0 && h.createdAt == now
    && h.capturedAt == None && h.voidedAt == None
  }

  ghost predicate Authorizes(b: Books, after: Books, id: HoldId, now: Time, wallet: WalletId, amount: int,
      reference: string, expiresAt: Option<Time>)
  {
    if !MayAuthorize(b, now, wallet, amount, reference, expiresAt) || HoldReferenceTaken(b, reference) then after == b
    else
      && after.ledger == b.ledger && OnlyHold(b, after, id)
      && HoldOf(after.holds[id], b.wallets[wallet].currency, now, wallet, amount, reference, expiresAt)
      && Available(after, wallet, now) == Available(b, wallet, now) - amount
      && forall w :: w != wallet ==> Available(after, w, now) == Available(b, w, now)
  }

  lemma AuthorizeIsExact(b: Books, id: HoldId, now: Time, wallet: WalletId, amount: int, reference: string,
      expiresAt: Option<Time>)
    requires Sound(b) && FreshFrom(b, id)
    ensures Succeeds(b, id, now, Authorize(wallet, amount, reference, expiresAt))
       <==> MayAuthorize(b, now, wallet, amount, reference, expiresAt)
    ensures Authorizes(b, BooksStep(b, id, now, Authorize(wallet, amount, reference, expiresAt)), id, now, wallet,
                       amount, reference, expiresAt)
  {
    NothingStagedCommits(b);
    var change := AuthorizeChange(b, id, now, wallet, amount, reference, expiresAt);
    if MayAuthorize(b, now, wallet, amount, reference, expiresAt) && !HoldReferenceTaken(b, reference) {
      var h := NewHold(wallet, b.wallets[wallet].currency, amount, reference, now, expiresAt);
      ApplyOne(b, InsertHold(id, h));
      var after := b.(holds := b.holds[id := h]);
      HoldTakes(b, after, id, h, now);
    }
  }

  lemma HoldTakes(b: Books, after: Books, id: HoldId, h: Hold, now: Time)
    requires id !in b.holds && after == b.(holds := b.holds[id := h])
    requires h.status == Authorized && h.captured == 0 && !Expired(h, now)
    ensures Available(after, h.wallet, now) == Available(b, h.wallet, now) - h.amount
    ensures forall w :: w != h.wallet ==> Available(after, w, now) == Available(b, w, now)
  {
    forall w
      ensures Total(after.holds, HeldFor(w, now))
           == Total(b.holds, HeldFor(w, now)) + if w == h.wallet then h.amount else 0
    {
      TotalExtract(after.holds, HeldFor(w, now), id);
      assert after.holds - {id} == b.holds;
    }
  }

  // ----- capture -----

  /** What a capture asks for: the part named, or all that is left of the hold. */
  function Asked(h: Hold, part: Option<int>): int {
    if part.Some? then part.value else h.amount - h.captured
  }

  predicate MayCapture(b: Books, now: Time, id: HoldId, leg: string, part: Option<int>) {
    && id in b.holds
    && (OnLedger(b, CaptureReference(id, leg))
        || var h := b.holds[id];
           && h.status == Authorized && (h.expiresAt.Some? ==> now < h.expiresAt.value)
           && 0 < Asked(h, part) <= h.amount - h.captured
           && (Asked(h, part) == h.amount - h.captured || leg != ""))
  }

  predicate CapturedMore(before: Hold, after: Hold, amount: int, now: Time) {
    && after.captured == before.captured + amount && after.refunded == before.refunded
    && after.status == (if after.captured == before.amount then Captured else Authorized)
    && after.capturedAt == (if after.captured == before.amount then Some(now) else before.capturedAt)
    && after.voidedAt == before.voidedAt && after.voidReason == before.voidReason && SameTerms(before, after)
  }

  ghost predicate Captures(b: Books, after: Books, now: Time, id: HoldId, leg: string, part: Option<int>) {
    if !MayCapture(b, now, id, leg, part) || OnLedger(b, CaptureReference(id, leg)) then after == b
    else
      var h := b.holds[id];
      && OnlyHold(b, after, id) && CapturedMore(h, after.holds[id], Asked(h, part), now)
      && Moves(b, after, ClearingCaptured, WalletAccount(h.wallet), Asked(h, part))
      && Posts(b, after, Capture, CaptureReference(id, leg), Some(id), now)
  }

  /** A leg that commits rewrites its hold and moves its amount, and that is all. */
  lemma LegLands(b: Books, id: HoldId, next: Hold, kind: Kind, r: Reference, currency: string, plus: Account,
      minus: Account, amount: int, now: Time, after: Books)
    requires plus != minus
    requires var t := Movement(kind, r, currency, plus, minus, amount, Some(id), now);
             Commit(b, [UpdateHold(id, next), InsertTransaction(t)]) == Ok(after)
    ensures OnlyHold(b, after, id) && after.holds[id] == next
    ensures Moves(b, after, plus, minus, amount) && Posts(b, after, kind, r, Some(id), now)
  {
    var t := Movement(kind, r, currency, plus, minus, amount, Some(id), now);
    ApplyTwo(b, UpdateHold(id, next), InsertTransaction(t));
    MovementMoves(b, after, kind, r, currency, plus, minus, amount, Some(id), now);
  }

  lemma CaptureIsExact(b: Books, rowId: nat, now: Time, id: HoldId, leg: string, part: Option<int>)
    requires Sound(b)
    ensures Succeeds(b, rowId, now, CaptureHold(id, leg, part)) <==> MayCapture(b, now, id, leg, part)
    ensures Captures(b, BooksStep(b, rowId, now, CaptureHold(id, leg, part)), now, id, leg, part)
  {
    NothingStagedCommits(b);
    var r := CaptureReference(id, leg);
    FindIsMembership(b.ledger, r);
    var change := CaptureChange(b, now, id, leg, part);
    if id in b.holds {
      assert SoundHold(b, id);
      if MayCapture(b, now, id, leg, part) && !OnLedger(b, r) {
        var h, amount := b.holds[id], Asked(b.holds[id], part);
        LegLands(b, id, CapturedBy(h, amount, now), Capture, r, h.currency, ClearingCaptured, WalletAccount(h.wallet),
                 amount, now, BooksStep(b, rowId, now, CaptureHold(id, leg, part)));
      }
    }
  }

  // ----- refund -----

  /** What a refund asks for: the part named, or all that was captured and not refunded. */
  function AskedBack(h: Hold, part: Option<int>): int {
    if part.Some? then part.value else h.captured - h.refunded
  }

  predicate MayRefund(b: Books, id: HoldId, key: string, reason: string, part: Option<int>) {
    && key != "" && reason != "" && id in b.holds
    && (OnLedger(b, RefundReference(id, key))
        || 0 < AskedBack(b.holds[id], part) <= b.holds[id].captured - b.holds[id].refunded)
  }

  ghost predicate Refunds(b: Books, after: Books, now: Time, id: HoldId, key: string, reason: string,
      part: Option<int>)
  {
    if !MayRefund(b, id, key, reason, part) || OnLedger(b, RefundReference(id, key)) then after == b
    else
      var h := b.holds[id];
      && OnlyHold(b, after, id) && after.holds[id] == h.(refunded := h.refunded + AskedBack(h, part))
      && Moves(b, after, WalletAccount(h.wallet), ClearingCaptured, AskedBack(h, part))
      && Posts(b, after, Refund, RefundReference(id, key), Some(id), now)
  }

  lemma RefundIsExact(b: Books, rowId: nat, now: Time, id: HoldId, key: string, reason: string, part: Option<int>)
    requires Sound(b)
    ensures Succeeds(b, rowId, now, RefundHold(id, key, reason, part)) <==> MayRefund(b, id, key, reason, part)
    ensures Refunds(b, BooksStep(b, rowId, now, RefundHold(id, key, reason, part)), now, id, key, reason, part)
  {
    NothingStagedCommits(b);
    FindIsMembership(b.ledger, RefundReference(id, key));
    var change := RefundChange(b, now, id, key, reason, part);
    if id in b.holds {
      assert SoundHold(b, id);
      if MayRefund(b, id, key, reason, part) && !OnLedger(b, RefundReference(id, key)) {
        RefundPosts(b, now, id, key, reason, part, BooksStep(b, rowId, now, RefundHold(id, key, reason, part)));
      }
    }
  }

  lemma RefundPosts(b: Books, now: Time, id: HoldId, key: string, reason: string, part: Option<int>, after: Books)
    requires Sound(b) && id in b.holds && MayRefund(b, id, key, reason, part)
    requires FindTransaction(b.ledger, RefundReference(id, key)).None? && !OnLedger(b, RefundReference(id, key))
    requires Perform(b, StageRefund(b, now, id, key, reason, part)).Ok?
    requires after == BooksAfter(b, Perform(b, StageRefund(b, now, id, key, reason, part)))
    ensures Refunds(b, after, now, id, key, reason, part)
  {
    var h, amount := b.holds[id], AskedBack(b.holds[id], part);
    assert SoundHold(b, id);
    LegLands(b, id, h.(refunded := h.refunded + amount), Refund, RefundReference(id, key), h.currency,
             WalletAccount(h.wallet), ClearingCaptured, amount, now, after);
  }

  // ----- void and expiry -----

  predicate MayVoid(b: Books, id: HoldId, reason: string) {
    && id in b.holds
    && match b.holds[id].status
       case Voided => true
       case PartiallyCaptured => true
       case Authorized => reason != ""
       case Captured => false
  }

  /** The hold is closed with what it had captured, and keeps nothing back. */
  predicate ClosedAs(before: Hold, after: Hold, reason: string, now: Time) {
    && after.status == (if before.captured == 0 then Voided else PartiallyCaptured)
    && after.captured == before.captured && after.refunded == before.refunded
    && after.voidReason == reason && after.voidedAt == Some(now)
    && after.capturedAt == (if before.captured == 0 then before.capturedAt else Some(now))
    && SameTerms(before, after)
  }

  ghost predicate Voids(b: Books, after: Books, now: Time, id: HoldId, reason: string) {
    if !MayVoid(b, id, reason) || b.holds[id].status != Authorized then after == b
    else after.ledger == b.ledger && OnlyHold(b, after, id) && ClosedAs(b.holds[id], after.holds[id], reason, now)
  }

  lemma VoidIsExact(b: Books, rowId: nat, now: Time, id: HoldId, reason: string)
    requires Sound(b)
    ensures Succeeds(b, rowId, now, VoidHold(id, reason)) <==> MayVoid(b, id, reason)
    ensures Voids(b, BooksStep(b, rowId, now, VoidHold(id, reason)), now, id, reason)
  {
    NothingStagedCommits(b);
    var change := VoidChange(b, now, id, reason);
    if id in b.holds {
      assert SoundHold(b, id);
    }
  }

  /** After a sweep no open hold is past its expiry; those that were are closed, and nothing else moved. */
  lemma SweepIsExact(b: Books, rowId: nat, now: Time)
    requires Sound(b)
    ensures var after := BooksStep(b, rowId, now, Sweep);
            && after.wallets == b.wallets && after.ledger == b.ledger && after.holds.Keys == b.holds.Keys
            && forall id :: id in b.holds ==>
                 var h, next := b.holds[id], after.holds[id];
                 var overdue := h.status == Authorized && h.expiresAt.Some? && h.expiresAt.value <= now;
                 && !(next.status == Authorized && next.expiresAt.Some? && next.expiresAt.value <= now)
                 && if overdue then ClosedAs(h, next, "expired", now) else next == h
  {
    forall id | id in b.holds
      ensures SoundHold(b, id)
    {
    }
  }

  // ----- wallets -----

  /** One wallet for an owner and a currency: the one there is, or a new active one. */
  lemma OpeningIsExact(b: Books, id: WalletId, now: Time, owner: string, currency: string)
    requires FreshFrom(b, id)
    ensures Succeeds(b, id, now, OpenWallet(owner, currency))
    ensures var after := BooksStep(b, id, now, OpenWallet(owner, currency));
            if exists w :: w in b.wallets && b.wallets[w].owner == owner && b.wallets[w].currency == currency
            then after == b
            else
              && after.holds == b.holds && after.ledger == b.ledger
              && id in after.wallets && after.wallets == b.wallets[id := after.wallets[id]]
              && after.wallets[id].owner == owner && after.wallets[id].currency == currency
              && after.wallets[id].status == Active
  {
    NothingStagedCommits(b);
    var change := OpenWalletChange(b, id, owner, currency);
  }

  // ----- refusals -----

  function ErrorOf<T>(outcome: Result<T, Failure>): Option<Failure> {
    if outcome.Err? then Some(outcome.error) else None
  }

  /** What a command answers when it does not succeed. */
  ghost function RefusalOf(b: Books, id: nat, now: Time, c: Command): Option<Failure> {
    match c
    case OpenWallet(owner, currency) => ErrorOf(Perform(b, StageOpenWallet(b, id, owner, currency)))
    case CreditWallet(wallet, amount, text) => ErrorOf(Perform(b, StageCredit(b, now, wallet, amount, text)))
    case Authorize(wallet, amount, reference, expiresAt) =>
      ErrorOf(Perform(b, StageAuthorize(b, now, id, wallet, amount, reference, expiresAt)))
    case CaptureHold(hold, leg, part) => ErrorOf(Perform(b, StageCapture(b, now, hold, leg, part)))
    case RefundHold(hold, key, reason, part) => ErrorOf(Perform(b, StageRefund(b, now, hold, key, reason, part)))
    case VoidHold(hold, reason) => ErrorOf(Perform(b, StageVoid(b, now, hold, reason)))
    case Sweep => None
  }

  predicate IsAmount(amount: int) {
    1 <= amount <= MAX_SAFE_INTEGER
  }

  /** What a refused authorization says is so. */
  ghost predicate TrueOfAuthorize(b: Books, now: Time, wallet: WalletId, amount: int, expiresAt: Option<Time>,
      why: Failure)
  {
    match why
    case WalletNotFound => wallet !in b.wallets
    case AmountInvalid => !IsAmount(amount)
    case WalletNotActive => wallet in b.wallets && b.wallets[wallet].status != Active
    case InsufficientBalance => amount > Available(b, wallet, now)
    case ExpiryInThePast => expiresAt.Some? && expiresAt.value <= now
    case _ => false
  }

  predicate TrueOfCapture(b: Books, now: Time, id: HoldId, leg: string, part: Option<int>, why: Failure) {
    if why == HoldNotFound then id !in b.holds
    else
      && id in b.holds
      && var h := b.holds[id];
         match why
         case NotCapturable => h.status != Authorized
         case HoldExpired => h.status == Authorized && h.expiresAt.Some? && h.expiresAt.value <= now
         case AmountInvalid => !IsAmount(Asked(h, part))
         case LegReferenceRequired => leg == "" && Asked(h, part) < h.amount - h.captured
         case ExceedsRemainingHold => Asked(h, part) > h.amount - h.captured
         case _ => false
  }

  predicate TrueOfRefund(b: Books, id: HoldId, key: string, reason: string, part: Option<int>, why: Failure) {
    match why
    case RefundReferenceRequired => key == ""
    case ReasonRequired => reason == ""
    case HoldNotFound => id !in b.holds
    case _ =>
      && id in b.holds
      && var h := b.holds[id];
         match why
         case NothingCaptured => h.captured == 0
         case NothingRefundable => h.captured != 0 && h.refunded == h.captured
         case AmountInvalid => !IsAmount(AskedBack(h, part))
         case ExceedsRefundable => AskedBack(h, part) > h.captured - h.refunded
         case _ => false
  }

  ghost predicate TrueOf(b: Books, now: Time, c: Command, why: Failure) {
    match c
    case OpenWallet(_, _) => false
    case CreditWallet(wallet, amount, _) =>
      (why == WalletNotFound && wallet !in b.wallets) || (why == AmountInvalid && !IsAmount(amount))
    case Authorize(wallet, amount, _, expiresAt) => TrueOfAuthorize(b, now, wallet, amount, expiresAt, why)
    case CaptureHold(hold, leg, part) => TrueOfCapture(b, now, hold, leg, part, why)
    case RefundHold(hold, key, reason, part) => TrueOfRefund(b, hold, key, reason, part, why)
    case VoidHold(hold, reason) =>
      || (why == HoldNotFound && hold !in b.holds)
      || (hold in b.holds && why == CapturedCannotBeVoided && b.holds[hold].status == Captured)
      || (hold in b.holds && why == ReasonRequired && b.holds[hold].status == Authorized && reason == "")
    case Sweep => false
  }

  /** A refusal says something that is true of the rows, and no command is refused for anything else. */
  lemma RefusalsAreTrue(b: Books, id: nat, now: Time, c: Command)
    requires Sound(b) && FreshFrom(b, id)
    ensures RefusalOf(b, id, now, c).Some? <==> !Succeeds(b, id, now, c)
    ensures RefusalOf(b, id, now, c).Some? ==> TrueOf(b, now, c, RefusalOf(b, id, now, c).value)
  {
    SerialCommandsNeverTripAConstraint(b, id, now, c);
    match c
    case CaptureHold(hold, _, _) => assert hold in b.holds ==> SoundHold(b, hold);
    case RefundHold(hold, _, _, _) => assert hold in b.holds ==> SoundHold(b, hold);
    case _ =>
  }
}
