/**
 Wallets, holds and the append-only ledger: the rows, what one transaction may write, and
 what every command stages.

 A command first reads committed rows and stages writes; a commit then applies all of them
 or none, running the deferred ledger check last. Running a command alone is staging and
 committing against the same rows; running commands concurrently is committing writes that
 were staged against older rows.
 */
module Money {
  import opened Common
  import opened Totals

  type Time = int
  type WalletId = nat
  type HoldId = nat

  const MAX_SAFE_INTEGER := 9007199254740991

  // ----- rows -----

  datatype WalletStatus = Active | Frozen | Closed

  datatype Wallet = Wallet(owner: string, currency: string, status: WalletStatus)

  datatype HoldStatus = Authorized | Captured | PartiallyCaptured | Voided

  /** `payment_authorization`: the ceiling a payer consented to and what has moved of it. */
  datatype Hold = Hold(
    wallet: WalletId,
    amount: int,
    captured: int,
    refunded: int,
    currency: string,
    status: HoldStatus,
    reference: string,
    createdAt: Time,
    capturedAt: Option<Time>,
    voidedAt: Option<Time>,
    expiresAt: Option<Time>,
    voidReason: string)

  datatype Account = WalletAccount(wallet: WalletId) | ClearingExternal | ClearingCaptured

  datatype Entry = Entry(account: Account, amount: int, currency: string)

  datatype Kind = Credit | Capture | Refund

  /**
   The unique reference of a ledger transaction. `CaptureReference(h, "")` is the reference of
   a capture made without a key of its own. What becomes of these as texts, and when a store
   that looks them up by text behaves alike, is `ReferenceText` and `ReferenceLookups`.
   */
  datatype Reference =
    | CreditReference(text: string)
    | CaptureReference(hold: HoldId, leg: string)
    | RefundReference(hold: HoldId, key: string)

  datatype Transaction = Transaction(
    kind: Kind,
    reference: Reference,
    hold: Option<HoldId>,
    occurredAt: Time,
    entries: seq<Entry>)

  datatype Books = Books(
    wallets: map<WalletId, Wallet>,
    holds: map<HoldId, Hold>,
    ledger: seq<Transaction>)

  datatype Failure =
    | WalletNotFound
    | HoldNotFound
    | AmountInvalid
    | WalletNotActive
    | InsufficientBalance
    | ExpiryInThePast
    | NotCapturable
    | HoldExpired
    | LegReferenceRequired
    | ExceedsRemainingHold
    | RefundReferenceRequired
    | ReasonRequired
    | NothingCaptured
    | NothingRefundable
    | ExceedsRefundable
    | CapturedCannotBeVoided
    | ConstraintViolated

  // ----- amounts derived from rows -----

  function RemainingHold(h: Hold): int {
    if h.status == Authorized then h.amount - h.captured else 0
  }

  function RefundableAmount(h: Hold): int {
    h.captured - h.refunded
  }

  predicate Expired(h: Hold, now: Time) {
    h.expiresAt.Some? && h.expiresAt.value <= now
  }

  predicate ValidAmount(amount: int) {
    0 < amount <= MAX_SAFE_INTEGER
  }

  function PostedBy(entries: seq<Entry>, account: Account): int {
    if entries == [] then 0
    else
      var last := entries[|entries| - 1];
      PostedBy(entries[..|entries| - 1], account) + (if last.account == account then last.amount else 0)
  }

  function EntrySum(entries: seq<Entry>): int {
    if entries == [] then 0
    else EntrySum(entries[..|entries| - 1]) + entries[|entries| - 1].amount
  }

  function Posted(ledger: seq<Transaction>, account: Account): int {
    if ledger == [] then 0
    else Posted(ledger[..|ledger| - 1], account) + PostedBy(ledger[|ledger| - 1].entries, account)
  }

  /** What the ledger says transactions of one kind posted to `clearing:captured` for a hold. */
  function Moved(ledger: seq<Transaction>, kind: Kind, id: HoldId): int {
    if ledger == [] then 0
    else
      var last := ledger[|ledger| - 1];
      Moved(ledger[..|ledger| - 1], kind, id)
      + (if last.kind == kind && last.hold == Some(id) then PostedBy(last.entries, ClearingCaptured) else 0)
  }

  /** What a hold keeps out of its wallet's available balance at an instant. */
  ghost function HeldFor(wallet: WalletId, now: Time): Hold -> int {
    (h: Hold) => if h.wallet == wallet && !Expired(h, now) then RemainingHold(h) else 0
  }

  ghost function Available(b: Books, wallet: WalletId, now: Time): int {
    Posted(b.ledger, WalletAccount(wallet)) - Total(b.holds, HeldFor(wallet, now))
  }

  // ----- what the store accepts -----

  /** The three check constraints on a hold's totals, its status and its void reason. */
  predicate HoldShape(h: Hold) {
    && 0 <= h.captured <= h.amount
    && 0 <= h.refunded <= h.captured
    && (match h.status
        case Authorized => h.captured < h.amount
        case Captured => h.captured == h.amount
        case PartiallyCaptured => 0 < h.captured < h.amount
        case Voided => h.captured == 0)
    && (h.status == Voided || h.status == PartiallyCaptured ==> h.voidReason != "")
  }

  predicate Balanced(entries: seq<Entry>) {
    && |entries| >= 2
    && (forall i :: 0 <= i < |entries| ==> entries[i].currency == entries[0].currency)
    && EntrySum(entries) == 0
  }

  /** The deferred trigger: a hold's totals are what the ledger says moved. */
  predicate LedgerAgrees(b: Books, id: HoldId) {
    id in b.holds ==>
      && b.holds[id].captured == Moved(b.ledger, Capture, id)
      && b.holds[id].refunded == -Moved(b.ledger, Refund, id)
  }

  function FindTransaction(ledger: seq<Transaction>, reference: Reference): Option<Transaction> {
    if ledger == [] then None
    else
      var earlier := FindTransaction(ledger[..|ledger| - 1], reference);
      var last := ledger[|ledger| - 1];
      if earlier.Some? then earlier else if last.reference == reference then Some(last) else None
  }

  predicate HoldReferenceTaken(b: Books, reference: string) {
    exists id :: id in b.holds && b.holds[id].reference == reference
  }

  datatype Write =
    | InsertWallet(wallet: WalletId, row: Wallet)
    | InsertHold(id: HoldId, hold: Hold)
    | UpdateHold(id: HoldId, hold: Hold)
    | InsertTransaction(transaction: Transaction)

  /** One write inside a transaction, with the checks that run immediately. */
  function ApplyWrite(b: Books, w: Write): Result<Books, Failure> {
    match w
    case InsertWallet(wallet, row) =>
      if exists other :: other in b.wallets && other != wallet
           && b.wallets[other].owner == row.owner && b.wallets[other].currency == row.currency
      then Err(ConstraintViolated)
      else Ok(b.(wallets := b.wallets[wallet := row]))
    case InsertHold(id, hold) =>
      if !HoldShape(hold) || hold.amount <= 0 || hold.wallet !in b.wallets
        || (exists other :: other in b.holds && other != id && b.holds[other].reference == hold.reference)
      then Err(ConstraintViolated)
      else Ok(b.(holds := b.holds[id := hold]))
    case UpdateHold(id, hold) =>
      if !HoldShape(hold) || hold.amount <= 0 || hold.wallet !in b.wallets then Err(ConstraintViolated)
      else Ok(b.(holds := b.holds[id := hold]))
    case InsertTransaction(t) =>
      if FindTransaction(b.ledger, t.reference).Some?
        || (t.kind == Credit) != t.hold.None?
        || (exists i :: 0 <= i < |t.entries| && t.entries[i].amount == 0)
        || (t.hold.Some? && t.hold.value !in b.holds)
      then Err(ConstraintViolated)
      else Ok(b.(ledger := b.ledger + [t]))
  }

  function ApplyAll(b: Books, writes: seq<Write>): Result<Books, Failure> {
    if writes == [] then Ok(b)
    else
      match ApplyAll(b, writes[..|writes| - 1])
      case Err(e) => Err(e)
      case Ok(mid) => ApplyWrite(mid, writes[|writes| - 1])
  }

  /** The checks a write defers to the commit point, judged on the rows about to commit. */
  predicate DeferredHolds(after: Books, w: Write) {
    match w
    case InsertWallet(_, _) => true
    case InsertHold(_, _) => true
    case UpdateHold(id, _) => LedgerAgrees(after, id)
    case InsertTransaction(t) => Balanced(t.entries) && (t.hold.Some? ==> LedgerAgrees(after, t.hold.value))
  }

  /** All the writes, or none of them. */
  function Commit(b: Books, writes: seq<Write>): Result<Books, Failure> {
    match ApplyAll(b, writes)
    case Err(e) => Err(e)
    case Ok(after) =>
      if forall i :: 0 <= i < |writes| ==> DeferredHolds(after, writes[i]) then Ok(after)
      else Err(ConstraintViolated)
  }

  // ----- what each command reads and stages -----

  datatype Staged<+T> = Refused(why: Failure) | Staged(value: T, writes: seq<Write>)

  function Movement(kind: Kind, reference: Reference, currency: string, plus: Account, minus: Account,
      amount: int, hold: Option<HoldId>, now: Time): Transaction
  {
    Transaction(kind, reference, hold, now, [Entry(plus, amount, currency), Entry(minus, -amount, currency)])
  }

  ghost function StageOpenWallet(b: Books, id: WalletId, owner: string, currency: string): Staged<WalletId> {
    if exists w :: w in b.wallets && b.wallets[w].owner == owner && b.wallets[w].currency == currency then
      var w :| w in b.wallets && b.wallets[w].owner == owner && b.wallets[w].currency == currency;
      Staged(w, [])
    else
      Staged(id, [InsertWallet(id, Wallet(owner, currency, Active))])
  }

  function StageCredit(b: Books, now: Time, wallet: WalletId, amount: int, text: string): Staged<Transaction> {
    if wallet !in b.wallets then Refused(WalletNotFound)
    else if !ValidAmount(amount) then Refused(AmountInvalid)
    else
      match FindTransaction(b.ledger, CreditReference(text))
      case Some(existing) => Staged(existing, [])
      case None =>
        var t := Movement(Credit, CreditReference(text), b.wallets[wallet].currency,
                          WalletAccount(wallet), ClearingExternal, amount, None, now);
        Staged(t, [InsertTransaction(t)])
  }

  ghost function HoldWithReference(b: Books, reference: string): HoldId
    requires HoldReferenceTaken(b, reference)
  {
    var id :| id in b.holds && b.holds[id].reference == reference; id
  }

  function NewHold(wallet: WalletId, currency: string, amount: int, reference: string, now: Time,
      expiresAt: Option<Time>): Hold
  {
    Hold(wallet, amount, 0, 0, currency, Authorized, reference, now, None, None, expiresAt, "")
  }

  ghost function StageAuthorize(b: Books, now: Time, id: HoldId, wallet: WalletId, amount: int,
      reference: string, expiresAt: Option<Time>): Staged<HoldId>
  {
    if wallet !in b.wallets then Refused(WalletNotFound)
    else if !ValidAmount(amount) then Refused(AmountInvalid)
    else if HoldReferenceTaken(b, reference) then Staged(HoldWithReference(b, reference), [])
    else if b.wallets[wallet].status != Active then Refused(WalletNotActive)
    else if Available(b, wallet, now) < amount then Refused(InsufficientBalance)
    else if expiresAt.Some? && expiresAt.value <= now then Refused(ExpiryInThePast)
    else Staged(id, [InsertHold(id, NewHold(wallet, b.wallets[wallet].currency, amount, reference, now, expiresAt))])
  }

  function CapturedBy(h: Hold, amount: int, now: Time): Hold {
    var total := h.captured + amount;
    var settled := total == h.amount;
    h.(captured := total,
       status := if settled then Captured else Authorized,
       capturedAt := if settled then Some(now) else h.capturedAt)
  }

  /** `leg` is the caller's capture reference, empty when there is none. */
  function StageCapture(b: Books, now: Time, id: HoldId, leg: string, amount: Option<int>): Staged<Hold> {
    if id !in b.holds then Refused(HoldNotFound)
    else
      var h := b.holds[id];
      var reference := CaptureReference(id, leg);
      // The ledger answers a retry before the amount is considered.
      if FindTransaction(b.ledger, reference).Some? then Staged(h, [])
      else if h.status != Authorized then Refused(NotCapturable)
      else if Expired(h, now) then Refused(HoldExpired)
      else
        var remaining := RemainingHold(h);
        var requested := if amount.Some? then amount.value else remaining;
        if !ValidAmount(requested) then Refused(AmountInvalid)
        else if requested < remaining && leg == "" then Refused(LegReferenceRequired)
        else if requested > remaining then Refused(ExceedsRemainingHold)
        else if h.wallet !in b.wallets then Refused(WalletNotFound)
        else
          var t := Movement(Capture, reference, h.currency, ClearingCaptured, WalletAccount(h.wallet),
                            requested, Some(id), now);
          Staged(CapturedBy(h, requested, now), [UpdateHold(id, CapturedBy(h, requested, now)), InsertTransaction(t)])
  }

  /** `key` and `reason` are the trimmed texts. */
  function StageRefund(b: Books, now: Time, id: HoldId, key: string, reason: string, amount: Option<int>)
    : Staged<Transaction>
  {
    if key == "" then Refused(RefundReferenceRequired)
    else if reason == "" then Refused(ReasonRequired)
    else if id !in b.holds then Refused(HoldNotFound)
    else
      var h := b.holds[id];
      var reference := RefundReference(id, key);
      match FindTransaction(b.ledger, reference)
      case Some(existing) => Staged(existing, [])
      case None =>
        var refundable := RefundableAmount(h);
        if h.captured == 0 then Refused(NothingCaptured)
        else if refundable == 0 then Refused(NothingRefundable)
        else
          var requested := if amount.Some? then amount.value else refundable;
          if !ValidAmount(requested) then Refused(AmountInvalid)
          else if requested > refundable then Refused(ExceedsRefundable)
          else if h.wallet !in b.wallets then Refused(WalletNotFound)
          else
            var t := Movement(Refund, reference, h.currency, WalletAccount(h.wallet), ClearingCaptured,
                              requested, Some(id), now);
            Staged(t, [UpdateHold(id, h.(refunded := h.refunded + requested)), InsertTransaction(t)])
  }

  /** Releases the remainder; a hold that moved part of its amount closes as partially captured. */
  function VoidedAs(h: Hold, reason: string, now: Time): Hold {
    var closed := if h.captured > 0 then PartiallyCaptured else Voided;
    h.(status := closed,
       voidedAt := Some(now),
       voidReason := reason,
       capturedAt := if closed == PartiallyCaptured then Some(now) else h.capturedAt)
  }

  function StageVoid(b: Books, now: Time, id: HoldId, reason: string): Staged<Hold> {
    if id !in b.holds then Refused(HoldNotFound)
    else
      var h := b.holds[id];
      if h.status == Voided || h.status == PartiallyCaptured then Staged(h, [])
      else if h.status == Captured then Refused(CapturedCannotBeVoided)
      else if reason == "" then Refused(ReasonRequired)
      else Staged(VoidedAs(h, reason, now), [UpdateHold(id, VoidedAs(h, reason, now))])
  }

  /** The holds one expiry sweep closes. */
  predicate SweepDue(h: Hold, now: Time) {
    h.status == Authorized && Expired(h, now)
  }
}
