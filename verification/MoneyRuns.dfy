/**
 Serial runs of the money commands: each command reads, stages and commits before the next.

 What holds after every run: the books are sound (so no serial command is ever refused by the
 deferred ledger check), the ledger conserves money, and no wallet is overdrawn.
 */
module MoneyRuns {
  import opened Common
  import opened Money

  datatype Command =
    | OpenWallet(owner: string, currency: string)
    | CreditWallet(wallet: WalletId, amount: int, text: string)
    | Authorize(wallet: WalletId, amount: int, reference: string, expiresAt: Option<Time>)
    | CaptureHold(hold: HoldId, leg: string, part: Option<int>)
    | RefundHold(hold: HoldId, key: string, reason: string, part: Option<int>)
    | VoidHold(hold: HoldId, reason: string)
    | Sweep

  /** The committed rows and the next identifier `newId` will hand out. */
  datatype Till = Till(books: Books, nextId: nat)

  const EMPTY_TILL := Till(Books(map[], map[], []), 0)

  ghost function Perform<T>(b: Books, staged: Staged<T>): Result<(T, Books), Failure> {
    match staged
    case Refused(why) => Err(why)
    case Staged(value, writes) =>
      match Commit(b, writes)
      case Ok(after) => Ok((value, after))
      case Err(e) => Err(e)
  }

  ghost function BooksAfter<T>(b: Books, outcome: Result<(T, Books), Failure>): Books {
    if outcome.Ok? then outcome.value.1 else b
  }

  /** Every hold that is due, closed as a void with the reason `expired` would close it. */
  function Swept(b: Books, now: Time): Books {
    b.(holds := map id | id in b.holds ::
         if SweepDue(b.holds[id], now) then VoidedAs(b.holds[id], "expired", now) else b.holds[id])
  }

  ghost function BooksStep(b: Books, id: nat, now: Time, c: Command): Books {
    match c
    case OpenWallet(owner, currency) => BooksAfter(b, Perform(b, StageOpenWallet(b, id, owner, currency)))
    case CreditWallet(wallet, amount, text) => BooksAfter(b, Perform(b, StageCredit(b, now, wallet, amount, text)))
    case Authorize(wallet, amount, reference, expiresAt) =>
      BooksAfter(b, Perform(b, StageAuthorize(b, now, id, wallet, amount, reference, expiresAt)))
    case CaptureHold(hold, leg, part) => BooksAfter(b, Perform(b, StageCapture(b, now, hold, leg, part)))
    case RefundHold(hold, key, reason, part) =>
      BooksAfter(b, Perform(b, StageRefund(b, now, hold, key, reason, part)))
    case VoidHold(hold, reason) => BooksAfter(b, Perform(b, StageVoid(b, now, hold, reason)))
    case Sweep => Swept(b, now)
  }

  /** An identifier is used up only by a command that inserts a row. */
  ghost function Step(t: Till, now: Time, c: Command): Till {
    var after := BooksStep(t.books, t.nextId, now, c);
    Till(after, if (c.OpenWallet? || c.Authorize?) && after != t.books then t.nextId + 1 else t.nextId)
  }

  // ----- soundness -----

  /** A transaction the service could have written: balanced, and filed where its kind belongs. */
  ghost predicate SoundTransaction(b: Books, t: Transaction) {
    && |t.entries| == 2
    && t.entries[0].amount > 0
    && t.entries[1].amount == -t.entries[0].amount
    && t.entries[0].currency == t.entries[1].currency
    && (match t.kind
        case Credit =>
          && t.reference.CreditReference?
          && t.hold == None
          && t.entries[0].account.WalletAccount? && t.entries[0].account.wallet in b.wallets
          && t.entries[1].account == ClearingExternal
        case Capture =>
          && t.reference.CaptureReference?
          && t.hold == Some(t.reference.hold) && t.reference.hold in b.holds
          && t.entries[0].account == ClearingCaptured
          && t.entries[1].account == WalletAccount(b.holds[t.reference.hold].wallet)
        case Refund =>
          && t.reference.RefundReference?
          && t.hold == Some(t.reference.hold) && t.reference.hold in b.holds
          && t.entries[0].account == WalletAccount(b.holds[t.reference.hold].wallet)
          && t.entries[1].account == ClearingCaptured)
  }

  ghost predicate SoundHold(b: Books, id: HoldId)
    requires id in b.holds
  {
    var h := b.holds[id];
    && HoldShape(h)
    && ValidAmount(h.amount)
    && h.wallet in b.wallets
    && LedgerAgrees(b, id)
    && (FindTransaction(b.ledger, CaptureReference(id, "")).Some? ==> h.status == Captured)
  }

  ghost predicate DistinctHoldReferences(b: Books) {
    forall i, j :: i in b.holds && j in b.holds && b.holds[i].reference == b.holds[j].reference ==> i == j
  }

  ghost predicate DistinctReferences(ledger: seq<Transaction>) {
    forall i, j :: 0 <= i < j < |ledger| ==> ledger[i].reference != ledger[j].reference
  }

  ghost predicate Sound(b: Books) {
    && (forall id {:trigger SoundHold(b, id)} :: id in b.holds ==> SoundHold(b, id))
    && (forall i {:trigger SoundTransaction(b, b.ledger[i])} ::
        0 <= i < |b.ledger| ==> SoundTransaction(b, b.ledger[i]))
    && DistinctHoldReferences(b)
    && DistinctReferences(b.ledger)
  }

  ghost predicate FreshFrom(b: Books, id: nat) {
    && (forall h :: h in b.holds ==> h < id)
    && (forall w :: w in b.wallets ==> w < id)
  }

  // ----- reading an appended ledger -----

  lemma PostedAppend(ledger: seq<Transaction>, t: Transaction, account: Account)
    ensures Posted(ledger + [t], account) == Posted(ledger, account) + PostedBy(t.entries, account)
  {
    assert (ledger + [t])[..|ledger|] == ledger;
  }

  lemma MovedAppend(ledger: seq<Transaction>, t: Transaction, kind: Kind, id: HoldId)
    ensures Moved(ledger + [t], kind, id) == Moved(ledger, kind, id)
         + (if t.kind == kind && t.hold == Some(id) then PostedBy(t.entries, ClearingCaptured) else 0)
  {
    assert (ledger + [t])[..|ledger|] == ledger;
  }

  lemma FindAppend(ledger: seq<Transaction>, t: Transaction, reference: Reference)
    ensures FindTransaction(ledger + [t], reference)
         == (if FindTransaction(ledger, reference).Some? then FindTransaction(ledger, reference)
             else if t.reference == reference then Some(t) else None)
  {
    assert (ledger + [t])[..|ledger|] == ledger;
  }

  lemma {:induction false} FindIsMembership(ledger: seq<Transaction>, reference: Reference)
    ensures FindTransaction(ledger, reference).Some?
       <==> exists i :: 0 <= i < |ledger| && ledger[i].reference == reference
    ensures FindTransaction(ledger, reference).Some? ==>
              FindTransaction(ledger, reference).value in ledger
              && FindTransaction(ledger, reference).value.reference == reference
  {
    if ledger != [] {
      FindIsMembership(ledger[..|ledger| - 1], reference);
      assert ledger == ledger[..|ledger| - 1] + [ledger[|ledger| - 1]];
    }
  }

  lemma TwoEntries(first: Entry, second: Entry, account: Account)
    ensures PostedBy([first, second], account)
         == (if first.account == account then first.amount else 0)
          + (if second.account == account then second.amount else 0)
    ensures EntrySum([first, second]) == first.amount + second.amount
  {
    assert [first, second][..1] == [first];
    assert PostedBy([first], account) == if first.account == account then first.amount else 0;
    assert EntrySum([first]) == first.amount;
  }

  lemma TransactionPosts(b: Books, t: Transaction, account: Account)
    requires SoundTransaction(b, t)
    ensures PostedBy(t.entries, account)
         == (if t.entries[0].account == account then t.entries[0].amount else 0)
          + (if t.entries[1].account == account then t.entries[1].amount else 0)
    ensures Balanced(t.entries)
  {
    assert t.entries == [t.entries[0], t.entries[1]];
    TwoEntries(t.entries[0], t.entries[1], account);
  }

  // ----- what one commit does to sound books -----

  lemma ApplyOne(b: Books, w: Write)
    ensures ApplyAll(b, [w]) == ApplyWrite(b, w)
  {
    assert [w][..0] == [];
  }

  lemma ApplyTwo(b: Books, first: Write, second: Write)
    ensures ApplyAll(b, [first, second])
         == (match ApplyWrite(b, first) case Err(e) => Err(e) case Ok(mid) => ApplyWrite(mid, second))
  {
    assert [first, second][..1] == [first];
    ApplyOne(b, first);
  }

  /** How much a transaction changes what a hold's ledger rows say was captured. */
  function CapturedChange(t: Transaction): int
    requires |t.entries| == 2
  {
    if t.kind == Capture then t.entries[0].amount else 0
  }

  function RefundedChange(t: Transaction): int
    requires |t.entries| == 2
  {
    if t.kind == Refund then t.entries[0].amount else 0
  }

  lemma MovedBySound(b: Books, t: Transaction, id: HoldId)
    requires SoundTransaction(b, t)
    ensures Moved(b.ledger + [t], Capture, id)
         == Moved(b.ledger, Capture, id) + (if t.hold == Some(id) then CapturedChange(t) else 0)
    ensures -Moved(b.ledger + [t], Refund, id)
         == -Moved(b.ledger, Refund, id) + (if t.hold == Some(id) then RefundedChange(t) else 0)
  {
    MovedAppend(b.ledger, t, Capture, id);
    MovedAppend(b.ledger, t, Refund, id);
    TransactionPosts(b, t, ClearingCaptured);
  }

  /**
   When a staged leg commits, whatever happened since it was staged: exactly when its reference
   is still free and its totals follow on from the totals the hold has now.
   */
  lemma LegCommitsExactlyWhenCurrent(b: Books, id: HoldId, next: Hold, t: Transaction)
    requires Sound(b) && id in b.holds
    requires HoldShape(next) && next.amount > 0 && next.wallet in b.wallets
    requires SoundTransaction(b, t) && t.hold == Some(id)
    ensures Commit(b, [UpdateHold(id, next), InsertTransaction(t)]).Ok?
       <==> && FindTransaction(b.ledger, t.reference).None?
            && next.captured == b.holds[id].captured + CapturedChange(t)
            && next.refunded == b.holds[id].refunded + RefundedChange(t)
    ensures Commit(b, [UpdateHold(id, next), InsertTransaction(t)]).Ok? ==>
              Commit(b, [UpdateHold(id, next), InsertTransaction(t)]).value
                == Books(b.wallets, b.holds[id := next], b.ledger + [t])
  {
    var writes := [UpdateHold(id, next), InsertTransaction(t)];
    ApplyTwo(b, writes[0], writes[1]);
    if FindTransaction(b.ledger, t.reference).None? {
      var after := Books(b.wallets, b.holds[id := next], b.ledger + [t]);
      assert ApplyAll(b, writes) == Ok(after);
      MovedBySound(b, t, id);
      TransactionPosts(b, t, ClearingCaptured);
      assert SoundHold(b, id);
      assert LedgerAgrees(after, id) <==>
        next.captured == b.holds[id].captured + CapturedChange(t)
        && next.refunded == b.holds[id].refunded + RefundedChange(t);
      assert DeferredHolds(after, writes[0]) == LedgerAgrees(after, id);
      assert DeferredHolds(after, writes[1]) == LedgerAgrees(after, id);
    }
  }

  /** The same for a write that moves no money. */
  lemma ReleaseCommitsExactlyWhenCurrent(b: Books, id: HoldId, next: Hold)
    requires Sound(b) && id in b.holds
    requires HoldShape(next) && next.amount > 0 && next.wallet in b.wallets
    ensures Commit(b, [UpdateHold(id, next)]).Ok?
       <==> next.captured == b.holds[id].captured && next.refunded == b.holds[id].refunded
    ensures Commit(b, [UpdateHold(id, next)]).Ok? ==>
              Commit(b, [UpdateHold(id, next)]).value == b.(holds := b.holds[id := next])
  {
    ApplyOne(b, UpdateHold(id, next));
    var after := b.(holds := b.holds[id := next]);
    assert SoundHold(b, id);
    assert DeferredHolds(after, UpdateHold(id, next)) == LedgerAgrees(after, id);
    assert [UpdateHold(id, next)][0] == UpdateHold(id, next);
  }

  /** Moving one hold to a legal next row, together with the ledger row that explains the change. */
  lemma LegKeepsSound(b: Books, id: HoldId, next: Hold, t: Transaction)
    requires Sound(b) && id in b.holds
    requires HoldShape(next) && ValidAmount(next.amount) && next.wallet == b.holds[id].wallet
    requires next.reference == b.holds[id].reference
    requires SoundTransaction(b, t) && t.hold == Some(id) && FindTransaction(b.ledger, t.reference).None?
    requires next.captured == b.holds[id].captured + CapturedChange(t)
    requires next.refunded == b.holds[id].refunded + RefundedChange(t)
    requires b.holds[id].status == Captured || t.reference == CaptureReference(id, "") ==> next.status == Captured
    ensures Sound(Books(b.wallets, b.holds[id := next], b.ledger + [t]))
  {
    var after := Books(b.wallets, b.holds[id := next], b.ledger + [t]);
    forall j | j in after.holds
      ensures SoundHold(after, j)
    {
      assert SoundHold(b, j);
      MovedBySound(b, t, j);
      FindAppend(b.ledger, t, CaptureReference(j, ""));
    }
    forall i | 0 <= i < |after.ledger|
      ensures SoundTransaction(after, after.ledger[i])
    {
      if i < |b.ledger| {
        assert SoundTransaction(b, b.ledger[i]);
      }
    }
    FindIsMembership(b.ledger, t.reference);
  }

  lemma ReleaseKeepsSound(b: Books, id: HoldId, next: Hold)
    requires Sound(b) && id in b.holds
    requires HoldShape(next) && ValidAmount(next.amount) && next.wallet == b.holds[id].wallet
    requires next.reference == b.holds[id].reference
    requires next.captured == b.holds[id].captured && next.refunded == b.holds[id].refunded
    requires b.holds[id].status == Captured ==> next.status == Captured
    ensures Sound(b.(holds := b.holds[id := next]))
  {
    var after := b.(holds := b.holds[id := next]);
    forall j | j in after.holds
      ensures SoundHold(after, j)
    {
      assert SoundHold(b, j);
    }
    forall i | 0 <= i < |after.ledger|
      ensures SoundTransaction(after, after.ledger[i])
    {
      assert SoundTransaction(b, b.ledger[i]);
    }
  }
}
