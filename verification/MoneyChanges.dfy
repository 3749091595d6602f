/**
 The five ways a commit can change sound books, and what every one of them keeps.

 Serial commands and commits of stale writes both come down to these changes, so soundness and
 conservation are proved once, here.
 */
module MoneyChanges {
  import opened Common
  import opened Totals
  import opened Money
  import opened MoneyRuns

  datatype Change =
    | Unchanged
    | WalletOpened(wallet: WalletId, row: Wallet)
    | HoldOpened(id: HoldId, hold: Hold)
    | CreditPosted(t: Transaction)
    | LegPosted(id: HoldId, next: Hold, t: Transaction)
    | HoldReleased(id: HoldId, next: Hold)

  function Apply(b: Books, c: Change): Books {
    match c
    case Unchanged => b
    case WalletOpened(wallet, row) => b.(wallets := b.wallets[wallet := row])
    case HoldOpened(id, hold) => b.(holds := b.holds[id := hold])
    case CreditPosted(t) => b.(ledger := b.ledger + [t])
    case LegPosted(id, next, t) => Books(b.wallets, b.holds[id := next], b.ledger + [t])
    case HoldReleased(id, next) => b.(holds := b.holds[id := next])
  }

  /** The parts of a hold no command rewrites. */
  predicate SameTerms(before: Hold, after: Hold) {
    && after.wallet == before.wallet && after.amount == before.amount && after.reference == before.reference
    && after.currency == before.currency && after.createdAt == before.createdAt
    && after.expiresAt == before.expiresAt
  }

  /** A row may move on, but its owner, its ceiling and its reference are fixed for life. */
  predicate SameHold(before: Hold, after: Hold) {
    SameTerms(before, after) && (before.status == Captured ==> after.status == Captured)
  }

  ghost predicate Legal(b: Books, c: Change) {
    match c
    case Unchanged => true
    case WalletOpened(wallet, _) => wallet !in b.wallets
    case HoldOpened(id, h) =>
      && id !in b.holds && h.wallet in b.wallets && ValidAmount(h.amount) && HoldShape(h)
      && h.captured == 0 && h.refunded == 0 && !HoldReferenceTaken(b, h.reference)
    case CreditPosted(t) =>
      SoundTransaction(b, t) && t.kind == Credit && FindTransaction(b.ledger, t.reference).None?
    case LegPosted(id, next, t) =>
      && id in b.holds && HoldShape(next) && SameHold(b.holds[id], next)
      && SoundTransaction(b, t) && t.hold == Some(id) && FindTransaction(b.ledger, t.reference).None?
      && next.captured == b.holds[id].captured + CapturedChange(t)
      && next.refunded == b.holds[id].refunded + RefundedChange(t)
      && (t.reference == CaptureReference(id, "") ==> next.status == Captured)
    case HoldReleased(id, next) =>
      && id in b.holds && HoldShape(next) && SameHold(b.holds[id], next)
      && next.captured == b.holds[id].captured && next.refunded == b.holds[id].refunded
  }

  lemma SameTransactions(b: Books, after: Books)
    requires Sound(b) && after.ledger == b.ledger
    requires b.wallets.Keys <= after.wallets.Keys && b.holds.Keys <= after.holds.Keys
    requires forall id :: id in b.holds ==> after.holds[id].wallet == b.holds[id].wallet
    ensures forall i :: 0 <= i < |after.ledger| ==> SoundTransaction(after, after.ledger[i])
  {
    forall i | 0 <= i < |after.ledger|
      ensures SoundTransaction(after, after.ledger[i])
    {
      assert SoundTransaction(b, b.ledger[i]);
    }
  }

  /** A hold the ledger has never heard of has moved nothing. */
  lemma {:induction false} UnknownHoldMovedNothing(b: Books, ledger: seq<Transaction>, id: HoldId)
    requires id !in b.holds
    requires forall i :: 0 <= i < |ledger| ==> SoundTransaction(b, ledger[i])
    ensures Moved(ledger, Capture, id) == 0 && Moved(ledger, Refund, id) == 0
    ensures FindTransaction(ledger, CaptureReference(id, "")).None?
  {
    if ledger != [] {
      var last := ledger[|ledger| - 1];
      assert SoundTransaction(b, last);
      UnknownHoldMovedNothing(b, ledger[..|ledger| - 1], id);
    }
  }

  lemma HoldOpenedKeepsSound(b: Books, id: HoldId, h: Hold)
    requires Sound(b) && Legal(b, HoldOpened(id, h))
    ensures Sound(Apply(b, HoldOpened(id, h)))
  {
    var after := Apply(b, HoldOpened(id, h));
    UnknownHoldMovedNothing(b, b.ledger, id);
    SameTransactions(b, after);
    forall j | j in after.holds
      ensures SoundHold(after, j)
    {
      if j != id {
        assert SoundHold(b, j);
      }
    }
  }

  lemma CreditKeepsSound(b: Books, t: Transaction)
    requires Sound(b) && Legal(b, CreditPosted(t))
    ensures Sound(Apply(b, CreditPosted(t)))
  {
    var after := Apply(b, CreditPosted(t));
    forall j | j in after.holds
      ensures SoundHold(after, j)
    {
      assert SoundHold(b, j);
      MovedBySound(b, t, j);
      FindAppend(b.ledger, t, CaptureReference(j, ""));
    }
    forall i | 0 <= i < |after.ledger|
      ensures SoundTransaction(after, after.ledger[i])
    {
      if i < |b.ledger| {
        assert SoundTransaction(b, b.ledger[i]);
      }
    }
    FindIsMembership(b.ledger, t.reference);
  }

  lemma ChangeKeepsSound(b: Books, c: Change)
    requires Sound(b) && Legal(b, c)
    ensures Sound(Apply(b, c))
  {
    match c
    case Unchanged =>
    case WalletOpened(wallet, row) =>
      var after := Apply(b, c);
      SameTransactions(b, after);
      forall j | j in after.holds
        ensures SoundHold(after, j)
      {
        assert SoundHold(b, j);
      }
    case HoldOpened(id, h) => HoldOpenedKeepsSound(b, id, h);
    case CreditPosted(t) => CreditKeepsSound(b, t);
    case LegPosted(id, next, t) =>
      assert SoundHold(b, id);
      LegKeepsSound(b, id, next, t);
    case HoldReleased(id, next) =>
      assert SoundHold(b, id);
      ReleaseKeepsSound(b, id, next);
  }

  // ----- conservation -----

  ghost function PostedTo(ledger: seq<Transaction>): WalletId -> int {
    (w: WalletId) => Posted(ledger, WalletAccount(w))
  }

  function WalletIds(b: Books): map<WalletId, WalletId> {
    map w | w in b.wallets :: w
  }

  function NetCaptured(): Hold -> int {
    (h: Hold) => h.captured - h.refunded
  }

  /** Everything every account holds adds up to nothing. */
  ghost predicate AccountsBalance(b: Books) {
    Posted(b.ledger, ClearingExternal) + Posted(b.ledger, ClearingCaptured)
    + Total(WalletIds(b), PostedTo(b.ledger)) == 0
  }

  /** What sits in the captured account is what the holds say was captured and not given back. */
  ghost predicate CapturedAccountAgrees(b: Books) {
    Posted(b.ledger, ClearingCaptured) == Total(b.holds, NetCaptured())
  }

  ghost predicate Conserved(b: Books) {
    AccountsBalance(b) && CapturedAccountAgrees(b)
  }

  lemma {:induction false} UnknownWalletUnposted(b: Books, ledger: seq<Transaction>, wallet: WalletId)
    requires forall id :: id in b.holds ==> b.holds[id].wallet in b.wallets
    requires forall i :: 0 <= i < |ledger| ==> SoundTransaction(b, ledger[i])
    requires wallet !in b.wallets
    ensures Posted(ledger, WalletAccount(wallet)) == 0
  {
    if ledger != [] {
      var last := ledger[|ledger| - 1];
      assert SoundTransaction(b, last);
      TransactionPosts(b, last, WalletAccount(wallet));
      UnknownWalletUnposted(b, ledger[..|ledger| - 1], wallet);
    }
  }

  /** The wallet side of one transaction. */
  function WalletSide(b: Books, t: Transaction): (WalletId, int)
    requires SoundTransaction(b, t)
  {
    if t.kind == Capture then (t.entries[1].account.wallet, t.entries[1].amount)
    else (t.entries[0].account.wallet, t.entries[0].amount)
  }

  lemma PostingMovesOneWallet(b: Books, t: Transaction)
    requires Sound(b) && SoundTransaction(b, t)
    ensures Total(WalletIds(b), PostedTo(b.ledger + [t])) == Total(WalletIds(b), PostedTo(b.ledger))
            + WalletSide(b, t).1
  {
    var (wallet, change) := WalletSide(b, t);
    assert wallet in b.wallets by {
      if t.kind != Credit {
        assert SoundHold(b, t.reference.hold);
      }
    }
    var ids := WalletIds(b);
    TotalExtract(ids, PostedTo(b.ledger), wallet);
    TotalExtract(ids, PostedTo(b.ledger + [t]), wallet);
    forall w | w in ids
      ensures PostedTo(b.ledger + [t])(w) == PostedTo(b.ledger)(w) + (if w == wallet then change else 0)
    {
      PostedAppend(b.ledger, t, WalletAccount(w));
      TransactionPosts(b, t, WalletAccount(w));
    }
    TotalAgrees(ids - {wallet}, ids - {wallet}, PostedTo(b.ledger), PostedTo(b.ledger + [t]));
  }

  lemma PostingBalances(b: Books, after: Books, t: Transaction)
    requires Sound(b) && SoundTransaction(b, t) && AccountsBalance(b)
    requires after.ledger == b.ledger + [t] && after.wallets == b.wallets
    ensures AccountsBalance(after)
  {
    PostingMovesOneWallet(b, t);
    PostedAppend(b.ledger, t, ClearingExternal);
    PostedAppend(b.ledger, t, ClearingCaptured);
    TransactionPosts(b, t, ClearingExternal);
    TransactionPosts(b, t, ClearingCaptured);
    assert WalletIds(after) == WalletIds(b);
  }

  lemma OpeningBalances(b: Books, wallet: WalletId, row: Wallet)
    requires Sound(b) && AccountsBalance(b) && wallet !in b.wallets
    ensures AccountsBalance(b.(wallets := b.wallets[wallet := row]))
  {
    var after := b.(wallets := b.wallets[wallet := row]);
    forall id | id in b.holds
      ensures b.holds[id].wallet in b.wallets
    {
      assert SoundHold(b, id);
    }
    UnknownWalletUnposted(b, b.ledger, wallet);
    TotalPut(WalletIds(b), PostedTo(b.ledger), wallet, wallet);
    assert WalletIds(after) == WalletIds(b)[wallet := wallet];
  }

  lemma ChangeConserves(b: Books, c: Change)
    requires Sound(b) && Legal(b, c) && Conserved(b)
    ensures Conserved(Apply(b, c))
  {
    match c
    case Unchanged =>
    case WalletOpened(wallet, row) => OpeningBalances(b, wallet, row);
    case HoldOpened(id, h) =>
      TotalPut(b.holds, NetCaptured(), id, h);
      assert WalletIds(Apply(b, c)) == WalletIds(b);
    case CreditPosted(t) =>
      PostingBalances(b, Apply(b, c), t);
      PostedAppend(b.ledger, t, ClearingCaptured);
      TransactionPosts(b, t, ClearingCaptured);
    case LegPosted(id, next, t) =>
      PostingBalances(b, Apply(b, c), t);
      PostedAppend(b.ledger, t, ClearingCaptured);
      TransactionPosts(b, t, ClearingCaptured);
      TotalPut(b.holds, NetCaptured(), id, next);
    case HoldReleased(id, next) =>
      TotalPut(b.holds, NetCaptured(), id, next);
      assert WalletIds(Apply(b, c)) == WalletIds(b);
  }

  // ----- no overdraft -----

  ghost predicate NoOverdraft(b: Books, now: Time) {
    forall w :: w in b.wallets ==> Available(b, w, now) >= 0
  }

  /** Holds only ever expire, so waiting never makes a wallet poorer. */
  lemma WaitingReleases(b: Books, wallet: WalletId, now: Time, later: Time)
    requires Sound(b) && now <= later
    ensures Available(b, wallet, now) <= Available(b, wallet, later)
  {
    forall id | id in b.holds
      ensures HeldFor(wallet, later)(b.holds[id]) <= HeldFor(wallet, now)(b.holds[id])
    {
      assert SoundHold(b, id);
    }
    TotalAtMost(b.holds, HeldFor(wallet, later), HeldFor(wallet, now));
  }

  /** The part of each change that the wallet has to be able to bear. */
  ghost predicate Affordable(b: Books, c: Change, now: Time)
    requires Legal(b, c)
  {
    match c
    case HoldOpened(id, h) => h.amount <= Available(b, h.wallet, now)
    case LegPosted(id, next, t) =>
      && (t.kind == Capture ==> !Expired(b.holds[id], now))
      && RemainingHold(next) == RemainingHold(b.holds[id]) - CapturedChange(t)
    case HoldReleased(id, next) => RemainingHold(next) <= RemainingHold(b.holds[id])
    case _ => true
  }

  lemma OpeningWalletKeepsCovered(b: Books, wallet: WalletId, row: Wallet, now: Time)
    requires Sound(b) && NoOverdraft(b, now) && wallet !in b.wallets
    ensures NoOverdraft(b.(wallets := b.wallets[wallet := row]), now)
  {
    forall id | id in b.holds
      ensures b.holds[id].wallet in b.wallets
    {
      assert SoundHold(b, id);
    }
    UnknownWalletUnposted(b, b.ledger, wallet);
    var none: Hold -> int := (h: Hold) => 0;
    TotalAtMost(b.holds, HeldFor(wallet, now), none);
    NothingTotalsZero(b.holds, none);
    var after := b.(wallets := b.wallets[wallet := row]);
    forall w | w in after.wallets
      ensures Available(after, w, now) >= 0
    {
      assert Available(after, w, now) == Available(b, w, now);
    }
  }

  lemma {:induction false} NothingTotalsZero<K, V>(rows: map<K, V>, measure: V -> int)
    requires forall v :: measure(v) == 0
    ensures Total(rows, measure) == 0
    decreases |rows|
  {
    if rows != map[] {
      var k :| k in rows && Total(rows, measure) == measure(rows[k]) + Total(rows - {k}, measure);
      NothingTotalsZero(rows - {k}, measure);
    }
  }

  lemma AffordableKeepsCovered(b: Books, c: Change, now: Time)
    requires Sound(b) && Legal(b, c) && NoOverdraft(b, now) && Affordable(b, c, now)
    ensures NoOverdraft(Apply(b, c), now)
  {
    if c.WalletOpened? {
      OpeningWalletKeepsCovered(b, c.wallet, c.row, now);
      return;
    }
    forall w | w in Apply(b, c).wallets
      ensures Available(Apply(b, c), w, now) >= 0
    {
      assert Available(b, w, now) >= 0;
      match c
      case Unchanged =>
      case HoldOpened(id, h) => TotalPut(b.holds, HeldFor(w, now), id, h);
      case CreditPosted(t) =>
        PostedAppend(b.ledger, t, WalletAccount(w));
        TransactionPosts(b, t, WalletAccount(w));
      case LegPosted(id, next, t) =>
        PostedAppend(b.ledger, t, WalletAccount(w));
        TransactionPosts(b, t, WalletAccount(w));
        TotalPut(b.holds, HeldFor(w, now), id, next);
      case HoldReleased(id, next) => TotalPut(b.holds, HeldFor(w, now), id, next);
    }
  }
}
