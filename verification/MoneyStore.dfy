/**
 The reference money store, its transaction journal and the service commands over them, in
 the in-place form they are written in. Each method is proved against the functions of `Money`.
 */
module MoneyStore {
  import opened Common
  import opened Money
  import opened MoneyRuns

  /** The inverse of one write, recorded while the pre-image is still readable. */
  datatype Undo =
    | RestoreWallet(wallet: WalletId, previous: Option<Wallet>)
    | RestoreHold(id: HoldId, before: Option<Hold>)
    | TruncateLedger(length: nat)

  function Put<K, V>(rows: map<K, V>, k: K, previous: Option<V>): map<K, V> {
    if previous.Some? then rows[k := previous.value] else rows - {k}
  }

  function Undone(b: Books, u: Undo): Books {
    match u
    case RestoreWallet(w, previous) => b.(wallets := Put(b.wallets, w, previous))
    case RestoreHold(id, before) => b.(holds := Put(b.holds, id, before))
    case TruncateLedger(length) => if length <= |b.ledger| then b.(ledger := b.ledger[..length]) else b
  }

  /** Undoing last write first, which is the only order in which overlapping writes unwind. */
  function Rewound(b: Books, undo: seq<Undo>): Books
    decreases |undo|
  {
    if undo == [] then b
    else Rewound(Undone(b, undo[|undo| - 1]), undo[..|undo| - 1])
  }

  datatype Check = BalanceOf(transaction: Transaction) | AgreementOf(id: HoldId)

  predicate CheckHolds(b: Books, c: Check) {
    match c
    case BalanceOf(t) => Balanced(t.entries)
    case AgreementOf(id) => LedgerAgrees(b, id)
  }

  function ChecksOf(w: Write): set<Check> {
    match w
    case UpdateHold(id, _) => {AgreementOf(id)}
    case InsertTransaction(t) => {BalanceOf(t)} + (if t.hold.Some? then {AgreementOf(t.hold.value)} else {})
    case _ => {}
  }

  lemma ChecksAreDeferred(b: Books, w: Write)
    ensures DeferredHolds(b, w) <==> forall c :: c in ChecksOf(w) ==> CheckHolds(b, c)
  {
    match w
    case UpdateHold(id, _) => assert AgreementOf(id) in ChecksOf(w);
    case InsertTransaction(t) =>
      assert BalanceOf(t) in ChecksOf(w);
      assert t.hold.Some? ==> AgreementOf(t.hold.value) in ChecksOf(w);
    case _ =>
  }

  class MemoryJournal {
    var undo: seq<Undo>
    var deferred: seq<Check>

    constructor ()
      ensures undo == [] && deferred == []
    {
      undo, deferred := [], [];
    }

    function Checks(): set<Check>
      reads this
    {
      set c | c in deferred
    }

    /** Whatever is unwound from here on takes this write back first, and then the earlier ones. */
    method Record(u: Undo)
      modifies this`undo
      ensures undo == old(undo) + [u]
      ensures forall b: Books :: Rewound(b, undo) == Rewound(Undone(b, u), old(undo))
    {
      undo := undo + [u];
    }

    /** The same check deferred twice is verified once. */
    method Defer(c: Check)
      modifies this`deferred
      ensures Checks() == old(Checks()) + {c}
      ensures c in old(deferred) ==> deferred == old(deferred)
    {
      if c !in deferred {
        deferred := deferred + [c];
      }
    }
  }

  class InMemoryMoneyRepository {
    var wallets: map<WalletId, Wallet>
    var authorizations: map<HoldId, Hold>
    var ledger: seq<Transaction>

    constructor ()
      ensures Rows() == EMPTY_TILL.books
    {
      wallets, authorizations, ledger := map[], map[], [];
    }

    function Rows(): Books
      reads this
    {
      Books(wallets, authorizations, ledger)
    }

    method FindTransactionByReference(reference: Reference) returns (found: Option<Transaction>)
      ensures found == FindTransaction(ledger, reference)
    {
      found := None;
      for i := 0 to |ledger|
        invariant found == FindTransaction(ledger[..i], reference)
      {
        assert ledger[..i + 1][..i] == ledger[..i];
        if found.None? && ledger[i].reference == reference {
          found := Some(ledger[i]);
        }
      }
      assert ledger[..|ledger|] == ledger;
    }

    method FindAuthorizationByReference(reference: string) returns (found: Option<HoldId>)
      ensures found.Some? <==> HoldReferenceTaken(Rows(), reference)
      ensures found.Some? ==> found.value in authorizations && authorizations[found.value].reference == reference
    {
      found := None;
      var rest := authorizations.Keys;
      while rest != {}
        invariant rest <= authorizations.Keys
        invariant found.Some? ==> found.value in authorizations && authorizations[found.value].reference == reference
        invariant found.None? ==> forall id ::
                  id in authorizations && id !in rest ==> authorizations[id].reference != reference
        decreases rest
      {
        var id :| id in rest;
        rest := rest - {id};
        if authorizations[id].reference == reference {
          found := Some(id);
        }
      }
    }

    method InsertWallet(wallet: WalletId, row: Wallet, journal: MemoryJournal) returns (ok: bool)
      modifies this`wallets, journal
      ensures ok == ApplyWrite(old(Rows()), Write.InsertWallet(wallet, row)).Ok?
      ensures ok ==> Rows() == ApplyWrite(old(Rows()), Write.InsertWallet(wallet, row)).value
      ensures Rewound(Rows(), journal.undo) == old(Rewound(Rows(), journal.undo))
      ensures journal.Checks() == old(journal.Checks())
    {
      ghost var before := Rows();
      var rest := wallets.Keys;
      while rest != {}
        invariant rest <= wallets.Keys
        invariant forall other :: other in wallets && other !in rest && other != wallet ==>
                    !(wallets[other].owner == row.owner && wallets[other].currency == row.currency)
        decreases rest
      {
        var other :| other in rest;
        rest := rest - {other};
        if other != wallet && wallets[other].owner == row.owner && wallets[other].currency == row.currency {
          return false;
        }
      }
      journal.Record(RestoreWallet(wallet, if wallet in wallets then Some(wallets[wallet]) else None));
      wallets := wallets[wallet := row];
      assert Undone(Rows(), journal.undo[|journal.undo| - 1]) == before;
      ok := true;
    }

    method InsertAuthorization(id: HoldId, hold: Hold, journal: MemoryJournal) returns (ok: bool)
      modifies this`authorizations, journal
      ensures ok == ApplyWrite(old(Rows()), InsertHold(id, hold)).Ok?
      ensures ok ==> Rows() == ApplyWrite(old(Rows()), InsertHold(id, hold)).value
      ensures Rewound(Rows(), journal.undo) == old(Rewound(Rows(), journal.undo))
      ensures journal.Checks() == old(journal.Checks())
    {
      ghost var before := Rows();
      if !HoldShape(hold) || hold.amount <= 0 || hold.wallet !in wallets {
        return false;
      }
      var rest := authorizations.Keys;
      while rest != {}
        invariant rest <= authorizations.Keys
        invariant forall other :: other in authorizations && other !in rest && other != id ==>
                    authorizations[other].reference != hold.reference
        decreases rest
      {
        var other :| other in rest;
        rest := rest - {other};
        if other != id && authorizations[other].reference == hold.reference {
          return false;
        }
      }
      journal.Record(RestoreHold(id, if id in authorizations then Some(authorizations[id]) else None));
      authorizations := authorizations[id := hold];
      assert Undone(Rows(), journal.undo[|journal.undo| - 1]) == before;
      ok := true;
    }

    method UpdateAuthorization(id: HoldId, hold: Hold, journal: MemoryJournal) returns (ok: bool)
      modifies this`authorizations, journal
      ensures ok == ApplyWrite(old(Rows()), UpdateHold(id, hold)).Ok?
      ensures ok ==> Rows() == ApplyWrite(old(Rows()), UpdateHold(id, hold)).value
      ensures Rewound(Rows(), journal.undo) == old(Rewound(Rows(), journal.undo))
      ensures ok ==> journal.Checks() == old(journal.Checks()) + ChecksOf(UpdateHold(id, hold))
    {
      ghost var before := Rows();
      if !HoldShape(hold) || hold.amount <= 0 || hold.wallet !in wallets {
        return false;
      }
      journal.Record(RestoreHold(id, if id in authorizations then Some(authorizations[id]) else None));
      authorizations := authorizations[id := hold];
      assert Undone(Rows(), journal.undo[|journal.undo| - 1]) == before;
      journal.Defer(AgreementOf(id));
      ok := true;
    }

    method InsertTransaction(t: Transaction, journal: MemoryJournal) returns (ok: bool)
      modifies this`ledger, journal
      ensures ok == ApplyWrite(old(Rows()), Write.InsertTransaction(t)).Ok?
      ensures ok ==> Rows() == ApplyWrite(old(Rows()), Write.InsertTransaction(t)).value
      ensures Rewound(Rows(), journal.undo) == old(Rewound(Rows(), journal.undo))
      ensures ok ==> journal.Checks() == old(journal.Checks()) + ChecksOf(Write.InsertTransaction(t))
    {
      ghost var before := Rows();
      var clash := FindTransactionByReference(t.reference);
      if clash.Some? || (t.kind == Credit) != t.hold.None? || (t.hold.Some? && t.hold.value !in authorizations) {
        return false;
      }
      for i := 0 to |t.entries|
        invariant forall k :: 0 <= k < i ==> t.entries[k].amount != 0
      {
        if t.entries[i].amount == 0 {
          return false;
        }
      }
      journal.Record(TruncateLedger(|ledger|));
      ledger := ledger + [t];
      assert Undone(Rows(), journal.undo[|journal.undo| - 1]) == before;
      journal.Defer(BalanceOf(t));
      if t.hold.Some? {
        journal.Defer(AgreementOf(t.hold.value));
      }
      ok := true;
    }

    method RunMutation(w: Write, journal: MemoryJournal) returns (ok: bool)
      modifies this, journal
      ensures ok == ApplyWrite(old(Rows()), w).Ok?
      ensures ok ==> Rows() == ApplyWrite(old(Rows()), w).value
      ensures Rewound(Rows(), journal.undo) == old(Rewound(Rows(), journal.undo))
      ensures ok ==> journal.Checks() == old(journal.Checks()) + ChecksOf(w)
    {
      match w
      case InsertWallet(wallet, row) => ok := InsertWallet(wallet, row, journal);
      case InsertHold(id, h) => ok := InsertAuthorization(id, h, journal);
      case UpdateHold(id, h) => ok := UpdateAuthorization(id, h, journal);
      case InsertTransaction(t) => ok := InsertTransaction(t, journal);
    }

    /** Applies staged writes in order, journalling each, and stops at the first refusal. */
    method RunMutations(writes: seq<Write>, journal: MemoryJournal) returns (ok: bool)
      modifies this, journal
      ensures ok == ApplyAll(old(Rows()), writes).Ok?
      ensures ok ==> Rows() == ApplyAll(old(Rows()), writes).value
      ensures Rewound(Rows(), journal.undo) == old(Rewound(Rows(), journal.undo))
      ensures ok ==> journal.Checks() == old(journal.Checks()) + CheckSet(writes)
    {
      ghost var start := Rows();
      for i := 0 to |writes|
        invariant ApplyAll(start, writes[..i]) == Ok(Rows())
        invariant Rewound(Rows(), journal.undo) == old(Rewound(Rows(), journal.undo))
        invariant journal.Checks() == old(journal.Checks()) + CheckSet(writes[..i])
      {
        assert writes[..i + 1][..i] == writes[..i];
        var applied := RunMutation(writes[i], journal);
        if !applied {
          RefusedPrefixRefusesAll(start, writes, i);
          return false;
        }
        assert CheckSet(writes[..i + 1]) == CheckSet(writes[..i]) + ChecksOf(writes[i]);
      }
      assert writes[..|writes|] == writes;
      ok := true;
    }

    /** The deferred check, summing the ledger the way the store does. */
    method AssertLedgerAgreement(id: HoldId) returns (ok: bool)
      ensures ok == LedgerAgrees(Rows(), id)
    {
      if id !in authorizations {
        return true;
      }
      var captured, refunded := 0, 0;
      for i := 0 to |ledger|
        invariant captured == Moved(ledger[..i], Capture, id)
        invariant refunded == -Moved(ledger[..i], Refund, id)
      {
        assert ledger[..i + 1][..i] == ledger[..i];
        var t := ledger[i];
        if t.hold == Some(id) {
          ghost var c0, r0 := captured, refunded;
          for k := 0 to |t.entries|
            invariant captured == c0 + (if t.kind == Capture then PostedBy(t.entries[..k], ClearingCaptured) else 0)
            invariant refunded == r0 - (if t.kind == Refund then PostedBy(t.entries[..k], ClearingCaptured) else 0)
          {
            assert t.entries[..k + 1][..k] == t.entries[..k];
            if t.entries[k].account == ClearingCaptured {
              if t.kind == Capture {
                captured := captured + t.entries[k].amount;
              }
              if t.kind == Refund {
                refunded := refunded - t.entries[k].amount;
              }
            }
          }
          assert t.entries[..|t.entries|] == t.entries;
        }
      }
      assert ledger[..|ledger|] == ledger;
      ok := authorizations[id].captured == captured && authorizations[id].refunded == refunded;
    }

    /** Undoes every journalled write, newest first. */
    method Rollback(journal: MemoryJournal)
      modifies this, journal`undo
      ensures Rows() == old(Rewound(Rows(), journal.undo))
      ensures journal.undo == []
    {
      while journal.undo != []
        invariant Rewound(Rows(), journal.undo) == old(Rewound(Rows(), journal.undo))
        decreases |journal.undo|
      {
        var last := journal.undo[|journal.undo| - 1];
        journal.undo := journal.undo[..|journal.undo| - 1];
        match last
        case RestoreWallet(w, previous) => wallets := Put(wallets, w, previous);
        case RestoreHold(id, before) => authorizations := Put(authorizations, id, before);
        case TruncateLedger(length) =>
          if length <= |ledger| {
            ledger := ledger[..length];
          }
      }
    }

    /** Runs every deferred check against the rows about to commit. */
    method Verify(journal: MemoryJournal) returns (ok: bool)
      ensures ok <==> forall c :: c in journal.Checks() ==> CheckHolds(Rows(), c)
    {
      for i := 0 to |journal.deferred|
        invariant forall k :: 0 <= k < i ==> CheckHolds(Rows(), journal.deferred[k])
      {
        match journal.deferred[i] {
          case BalanceOf(t) =>
            if !Balanced(t.entries) {
              assert journal.deferred[i] in journal.Checks();
              return false;
            }
          case AgreementOf(id) =>
            var agrees := AssertLedgerAgreement(id);
            if !agrees {
              assert journal.deferred[i] in journal.Checks();
              return false;
            }
        }
      }
      ok := true;
    }
  }

  function CheckSet(writes: seq<Write>): set<Check> {
    set k, c | 0 <= k < |writes| && c in ChecksOf(writes[k]) :: c
  }

  lemma {:induction false} RefusedPrefixRefusesAll(start: Books, writes: seq<Write>, i: nat)
    requires i < |writes| && ApplyAll(start, writes[..i + 1]).Err?
    ensures ApplyAll(start, writes).Err? && Commit(start, writes).Err?
    decreases |writes|
  {
    if i + 1 < |writes| {
      var shorter := writes[..|writes| - 1];
      assert shorter[..i + 1] == writes[..i + 1];
      RefusedPrefixRefusesAll(start, shorter, i);
    } else {
      assert writes[..i + 1] == writes;
    }
  }

  lemma VerifiedMeansDeferredHold(after: Books, writes: seq<Write>, checks: set<Check>)
    requires checks == CheckSet(writes)
    ensures (forall c :: c in checks ==> CheckHolds(after, c))
       <==> (forall i :: 0 <= i < |writes| ==> DeferredHolds(after, writes[i]))
  {
    forall i | 0 <= i < |writes|
      ensures DeferredHolds(after, writes[i]) <==> forall c :: c in ChecksOf(writes[i]) ==> CheckHolds(after, c)
      ensures ChecksOf(writes[i]) <= checks
    {
      ChecksAreDeferred(after, writes[i]);
    }
  }
}
