/**
 The ledger as the store really reads it: looked up by the text of a reference.

 The commands of `Money` look transactions up by the reference itself. Here a command is answered
 by whatever transaction carries its reference's text, and the two are compared over whole runs:
 they are the same machine as long as no credit is posted under a text that starts the way a
 capture's or a refund's does.
 */
module ReferenceLookups {
  import opened Common
  import opened Money
  import opened MoneyRuns
  import opened MoneyLedgerLaws
  import opened ReferenceText
  import Subscriptions

  function FindByText(ledger: seq<Transaction>, text: string): Option<Transaction> {
    if ledger == [] then None
    else
      var earlier := FindByText(ledger[..|ledger| - 1], text);
      var last := ledger[|ledger| - 1];
      if earlier.Some? then earlier else if Text(last.reference) == text then Some(last) else None
  }

  /** A transaction that answers for a reference that is not its own. */
  predicate Impostor(ledger: seq<Transaction>, r: Reference, i: nat) {
    && i < |ledger|
    && ledger[i].reference != r && Text(ledger[i].reference) == Text(r)
    && forall j :: 0 <= j < i ==> ledger[j].reference != r
  }

  predicate FirstOfText(ledger: seq<Transaction>, text: string, i: nat) {
    && i < |ledger| && Text(ledger[i].reference) == text
    && forall j :: 0 <= j < i ==> Text(ledger[j].reference) != text
  }

  predicate FirstOfReference(ledger: seq<Transaction>, r: Reference, i: nat) {
    i < |ledger| && ledger[i].reference == r && forall j :: 0 <= j < i ==> ledger[j].reference != r
  }

  /** Where the lookup by text finds its transaction; the length when it finds none. */
  lemma {:induction false} FoundByText(ledger: seq<Transaction>, text: string) returns (i: nat)
    ensures FindByText(ledger, text).Some?
            ==> FirstOfText(ledger, text, i) && ledger[i] == FindByText(ledger, text).value
    ensures FindByText(ledger, text).None? ==> forall j :: 0 <= j < |ledger| ==> Text(ledger[j].reference) != text
  {
    i := 0;
    if ledger != [] {
      var shorter := ledger[..|ledger| - 1];
      i := FoundByText(shorter, text);
      if FindByText(shorter, text).Some? {
        assert forall j :: 0 <= j <= i ==> ledger[j] == shorter[j];
      } else {
        assert forall j :: 0 <= j < |shorter| ==> Text(ledger[j].reference) == Text(shorter[j].reference);
        i := |ledger| - 1;
      }
    }
  }

  lemma {:induction false} FoundByReference(ledger: seq<Transaction>, r: Reference) returns (i: nat)
    ensures FindTransaction(ledger, r).Some?
            ==> FirstOfReference(ledger, r, i) && ledger[i] == FindTransaction(ledger, r).value
    ensures FindTransaction(ledger, r).None? ==> forall j :: 0 <= j < |ledger| ==> ledger[j].reference != r
  {
    i := 0;
    if ledger != [] {
      var shorter := ledger[..|ledger| - 1];
      i := FoundByReference(shorter, r);
      if FindTransaction(shorter, r).Some? {
        assert forall j :: 0 <= j <= i ==> ledger[j] == shorter[j];
      } else {
        assert forall j :: 0 <= j < |shorter| ==> ledger[j].reference == shorter[j].reference;
        i := |ledger| - 1;
      }
    }
  }

  ghost predicate NoImpostor(ledger: seq<Transaction>, r: Reference) {
    forall i: nat :: !Impostor(ledger, r, i)
  }

  /** Where the first transaction of the text is the reference's own, nobody stands before it. */
  lemma OwnTextIsFirst(ledger: seq<Transaction>, r: Reference, i: nat, k: nat)
    requires FirstOfText(ledger, Text(r), i) && ledger[i].reference == r && FirstOfReference(ledger, r, k)
    ensures i == k && NoImpostor(ledger, r)
  {
    assert Text(ledger[k].reference) == Text(r);
  }

  lemma FirstNamesake(ledger: seq<Transaction>, r: Reference, i: nat)
    requires FirstOfText(ledger, Text(r), i) && ledger[i].reference != r
    ensures Impostor(ledger, r, i)
  {
    assert forall j :: 0 <= j < i ==> Text(ledger[j].reference) != Text(r);
  }

  /** Looking up by text finds what the reference would, unless a namesake comes first. */
  lemma TextFindsTheReferenceExactlyWhen(ledger: seq<Transaction>, r: Reference)
    ensures FindByText(ledger, Text(r)) == FindTransaction(ledger, r) <==> NoImpostor(ledger, r)
  {
    var i := FoundByText(ledger, Text(r));
    var k := FoundByReference(ledger, r);
    if FindByText(ledger, Text(r)).None? {
      assert FindTransaction(ledger, r).None?;
      assert NoImpostor(ledger, r);
    } else if ledger[i].reference == r {
      assert FindTransaction(ledger, r).Some?;
      OwnTextIsFirst(ledger, r, i, k);
    } else {
      FirstNamesake(ledger, r, i);
    }
  }

  /** Who can be a namesake of a capture or a refund: only a credit posted under a reserved text. */
  lemma ImpostorsAreReservedCredits(ledger: seq<Transaction>, r: Reference, i: nat)
    requires Impostor(ledger, r, i) && Unreserved(r)
    ensures ledger[i].reference.CreditReference? && !Unreserved(ledger[i].reference)
  {
    if Unreserved(ledger[i].reference) {
      TextIsUnambiguous(ledger[i].reference, r);
    }
  }

  // ----- runs -----

  /** The ledger reference a command works under. */
  function ReferenceOf(c: Command): Option<Reference> {
    match c
    case CreditWallet(_, _, text) => Some(CreditReference(text))
    case CaptureHold(hold, leg, _) => Some(CaptureReference(hold, leg))
    case RefundHold(hold, key, _, _) => Some(RefundReference(hold, key))
    case _ => None
  }

  ghost predicate AnsweredByText(ledger: seq<Transaction>, c: Command) {
    ReferenceOf(c).Some? && FindByText(ledger, Text(ReferenceOf(c).value)).Some?
  }

  /**
   A command whose text is on the ledger is answered with that transaction, or refused before
   the lookup; either way it writes nothing. Any other command finds nothing under its reference.
   */
  ghost function TextStep(t: Till, now: Time, c: Command): Till {
    if AnsweredByText(t.books.ledger, c) then t else Step(t, now, c)
  }

  ghost function TextRun(start: Till, log: seq<Timed>): Till {
    if log == [] then start
    else
      var last := log[|log| - 1];
      TextStep(TextRun(start, log[..|log| - 1]), last.at, last.command)
  }

  /** No credit is posted under a text that starts like a capture's or a refund's. */
  ghost predicate KeepsClear(log: seq<Timed>) {
    forall i :: 0 <= i < |log| && log[i].command.CreditWallet? ==> Unreserved(CreditReference(log[i].command.text))
  }

  ghost predicate Clear(ledger: seq<Transaction>) {
    forall i :: 0 <= i < |ledger| ==> Unreserved(ledger[i].reference)
  }

  ghost predicate AtMostOneMore(ledger: seq<Transaction>, after: seq<Transaction>, r: Option<Reference>) {
    after == ledger
        || (r.Some? && |after| == |ledger| + 1 && after[..|ledger|] == ledger && after[|ledger|].reference == r.value)
  }

  /** A command posts at most one transaction, under its own reference. */
  lemma StepPostsItsReference(t: Till, now: Time, c: Command, after: Till)
    requires TillSound(t) && after == Step(t, now, c)
    ensures AtMostOneMore(t.books.ledger, after.books.ledger, ReferenceOf(c))
  {
    NothingStagedCommits(t.books);
    match c
    case OpenWallet(owner, currency) => var _ := OpenWalletChange(t.books, t.nextId, owner, currency);
    case CreditWallet(wallet, amount, text) => var _ := CreditChange(t.books, now, wallet, amount, text);
    case Authorize(wallet, amount, reference, expiresAt) =>
      var _ := AuthorizeChange(t.books, t.nextId, now, wallet, amount, reference, expiresAt);
    case CaptureHold(hold, leg, part) => CapturePostsItsReference(t.books, now, hold, leg, part);
    case RefundHold(hold, key, reason, part) => RefundPostsItsReference(t.books, now, hold, key, reason, part);
    case VoidHold(hold, reason) => var _ := VoidChange(t.books, now, hold, reason);
    case Sweep =>
  }

  lemma CapturePostsItsReference(b: Books, now: Time, hold: HoldId, leg: string, part: Option<int>)
    requires Sound(b)
    ensures AtMostOneMore(b.ledger, BooksAfter(b, Perform(b, StageCapture(b, now, hold, leg, part))).ledger,
                          Some(CaptureReference(hold, leg)))
  {
    NothingStagedCommits(b);
    var _ := CaptureChange(b, now, hold, leg, part);
  }

  lemma RefundPostsItsReference(b: Books, now: Time, hold: HoldId, key: string, reason: string, part: Option<int>)
    requires Sound(b)
    ensures AtMostOneMore(b.ledger, BooksAfter(b, Perform(b, StageRefund(b, now, hold, key, reason, part))).ledger,
                          Some(RefundReference(hold, key)))
  {
    NothingStagedCommits(b);
    var _ := RefundChange(b, now, hold, key, reason, part);
  }

  lemma OneMoreStaysClear(ledger: seq<Transaction>, after: seq<Transaction>, r: Option<Reference>)
    requires Clear(ledger) && AtMostOneMore(ledger, after, r) && (r.Some? ==> Unreserved(r.value))
    ensures Clear(after)
  {
    if after != ledger {
      assert forall i :: 0 <= i < |ledger| ==> after[i] == after[..|ledger|][i];
    }
  }

  lemma ClearLedgersAnswerAlike(t: Till, now: Time, c: Command)
    requires TillSound(t) && Clear(t.books.ledger) && (c.CreditWallet? ==> Unreserved(CreditReference(c.text)))
    ensures TextStep(t, now, c) == Step(t, now, c)
  {
    if AnsweredByText(t.books.ledger, c) {
      var r := ReferenceOf(c).value;
      forall i: nat
        ensures !Impostor(t.books.ledger, r, i)
      {
        if Impostor(t.books.ledger, r, i) {
          ImpostorsAreReservedCredits(t.books.ledger, r, i);
        }
      }
      TextFindsTheReferenceExactlyWhen(t.books.ledger, r);
      FoundIsIdle(t, now, c);
    }
  }

  lemma FoundIsIdle(t: Till, now: Time, c: Command)
    requires ReferenceOf(c).Some? && FindTransaction(t.books.ledger, ReferenceOf(c).value).Some?
    ensures Step(t, now, c) == t
  {
    NothingStagedCommits(t.books);
  }

  /**
   The store that looks up by text and the model that looks up by reference make the same run,
   as long as callers keep their credits off the reserved texts. Everything proved about serial
   runs holds of the store's.
   */
  lemma {:induction false} TextRunsAreRuns(log: seq<Timed>)
    requires KeepsClear(log)
    ensures TextRun(EMPTY_TILL, log) == Run(EMPTY_TILL, log) && Clear(Run(EMPTY_TILL, log).books.ledger)
  {
    if log != [] {
      var earlier, last := log[..|log| - 1], log[|log| - 1];
      TextRunsAreRuns(earlier);
      EveryRunConserves(earlier);
      ClearStep(Run(EMPTY_TILL, earlier), last.at, last.command, Run(EMPTY_TILL, log));
    }
  }

  lemma ClearStep(t: Till, now: Time, c: Command, after: Till)
    requires TillSound(t) && Clear(t.books.ledger) && (c.CreditWallet? ==> Unreserved(CreditReference(c.text)))
    requires after == Step(t, now, c)
    ensures TextStep(t, now, c) == after && Clear(after.books.ledger)
  {
    ClearLedgersAnswerAlike(t, now, c);
    StepPostsItsReference(t, now, c, after);
    OneMoreStaysClear(t.books.ledger, after.books.ledger, ReferenceOf(c));
  }

  /**
   And not otherwise: once a credit carries the text of a hold's capture, capturing that hold
   reports success for ever and moves nothing.
   */
  lemma ReservedCreditSilencesTheCapture(t: Till, at: Time, wallet: WalletId, amount: int, hold: HoldId,
      later: Time, part: Option<int>)
    requires TillSound(t)
    requires Succeeds(t.books, t.nextId, at, CreditWallet(wallet, amount, CAPTURE + Subscriptions.Decimal(hold)))
    ensures var credited := TextStep(t, at, CreditWallet(wallet, amount, CAPTURE + Subscriptions.Decimal(hold)));
            TextStep(credited, later, CaptureHold(hold, "", part)) == credited
  {
    var text := CAPTURE + Subscriptions.Decimal(hold);
    var credit := CreditWallet(wallet, amount, text);
    assert Text(CaptureReference(hold, "")) == text == Text(CreditReference(text));
    if !AnsweredByText(t.books.ledger, credit) {
      SuccessIsAnswered(t, at, credit);
      var ledger := Step(t, at, credit).books.ledger;
      var k := FoundByReference(ledger, CreditReference(text));
      var i := FoundByText(ledger, text);
    }
  }

  // ----- repeating a command, whatever the credits are called -----

  /** The rows will answer this command without writing anything. */
  ghost predicate Marked(t: Till, c: Command) {
    AnsweredByText(t.books.ledger, c) || Answered(t.books, c)
  }

  lemma MarkedIsIdle(t: Till, now: Time, c: Command)
    requires Marked(t, c)
    ensures TextStep(t, now, c) == t
  {
    if !AnsweredByText(t.books.ledger, c) {
      AnsweredIsIdle(t, now, c);
    }
  }

  lemma TextStaysFound(ledger: seq<Transaction>, after: seq<Transaction>, r: Option<Reference>, text: string)
    requires AtMostOneMore(ledger, after, r) && FindByText(ledger, text).Some?
    ensures FindByText(after, text).Some?
  {
    if after != ledger {
      assert after[..|after| - 1] == ledger;
    }
  }

  lemma MarkedStays(t: Till, now: Time, c: Command, marked: Command, after: Till)
    requires TillSound(t) && Marked(t, marked) && after == TextStep(t, now, c)
    ensures TillSound(after) && Marked(after, marked)
  {
    StepKeepsLaws(t, now, c);
    if AnsweredByText(t.books.ledger, marked) {
      StepPostsItsReference(t, now, c, Step(t, now, c));
      TextStaysFound(t.books.ledger, Step(t, now, c).books.ledger, ReferenceOf(c), Text(ReferenceOf(marked).value));
    } else {
      AnsweredStays(t, now, c, marked);
    }
  }

  lemma {:induction false} MarkedForEver(t: Till, log: seq<Timed>, marked: Command, after: Till)
    requires TillSound(t) && Marked(t, marked) && after == TextRun(t, log)
    ensures TillSound(after) && Marked(after, marked)
  {
    if log != [] {
      var earlier, last := log[..|log| - 1], log[|log| - 1];
      MarkedForEver(t, earlier, marked, TextRun(t, earlier));
      MarkedStays(TextRun(t, earlier), last.at, last.command, marked, after);
    }
  }

  lemma {:induction false} TextRunIsSound(log: seq<Timed>)
    ensures TillSound(TextRun(EMPTY_TILL, log))
  {
    if log == [] {
      EmptyTillSound();
    } else {
      TextRunIsSound(log[..|log| - 1]);
      StepKeepsLaws(TextRun(EMPTY_TILL, log[..|log| - 1]), log[|log| - 1].at, log[|log| - 1].command);
    }
  }

  lemma {:induction false} TextRunConcat(start: Till, first: seq<Timed>, second: seq<Timed>)
    ensures TextRun(start, first + second) == TextRun(TextRun(start, first), second)
  {
    if second == [] {
      assert first + second == first;
    } else {
      assert (first + second)[..|first + second| - 1] == first + second[..|second| - 1];
      TextRunConcat(start, first, second[..|second| - 1]);
    }
  }

  lemma TextRunOne(t: Till, e: Timed)
    ensures TextRun(t, [e]) == TextStep(t, e.at, e.command)
  {
    assert [e][..0] == [];
  }

  /**
   A second copy of a command that succeeded, or that the ledger answered, changes nothing at any
   later point of any run of the store, even one whose credits take reserved texts.
   */
  lemma TextRepeatChangesNothing(before: seq<Timed>, first: Timed, between: seq<Timed>, again: Timed, rest: seq<Timed>)
    requires !first.command.Sweep? && again.command == first.command
    requires var t := TextRun(EMPTY_TILL, before);
             AnsweredByText(t.books.ledger, first.command) || Succeeds(t.books, t.nextId, first.at, first.command)
    ensures TextRun(EMPTY_TILL, before + [first] + between + [again] + rest)
         == TextRun(EMPTY_TILL, before + [first] + between + rest)
  {
    var t0 := TextRun(EMPTY_TILL, before);
    var t1 := TextStep(t0, first.at, first.command);
    TextRunIsSound(before);
    MarkedAtOnce(t0, first.at, first.command, t1);
    TextRunConcat(EMPTY_TILL, before, [first]);
    TextRunOne(t0, first);
    TextRunConcat(EMPTY_TILL, before + [first], between);
    var t2 := TextRun(t1, between);
    MarkedForEver(t1, between, first.command, t2);
    MarkedIsIdle(t2, again.at, again.command);
    TextRunConcat(EMPTY_TILL, before + [first] + between, [again]);
    TextRunOne(t2, again);
    TextRunConcat(EMPTY_TILL, before + [first] + between + [again], rest);
    TextRunConcat(EMPTY_TILL, before + [first] + between, rest);
  }

  lemma MarkedAtOnce(t: Till, now: Time, c: Command, after: Till)
    requires TillSound(t) && !c.Sweep? && after == TextStep(t, now, c)
    requires AnsweredByText(t.books.ledger, c) || Succeeds(t.books, t.nextId, now, c)
    ensures TillSound(after) && Marked(after, c)
  {
    StepKeepsLaws(t, now, c);
    if !AnsweredByText(t.books.ledger, c) {
      SuccessIsAnswered(t, now, c);
    }
  }
}
