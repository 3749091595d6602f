/**
 The texts behind the ledger's references. The model tells references apart by construction; the
 store tells them apart by their text, so the two must be the same thing.

 Identifiers are rendered without a colon, which is all that is used of a UUID's form.
 */
module ReferenceText {
  import opened Money
  import opened Subscriptions

  const CAPTURE := "capture:"
  const REFUND := "refund:"

  function Text(r: Reference): string {
    match r
    case CreditReference(text) => text
    case CaptureReference(hold, leg) =>
        if leg == "" then CAPTURE + Decimal(hold) else CAPTURE + Decimal(hold) + ":" + leg
    case RefundReference(hold, key) => REFUND + Decimal(hold) + ":" + key
  }

  /** What a caller's credit reference must not do. */
  predicate Unreserved(r: Reference) {
    r.CreditReference? ==> !(CAPTURE <= r.text) && !(REFUND <= r.text)
  }

  lemma {:induction false} DecimalHasNoColon(n: nat)
    ensures forall i :: 0 <= i < |Decimal(n)| ==> Decimal(n)[i] != ':'
    ensures |Decimal(n)| > 0
  {
    if n >= 10 {
      DecimalHasNoColon(n / 10);
    }
  }

  /** The first colon of a text is right after its colon-free head. */
  lemma FirstColon(head: string, rest: string)
    requires forall i :: 0 <= i < |head| ==> head[i] != ':'
    ensures forall i :: 0 <= i < |head| ==> (head + ":" + rest)[i] != ':'
    ensures (head + ":" + rest)[|head|] == ':'
  {
  }

  /** A colon-free head followed by a colon is read back exactly. */
  lemma HeadIsUnique(a: string, b: string, x: string, y: string)
    requires forall i :: 0 <= i < |a| ==> a[i] != ':'
    requires forall i :: 0 <= i < |b| ==> b[i] != ':'
    requires a + ":" + x == b + ":" + y
    ensures a == b && x == y
  {
    var s, t := a + ":" + x, b + ":" + y;
    FirstColon(a, x);
    FirstColon(b, y);
    assert |a| == |b|;
    assert s[..|a|] == a && t[..|b|] == b;
    assert s[|a| + 1..] == x && t[|b| + 1..] == y;
  }

  lemma AfterPrefix(prefix: string, a: string, b: string)
    requires prefix + a == prefix + b
    ensures a == b
  {
    assert (prefix + a)[|prefix|..] == a && (prefix + b)[|prefix|..] == b;
  }

  lemma CapturesDiffer(h1: HoldId, l1: string, h2: HoldId, l2: string)
    requires Text(CaptureReference(h1, l1)) == Text(CaptureReference(h2, l2))
    ensures h1 == h2 && l1 == l2
  {
    var a, b := Decimal(h1), Decimal(h2);
    DecimalHasNoColon(h1);
    DecimalHasNoColon(h2);
    var x := if l1 == "" then a else a + ":" + l1;
    var y := if l2 == "" then b else b + ":" + l2;
    assert Text(CaptureReference(h1, l1)) == CAPTURE + x && Text(CaptureReference(h2, l2)) == CAPTURE + y;
    AfterPrefix(CAPTURE, x, y);
    FirstColon(a, l1);
    FirstColon(b, l2);
    assert l1 == "" <==> l2 == "";
    if l1 != "" {
      HeadIsUnique(a, b, l1, l2);
    }
    DecimalIsInjective(h1, h2);
  }

  lemma RefundsDiffer(h1: HoldId, k1: string, h2: HoldId, k2: string)
    requires Text(RefundReference(h1, k1)) == Text(RefundReference(h2, k2))
    ensures h1 == h2 && k1 == k2
  {
    var a, b := Decimal(h1), Decimal(h2);
    DecimalHasNoColon(h1);
    DecimalHasNoColon(h2);
    assert Text(RefundReference(h1, k1)) == REFUND + (a + ":" + k1)
           && Text(RefundReference(h2, k2)) == REFUND + (b + ":" + k2);
    AfterPrefix(REFUND, a + ":" + k1, b + ":" + k2);
    HeadIsUnique(a, b, k1, k2);
    DecimalIsInjective(h1, h2);
  }

  /** Two references that are not the caller's collision have the same text only if they are the same. */
  lemma TextIsUnambiguous(r: Reference, s: Reference)
    requires Unreserved(r) && Unreserved(s)
    ensures Text(r) == Text(s) <==> r == s
  {
    if Text(r) == Text(s) {
      if r.CaptureReference? && s.CaptureReference? {
        CapturesDiffer(r.hold, r.leg, s.hold, s.leg);
      } else if r.RefundReference? && s.RefundReference? {
        RefundsDiffer(r.hold, r.key, s.hold, s.key);
      } else if !(r.CreditReference? && s.CreditReference?) {
        Prefixes(r);
        Prefixes(s);
      }
    }
  }

  lemma Prefixes(r: Reference)
    ensures r.CaptureReference? ==> CAPTURE <= Text(r) && !(REFUND <= Text(r))
    ensures r.RefundReference? ==> REFUND <= Text(r) && !(CAPTURE <= Text(r))
  {
    if r.CaptureReference? {
      assert Text(r)[0] == 'c';
    } else if r.RefundReference? {
      assert Text(r)[0] == 'r';
    }
  }

  /** A credit that takes a capture's text really does stand in its way. */
  lemma ReservedTextsCollide(hold: HoldId)
    ensures exists r: Reference ::
            r.CreditReference? && Text(r) == Text(CaptureReference(hold, "")) && r != CaptureReference(hold, "")
  {
    var r := CreditReference(CAPTURE + Decimal(hold));
    assert Text(r) == Text(CaptureReference(hold, ""));
  }
}
