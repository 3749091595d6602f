/**
 Reputation: signals about a subject, grouped by kind, folded into a standing that is derived
 on every read and never stored.
 */
module Reputation {
  import opened Common

  type Time = int

  datatype Kind = ServiceRating | Completion | Cancellation | Dispute | Compliment | Complaint

  const KINDS: seq<Kind> := [ServiceRating, Completion, Cancellation, Dispute, Compliment, Complaint]

  datatype Signal = Signal(
    organization: nat,
    subject: nat,
    kind: Kind,
    rating: Option<int>,
    source: string,
    reference: string,
    recordedAt: Time,
    retractedAt: Option<Time>,
    retractionReason: string)

  predicate RatingShapeIsValid(kind: Kind, value: Option<int>) {
    if kind == ServiceRating then value.Some? && 1 <= value.value <= 5 else value.None?
  }

  datatype Group = Group(
    kind: Kind,
    standing: nat,
    retracted: nat,
    ratings: nat,
    ratingSum: int,
    first: Time,
    last: Time)

  /** `counts` has an entry for every kind, zero included. */
  datatype Standing = Standing(
    signals: nat,
    retracted: nat,
    counts: map<Kind, nat>,
    ratings: nat,
    ratingSum: int,
    average: Option<int>,
    first: Option<Time>,
    last: Option<Time>)

  // ----- counting signals directly -----

  predicate Stands(s: Signal) {
    s.retractedAt.None?
  }

  predicate Rated(s: Signal) {
    Stands(s) && s.kind == ServiceRating && s.rating.Some?
  }

  datatype What = StandingOnes | RetractedOnes | Ratings | RatingSum

  function Worth(what: What, s: Signal): int {
    match what
    case StandingOnes => if Stands(s) then 1 else 0
    case RetractedOnes => if Stands(s) then 0 else 1
    case Ratings => if Rated(s) then 1 else 0
    case RatingSum => if Rated(s) then s.rating.value else 0
  }

  datatype Measure = Overall(what: What) | OfKind(what: What, kind: Kind)

  function Value(m: Measure, s: Signal): int {
    if m.OfKind? && m.kind != s.kind then 0 else Worth(m.what, s)
  }

  function Tally(signals: seq<Signal>, m: Measure): int {
    if signals == [] then 0 else Tally(signals[..|signals| - 1], m) + Value(m, signals[|signals| - 1])
  }

  lemma {:induction false} TallyConcat(a: seq<Signal>, b: seq<Signal>, m: Measure)
    ensures Tally(a + b, m) == Tally(a, m) + Tally(b, m)
  {
    if b == [] {
      assert a + b == a;
    } else {
      assert (a + b)[..|a + b| - 1] == a + b[..|b| - 1];
      TallyConcat(a, b[..|b| - 1], m);
    }
  }

  lemma TallyOne(s: Signal, m: Measure)
    ensures Tally([s], m) == Value(m, s)
  {
    assert [s][..0] == [];
  }

  function Without(b: seq<Signal>, i: nat): seq<Signal>
    requires i < |b|
  {
    b[..i] + b[i + 1..]
  }

  /** Taking one signal out takes out what it is worth, and nothing else. */
  lemma WithoutOne(b: seq<Signal>, i: nat, m: Measure)
    requires i < |b|
    ensures Tally(Without(b, i), m) == Tally(b, m) - Value(m, b[i])
  {
    assert b == b[..i] + [b[i]] + b[i + 1..];
    TallyConcat(b[..i], b[i + 1..], m);
    TallyConcat(b[..i] + [b[i]], b[i + 1..], m);
    TallyConcat(b[..i], [b[i]], m);
    TallyOne(b[i], m);
  }

  lemma WithoutSignals(b: seq<Signal>, i: nat)
    requires i < |b|
    ensures multiset(Without(b, i)) == multiset(b) - multiset{b[i]}
  {
    assert b == b[..i] + [b[i]] + b[i + 1..];
  }

  /** Where the last signal of one order sits in the other. */
  lemma FindLast(a: seq<Signal>, b: seq<Signal>) returns (i: nat)
    requires multiset(a) == multiset(b) && a != []
    ensures i < |b| && b[i] == a[|a| - 1]
  {
    assert a[|a| - 1] in multiset(a);
    assert a[|a| - 1] in b;
    i :| 0 <= i < |b| && b[i] == a[|a| - 1];
  }

  /** Counting does not depend on the order the signals come in. */
  lemma {:induction false} TallyPermutes(a: seq<Signal>, b: seq<Signal>, m: Measure)
    requires multiset(a) == multiset(b)
    ensures Tally(a, m) == Tally(b, m)
    decreases |a|
  {
    if a == [] {
      assert |multiset(b)| == 0;
    } else {
      var i := FindLast(a, b);
      assert a == a[..|a| - 1] + [a[|a| - 1]];
      WithoutSignals(b, i);
      WithoutOne(b, i, m);
      TallyPermutes(a[..|a| - 1], Without(b, i), m);
    }
  }

  /** Changing one signal moves a tally by exactly that signal's change. */
  lemma TallyUpdate(signals: seq<Signal>, i: nat, s: Signal, m: Measure)
    requires i < |signals|
    ensures Tally(signals[i := s], m) == Tally(signals, m) - Value(m, signals[i]) + Value(m, s)
  {
    assert signals == signals[..i] + [signals[i]] + signals[i + 1..];
    assert signals[i := s] == signals[..i] + [s] + signals[i + 1..];
    TallyConcat(signals[..i] + [signals[i]], signals[i + 1..], m);
    TallyConcat(signals[..i] + [s], signals[i + 1..], m);
    TallyConcat(signals[..i], [signals[i]], m);
    TallyConcat(signals[..i], [s], m);
    TallyOne(signals[i], m);
    TallyOne(s, m);
  }

  predicate IsFirst(signals: seq<Signal>, t: Time) {
    (exists i :: 0 <= i < |signals| && signals[i].recordedAt == t) && forall i ::
        0 <= i < |signals| ==> t <= signals[i].recordedAt
  }

  predicate IsLast(signals: seq<Signal>, t: Time) {
    (exists i :: 0 <= i < |signals| && signals[i].recordedAt == t) && forall i ::
        0 <= i < |signals| ==> signals[i].recordedAt <= t
  }

  /** Integer thousandths, halves rounded up, as `Math.round` does for an exact quotient. */
  function RoundedMean(sum: int, count: nat): int
    requires count > 0
  {
    (2 * (sum * 1000) + count) / (2 * count)
  }

  // ----- grouping by kind -----

  function Opened(s: Signal): Group {
    Group(s.kind, 0, 0, 0, 0, s.recordedAt, s.recordedAt)
  }

  /** One more signal of the group's kind. */
  function Added(g: Group, s: Signal): Group {
    var dated := g.(first := if s.recordedAt < g.first then s.recordedAt else g.first,
                    last := if s.recordedAt > g.last then s.recordedAt else g.last);
    if !Stands(s) then dated.(retracted := g.retracted + 1)
    else if Rated(s) then
      dated.(standing := g.standing + 1, ratings := g.ratings + 1, ratingSum := g.ratingSum + s.rating.value)
    else dated.(standing := g.standing + 1)
  }

  function KindGroup(signals: seq<Signal>, kind: Kind): Option<Group> {
    if signals == [] then None
    else
      var earlier, s := KindGroup(signals[..|signals| - 1], kind), signals[|signals| - 1];
      if s.kind != kind then earlier
      else Some(Added(if earlier.Some? then earlier.value else Opened(s), s))
  }

  predicate HasKind(signals: seq<Signal>, kind: Kind) {
    exists i :: 0 <= i < |signals| && signals[i].kind == kind
  }

  ghost predicate BoundsOf(signals: seq<Signal>, g: Group) {
    && (exists i :: 0 <= i < |signals| && signals[i].kind == g.kind && signals[i].recordedAt == g.first)
    && (exists i :: 0 <= i < |signals| && signals[i].kind == g.kind && signals[i].recordedAt == g.last)
    && (forall i :: 0 <= i < |signals| && signals[i].kind == g.kind ==> g.first <= signals[i].recordedAt <= g.last)
  }

  lemma {:induction false} GroupTallies(signals: seq<Signal>, kind: Kind)
    ensures KindGroup(signals, kind).None? ==> forall what :: Tally(signals, OfKind(what, kind)) == 0
    ensures KindGroup(signals, kind).Some? ==>
              var g := KindGroup(signals, kind).value;
              && g.kind == kind
              && g.standing == Tally(signals, OfKind(StandingOnes, kind))
              && g.retracted == Tally(signals, OfKind(RetractedOnes, kind))
              && g.ratings == Tally(signals, OfKind(Ratings, kind))
              && g.ratingSum == Tally(signals, OfKind(RatingSum, kind))
  {
    if signals != [] {
      GroupTallies(signals[..|signals| - 1], kind);
    }
  }

  /** What a group says about the window of its kind, present or not. */
  ghost predicate GroupIsBounded(signals: seq<Signal>, kind: Kind, g: Option<Group>) {
    && (g.Some? <==> HasKind(signals, kind))
    && (g.Some? ==> g.value.kind == kind && BoundsOf(signals, g.value))
  }

  lemma OneMoreOfTheKind(signals: seq<Signal>, s: Signal, g: Option<Group>)
    requires GroupIsBounded(signals, s.kind, g)
    ensures GroupIsBounded(signals + [s], s.kind, Some(Added(if g.Some? then g.value else Opened(s), s)))
  {
    assert (signals + [s])[|signals|] == s;
    if g.Some? {
      AddedBounds(signals, s, g.value);
    }
  }

  lemma OneMoreOfAnother(signals: seq<Signal>, s: Signal, kind: Kind, g: Option<Group>)
    requires GroupIsBounded(signals, kind, g) && s.kind != kind
    ensures GroupIsBounded(signals + [s], kind, g)
  {
    if g.Some? {
      BoundsExtend(signals, s, g.value);
      var i :| 0 <= i < |signals| && signals[i].kind == kind;
      assert (signals + [s])[i].kind == kind;
    }
  }

  lemma {:induction false} GroupBounds(signals: seq<Signal>, kind: Kind)
    ensures GroupIsBounded(signals, kind, KindGroup(signals, kind))
  {
    if signals != [] {
      var shorter, s := signals[..|signals| - 1], signals[|signals| - 1];
      GroupBounds(shorter, kind);
      assert signals == shorter + [s];
      if s.kind == kind {
        OneMoreOfTheKind(shorter, s, KindGroup(shorter, kind));
      } else {
        OneMoreOfAnother(shorter, s, kind, KindGroup(shorter, kind));
      }
    }
  }

  lemma BoundsExtend(signals: seq<Signal>, s: Signal, g: Group)
    requires BoundsOf(signals, g) && s.kind != g.kind
    ensures BoundsOf(signals + [s], g)
  {
    var i :| 0 <= i < |signals| && signals[i].kind == g.kind && signals[i].recordedAt == g.first;
    var j :| 0 <= j < |signals| && signals[j].kind == g.kind && signals[j].recordedAt == g.last;
    assert (signals + [s])[i] == signals[i] && (signals + [s])[j] == signals[j];
  }

  lemma AddedBounds(signals: seq<Signal>, s: Signal, g: Group)
    requires BoundsOf(signals, g) && s.kind == g.kind
    ensures BoundsOf(signals + [s], Added(g, s))
  {
    var longer := signals + [s];
    var i :| 0 <= i < |signals| && signals[i].kind == g.kind && signals[i].recordedAt == g.first;
    var j :| 0 <= j < |signals| && signals[j].kind == g.kind && signals[j].recordedAt == g.last;
    assert longer[i] == signals[i] && longer[j] == signals[j] && longer[|signals|] == s;
  }

  /** The groups of the first `n` kinds, those without signals left out. */
  function GroupsUpTo(signals: seq<Signal>, n: nat): seq<Group>
    requires n <= |KINDS|
  {
    if n == 0 then []
    else
      var g := KindGroup(signals, KINDS[n - 1]);
      if g.Some? then GroupsUpTo(signals, n - 1) + [g.value] else GroupsUpTo(signals, n - 1)
  }

  function Groups(signals: seq<Signal>): seq<Group> {
    GroupsUpTo(signals, |KINDS|)
  }

  // ----- deriving a standing -----

  function ZeroCounts(): map<Kind, nat> {
    map k | k in KINDS :: 0
  }

  function FoldOne(st: Standing, g: Group): Standing {
    st.(signals := st.signals + g.standing + g.retracted,
        retracted := st.retracted + g.retracted,
        counts := st.counts[g.kind := g.standing],
        ratings := st.ratings + g.ratings,
        ratingSum := st.ratingSum + g.ratingSum,
        first := if st.first.None? || g.first < st.first.value then Some(g.first) else st.first,
        last := if st.last.None? || g.last > st.last.value then Some(g.last) else st.last)
  }

  /** The fold of `deriveStanding`, its average left to the end. */
  function Folded(groups: seq<Group>): Standing {
    if groups == [] then Standing(0, 0, ZeroCounts(), 0, 0, None, None, None)
    else FoldOne(Folded(groups[..|groups| - 1]), groups[|groups| - 1])
  }

  function Derive(groups: seq<Group>): Standing {
    var st := Folded(groups);
    st.(average := if st.ratings == 0 then None else Some(RoundedMean(st.ratingSum, st.ratings)))
  }

  /** `standingFromSignals`: group, then derive. */
  function StandingOf(signals: seq<Signal>): Standing {
    Derive(Groups(signals))
  }

  // ----- grouping and deriving is counting -----

  /** Tallies of the first `n` kinds, added up. */
  function Summed(signals: seq<Signal>, what: What, n: nat): int
    requires n <= |KINDS|
  {
    if n == 0 then 0 else Summed(signals, what, n - 1) + Tally(signals, OfKind(what, KINDS[n - 1]))
  }

  lemma EveryKindIsListed(kind: Kind) returns (n: nat)
    ensures n < |KINDS| && KINDS[n] == kind && forall m :: 0 <= m < |KINDS| && m != n ==> KINDS[m] != kind
  {
    match kind
    case ServiceRating => n := 0;
    case Completion => n := 1;
    case Cancellation => n := 2;
    case Dispute => n := 3;
    case Compliment => n := 4;
    case Complaint => n := 5;
  }

  lemma {:induction false} OneSignalIsInOneKind(signals: seq<Signal>, s: Signal, what: What, n: nat)
    requires n <= |KINDS|
    ensures Summed(signals + [s], what, n)
         == Summed(signals, what, n) + if exists m :: 0 <= m < n && KINDS[m] == s.kind then Worth(what, s) else 0
  {
    if n > 0 {
      OneSignalIsInOneKind(signals, s, what, n - 1);
      assert (signals + [s])[..|signals|] == signals;
      var at := EveryKindIsListed(s.kind);
      if KINDS[n - 1] == s.kind {
        assert at == n - 1;
      } else if m :| 0 <= m < n && KINDS[m] == s.kind {
        assert m < n - 1;
      }
    }
  }

  lemma {:induction false} KindsAddUp(signals: seq<Signal>, what: What)
    ensures Summed(signals, what, |KINDS|) == Tally(signals, Overall(what))
  {
    if signals == [] {
      NothingSums(what, |KINDS|);
    } else {
      var shorter, s := signals[..|signals| - 1], signals[|signals| - 1];
      KindsAddUp(shorter, what);
      assert signals == shorter + [s];
      var at := EveryKindIsListed(s.kind);
      OneSignalIsInOneKind(shorter, s, what, |KINDS|);
    }
  }

  lemma {:induction false} NothingSums(what: What, n: nat)
    requires n <= |KINDS|
    ensures Summed([], what, n) == 0
  {
    if n > 0 {
      NothingSums(what, n - 1);
    }
  }

  ghost predicate FoldedUpTo(signals: seq<Signal>, n: nat, st: Standing)
    requires n <= |KINDS|
  {
    && st.signals == Summed(signals, StandingOnes, n) + Summed(signals, RetractedOnes, n)
    && st.retracted == Summed(signals, RetractedOnes, n)
    && st.ratings == Summed(signals, Ratings, n)
    && st.ratingSum == Summed(signals, RatingSum, n)
    && st.average == None
  }

  lemma FoldWithTheKind(signals: seq<Signal>, n: nat, st: Standing)
    requires 0 < n <= |KINDS| && FoldedUpTo(signals, n - 1, st) && KindGroup(signals, KINDS[n - 1]).Some?
    ensures FoldedUpTo(signals, n, FoldOne(st, KindGroup(signals, KINDS[n - 1]).value))
  {
    GroupTallies(signals, KINDS[n - 1]);
  }

  lemma FoldWithoutTheKind(signals: seq<Signal>, n: nat, st: Standing)
    requires 0 < n <= |KINDS| && FoldedUpTo(signals, n - 1, st) && KindGroup(signals, KINDS[n - 1]).None?
    ensures FoldedUpTo(signals, n, st)
  {
    GroupTallies(signals, KINDS[n - 1]);
    assert Tally(signals, OfKind(StandingOnes, KINDS[n - 1])) == 0
           && Tally(signals, OfKind(RetractedOnes, KINDS[n - 1])) == 0;
    assert Tally(signals, OfKind(Ratings, KINDS[n - 1])) == 0 && Tally(signals, OfKind(RatingSum, KINDS[n - 1])) == 0;
  }

  lemma {:induction false} FoldSumsTheKinds(signals: seq<Signal>, n: nat)
    requires n <= |KINDS|
    ensures FoldedUpTo(signals, n, Folded(GroupsUpTo(signals, n)))
  {
    if n > 0 {
      FoldSumsTheKinds(signals, n - 1);
      var earlier := GroupsUpTo(signals, n - 1);
      var g := KindGroup(signals, KINDS[n - 1]);
      if g.Some? {
        assert (earlier + [g.value])[..|earlier|] == earlier;
        FoldWithTheKind(signals, n, Folded(earlier));
      } else {
        FoldWithoutTheKind(signals, n, Folded(earlier));
      }
    }
  }

  predicate Within(kind: Kind, n: nat)
    requires n <= |KINDS|
  {
    exists m :: 0 <= m < n && KINDS[m] == kind
  }

  lemma WithinNext(kind: Kind, n: nat)
    requires 0 < n <= |KINDS|
    ensures Within(kind, n) <==> Within(kind, n - 1) || KINDS[n - 1] == kind
  {
  }

  /** Folding a later kind leaves the counts of the others alone. */
  lemma CountsStep(signals: seq<Signal>, n: nat, kind: Kind, st: Standing)
    requires 0 < n <= |KINDS| && kind in st.counts
    requires st.counts[kind] == if Within(kind, n - 1) then Tally(signals, OfKind(StandingOnes, kind)) else 0
    ensures var g := KindGroup(signals, KINDS[n - 1]);
            var after := if g.Some? then FoldOne(st, g.value) else st;
            kind in after.counts
            && after.counts[kind] == if Within(kind, n) then Tally(signals, OfKind(StandingOnes, kind)) else 0
  {
    GroupTallies(signals, KINDS[n - 1]);
    WithinNext(kind, n);
    if KINDS[n - 1] == kind && KindGroup(signals, kind).None? {
      assert Tally(signals, OfKind(StandingOnes, kind)) == 0;
    }
  }

  lemma {:induction false} FoldKeepsCounts(signals: seq<Signal>, n: nat, kind: Kind)
    requires n <= |KINDS|
    ensures kind in Folded(GroupsUpTo(signals, n)).counts
    ensures Folded(GroupsUpTo(signals, n)).counts[kind]
         == if Within(kind, n) then Tally(signals, OfKind(StandingOnes, kind)) else 0
  {
    if n == 0 {
      var at := EveryKindIsListed(kind);
      assert KINDS[at] in KINDS;
    } else {
      FoldKeepsCounts(signals, n - 1, kind);
      var earlier := GroupsUpTo(signals, n - 1);
      var g := KindGroup(signals, KINDS[n - 1]);
      CountsStep(signals, n, kind, Folded(earlier));
      if g.Some? {
        assert (earlier + [g.value])[..|earlier|] == earlier;
      }
    }
  }

  /** The window a fold has found covers exactly the signals of the kinds folded so far. */
  ghost predicate WindowUpTo(signals: seq<Signal>, n: nat, st: Standing)
    requires n <= |KINDS|
  {
    && (st.first.None? <==> st.last.None?)
    && (st.first.None? <==> forall i :: 0 <= i < |signals| ==> !Within(signals[i].kind, n))
    && (st.first.Some? ==>
          && (exists i :: 0 <= i < |signals| && Within(signals[i].kind, n) && signals[i].recordedAt == st.first.value)
          && (exists i :: 0 <= i < |signals| && Within(signals[i].kind, n) && signals[i].recordedAt == st.last.value)
          && (forall i :: 0 <= i < |signals| && Within(signals[i].kind, n) ==>
                st.first.value <= signals[i].recordedAt <= st.last.value))
  }

  lemma WindowWithoutTheKind(signals: seq<Signal>, n: nat, st: Standing)
    requires 0 < n <= |KINDS| && WindowUpTo(signals, n - 1, st) && !HasKind(signals, KINDS[n - 1])
    ensures WindowUpTo(signals, n, st)
  {
    forall i | 0 <= i < |signals|
      ensures Within(signals[i].kind, n) <==> Within(signals[i].kind, n - 1)
    {
      WithinNext(signals[i].kind, n);
    }
  }

  lemma WindowWithTheKind(signals: seq<Signal>, n: nat, st: Standing, g: Group)
    requires 0 < n <= |KINDS| && WindowUpTo(signals, n - 1, st) && g.kind == KINDS[n - 1] && BoundsOf(signals, g)
    ensures WindowUpTo(signals, n, FoldOne(st, g))
  {
    forall i | 0 <= i < |signals|
      ensures Within(signals[i].kind, n) <==> Within(signals[i].kind, n - 1) || signals[i].kind == g.kind
    {
      WithinNext(signals[i].kind, n);
    }
  }

  lemma {:induction false} FoldKeepsWindow(signals: seq<Signal>, n: nat)
    requires n <= |KINDS|
    ensures WindowUpTo(signals, n, Folded(GroupsUpTo(signals, n)))
  {
    if n > 0 {
      FoldKeepsWindow(signals, n - 1);
      GroupBounds(signals, KINDS[n - 1]);
      var earlier := GroupsUpTo(signals, n - 1);
      var g := KindGroup(signals, KINDS[n - 1]);
      if g.Some? {
        assert (earlier + [g.value])[..|earlier|] == earlier;
        WindowWithTheKind(signals, n, Folded(earlier), g.value);
      } else {
        WindowWithoutTheKind(signals, n, Folded(earlier));
      }
    }
  }

  /**
   Grouping by kind and then deriving is counting the signals directly: every number, the
   average and the window are those of the signals themselves.
   */
  lemma StandingIsTheCount(signals: seq<Signal>)
    ensures var st := StandingOf(signals);
            && st.signals == |signals|
            && st.retracted == Tally(signals, Overall(RetractedOnes))
            && st.ratings == Tally(signals, Overall(Ratings))
            && st.ratingSum == Tally(signals, Overall(RatingSum))
            && (st.average.Some? <==> st.ratings > 0)
            && (st.average.Some? ==> st.average.value == RoundedMean(st.ratingSum, st.ratings))
            && (forall kind :: kind in st.counts && st.counts[kind] == Tally(signals, OfKind(StandingOnes, kind)))
            && (st.first.None? <==> signals == []) && (st.last.None? <==> signals == [])
            && (signals != [] ==> IsFirst(signals, st.first.value) && IsLast(signals, st.last.value))
  {
    FoldSumsTheKinds(signals, |KINDS|);
    FoldKeepsWindow(signals, |KINDS|);
    KindsAddUp(signals, StandingOnes);
    KindsAddUp(signals, RetractedOnes);
    KindsAddUp(signals, Ratings);
    KindsAddUp(signals, RatingSum);
    StandingOrRetracted(signals);
    forall kind: Kind
      ensures Within(kind, |KINDS|)
    {
      var n := EveryKindIsListed(kind);
      assert KINDS[n] == kind;
    }
    forall kind: Kind
      ensures kind in Folded(Groups(signals)).counts
      ensures Folded(Groups(signals)).counts[kind] == Tally(signals, OfKind(StandingOnes, kind))
    {
      assert Within(kind, |KINDS|);
      FoldKeepsCounts(signals, |KINDS|, kind);
    }
    WindowIsFirstAndLast(signals);
  }

  lemma WindowIsFirstAndLast(signals: seq<Signal>)
    requires WindowUpTo(signals, |KINDS|, Folded(Groups(signals))) && forall kind :: Within(kind, |KINDS|)
    ensures var st := Folded(Groups(signals));
            && (st.first.None? <==> signals == []) && (st.last.None? <==> signals == [])
            && (signals != [] ==> IsFirst(signals, st.first.value) && IsLast(signals, st.last.value))
  {
    if signals != [] {
      assert Within(signals[0].kind, |KINDS|);
    }
  }

  lemma {:induction false} StandingOrRetracted(signals: seq<Signal>)
    ensures Tally(signals, Overall(StandingOnes)) + Tally(signals, Overall(RetractedOnes)) == |signals|
  {
    if signals != [] {
      StandingOrRetracted(signals[..|signals| - 1]);
    }
  }

  // ----- what follows for a standing -----

  lemma SameMembers(a: seq<Signal>, b: seq<Signal>, t: Time)
    requires multiset(a) == multiset(b)
    ensures IsFirst(a, t) ==> IsFirst(b, t)
    ensures IsLast(a, t) ==> IsLast(b, t)
  {
    forall i | 0 <= i < |a|
      ensures a[i] in b
    {
      assert a[i] in multiset(b);
    }
    forall i | 0 <= i < |b|
      ensures b[i] in a
    {
      assert b[i] in multiset(a);
    }
  }

  /** A standing does not depend on the order of the signals. */
  lemma OrderDoesNotMatter(a: seq<Signal>, b: seq<Signal>)
    requires multiset(a) == multiset(b)
    ensures StandingOf(a) == StandingOf(b)
  {
    StandingIsTheCount(a);
    StandingIsTheCount(b);
    assert |a| == |multiset(a)| == |multiset(b)| == |b|;
    TallyPermutes(a, b, Overall(RetractedOnes));
    TallyPermutes(a, b, Overall(Ratings));
    TallyPermutes(a, b, Overall(RatingSum));
    var s, t := StandingOf(a), StandingOf(b);
    forall kind: Kind
      ensures s.counts[kind] == t.counts[kind]
    {
      TallyPermutes(a, b, OfKind(StandingOnes, kind));
    }
    assert s.counts == t.counts;
    if a != [] {
      SameMembers(a, b, s.first.value);
      SameMembers(a, b, s.last.value);
    }
  }

  function Withdrawn(s: Signal, at: Time, reason: string): Signal {
    s.(retractedAt := Some(at), retractionReason := reason)
  }

  /** Retracting one standing signal moves exactly its own contribution to the retracted count. */
  lemma RetractionMovesOneContribution(signals: seq<Signal>, i: nat, at: Time, reason: string)
    requires i < |signals| && Stands(signals[i])
    ensures var s := signals[i];
            var before, after := StandingOf(signals), StandingOf(signals[i := Withdrawn(s, at, reason)]);
            && after.signals == before.signals
            && after.retracted == before.retracted + 1
            && (forall kind :: kind in before.counts && kind in after.counts
                               && before.counts[kind] == after.counts[kind] + if kind == s.kind then 1 else 0)
            && after.ratings == before.ratings - Worth(Ratings, s)
            && after.ratingSum == before.ratingSum - Worth(RatingSum, s)
            && after.first == before.first && after.last == before.last
  {
    var s := signals[i];
    var withdrawn := Withdrawn(s, at, reason);
    var changed := signals[i := withdrawn];
    StandingIsTheCount(signals);
    StandingIsTheCount(changed);
    TallyUpdate(signals, i, withdrawn, Overall(RetractedOnes));
    TallyUpdate(signals, i, withdrawn, Overall(Ratings));
    TallyUpdate(signals, i, withdrawn, Overall(RatingSum));
    forall kind: Kind
      ensures StandingOf(signals).counts[kind] == StandingOf(changed).counts[kind] + if kind == s.kind then 1 else 0
    {
      TallyUpdate(signals, i, withdrawn, OfKind(StandingOnes, kind));
    }
    SameTimes(signals, changed);
  }

  lemma SameTimes(a: seq<Signal>, b: seq<Signal>)
    requires |a| == |b| && forall i :: 0 <= i < |a| ==> a[i].recordedAt == b[i].recordedAt
    ensures StandingOf(a).first == StandingOf(b).first && StandingOf(a).last == StandingOf(b).last
  {
    StandingIsTheCount(a);
    StandingIsTheCount(b);
    if a != [] {
      FirstsAgree(a, b, StandingOf(a).first.value, StandingOf(b).first.value);
      LastsAgree(a, b, StandingOf(a).last.value, StandingOf(b).last.value);
    }
  }

  lemma FirstsAgree(a: seq<Signal>, b: seq<Signal>, t: Time, u: Time)
    requires |a| == |b| && forall i :: 0 <= i < |a| ==> a[i].recordedAt == b[i].recordedAt
    requires IsFirst(a, t) && IsFirst(b, u)
    ensures t == u
  {
    var i :| 0 <= i < |a| && a[i].recordedAt == t;
    var j :| 0 <= j < |b| && b[j].recordedAt == u;
    assert u <= b[i].recordedAt && t <= a[j].recordedAt;
  }

  lemma LastsAgree(a: seq<Signal>, b: seq<Signal>, t: Time, u: Time)
    requires |a| == |b| && forall i :: 0 <= i < |a| ==> a[i].recordedAt == b[i].recordedAt
    requires IsLast(a, t) && IsLast(b, u)
    ensures t == u
  {
    var i :| 0 <= i < |a| && a[i].recordedAt == t;
    var j :| 0 <= j < |b| && b[j].recordedAt == u;
    assert b[i].recordedAt <= u && a[j].recordedAt <= t;
  }

  ghost predicate WellShaped(signals: seq<Signal>) {
    forall i :: 0 <= i < |signals| ==> RatingShapeIsValid(signals[i].kind, signals[i].rating)
  }

  lemma {:induction false} RatingsAreBounded(signals: seq<Signal>)
    requires WellShaped(signals)
    ensures Tally(signals, Overall(Ratings)) <= Tally(signals, Overall(RatingSum))
    ensures Tally(signals, Overall(RatingSum)) <= 5 * Tally(signals, Overall(Ratings))
    ensures Tally(signals, Overall(Ratings)) >= 0
  {
    if signals != [] {
      RatingsAreBounded(signals[..|signals| - 1]);
    }
  }

  lemma Quotient(n: int, d: nat)
    requires d > 0
    ensures d * (n / d) <= n < d * (n / d) + d
  {
  }

  lemma Scale(d: nat, a: int, b: int)
    requires a <= b
    ensures d * a <= d * b
  {
  }

  lemma MeanIsBounded(sum: int, count: nat)
    requires count > 0 && count <= sum <= 5 * count
    ensures 1000 <= RoundedMean(sum, count) <= 5000
    ensures 2 * (sum * 1000) - count <= (2 * count) * RoundedMean(sum, count) <= 2 * (sum * 1000) + count
  {
    var mean := RoundedMean(sum, count);
    Quotient(2 * (sum * 1000) + count, 2 * count);
    if mean < 1000 {
      Scale(2 * count, mean, 999);
    }
    if mean > 5000 {
      Scale(2 * count, 5001, mean);
    }
  }

  /** An average is the mean rounded to the nearest thousandth, and lies between one star and five. */
  lemma AverageIsTheRoundedMean(signals: seq<Signal>)
    requires WellShaped(signals)
    ensures var st := StandingOf(signals);
            st.average.Some? ==>
              && 1000 <= st.average.value <= 5000
              && 2 * (st.ratingSum * 1000) - st.ratings <= (2 * st.ratings) * st.average.value
              && (2 * st.ratings) * st.average.value <= 2 * (st.ratingSum * 1000) + st.ratings
  {
    StandingIsTheCount(signals);
    RatingsAreBounded(signals);
    var st := StandingOf(signals);
    if st.average.Some? {
      MeanIsBounded(st.ratingSum, st.ratings);
    }
  }
}
