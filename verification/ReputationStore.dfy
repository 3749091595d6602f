/**
 The loops behind a standing, and the reference store that records a producer's reference once
 and its retraction once.
 */
module ReputationStore {
  import opened Common
  import opened Reputation

  // ----- the two loops -----

  /** `groupSignals`: bucket in one pass, then list the kinds in their fixed order. */
  method GroupSignals(signals: seq<Signal>) returns (groups: seq<Group>)
    ensures groups == Groups(signals)
  {
    var buckets: map<Kind, Group> := map[];
    for n := 0 to |signals|
      invariant forall kind :: kind in buckets <==> KindGroup(signals[..n], kind).Some?
      invariant forall kind :: kind in buckets ==> buckets[kind] == KindGroup(signals[..n], kind).value
    {
      assert signals[..n + 1][..n] == signals[..n];
      var s := signals[n];
      var group := if s.kind in buckets then buckets[s.kind] else Opened(s);
      buckets := buckets[s.kind := Added(group, s)];
    }
    assert signals[..|signals|] == signals;
    groups := [];
    for n := 0 to |KINDS|
      invariant groups == GroupsUpTo(signals, n)
    {
      if KINDS[n] in buckets {
        groups := groups + [buckets[KINDS[n]]];
      }
    }
  }

  method DeriveStanding(groups: seq<Group>) returns (st: Standing)
    ensures st == Derive(groups)
  {
    st := Standing(0, 0, ZeroCounts(), 0, 0, None, None, None);
    for n := 0 to |groups|
      invariant st == Folded(groups[..n])
    {
      assert groups[..n + 1][..n] == groups[..n];
      var g := groups[n];
      st := st.(signals := st.signals + g.standing + g.retracted,
                retracted := st.retracted + g.retracted,
                counts := st.counts[g.kind := g.standing],
                ratings := st.ratings + g.ratings,
                ratingSum := st.ratingSum + g.ratingSum);
      if st.first.None? || g.first < st.first.value {
        st := st.(first := Some(g.first));
      }
      if st.last.None? || g.last > st.last.value {
        st := st.(last := Some(g.last));
      }
    }
    assert groups[..|groups|] == groups;
    st := st.(average := if st.ratings == 0 then None else Some(RoundedMean(st.ratingSum, st.ratings)));
  }

  // ----- the store -----

  datatype InsertOutcome = Inserted | DuplicateSourceReference | Violated

  datatype RetractionOutcome = Applied | Stale

  predicate SameSource(s: Signal, organization: nat, source: string, reference: string) {
    s.organization == organization && s.source == source && s.reference == reference
  }

  /** The row's check constraints; a retraction has a time and a reason, or neither. */
  predicate AcceptsRow(s: Signal, correlation: string) {
    && RatingShapeIsValid(s.kind, s.rating)
    && s.source != "" && s.reference != "" && correlation != ""
    && (Stands(s) <==> s.retractionReason == "")
  }

  /** One row per producer's reference, every row well shaped. */
  ghost predicate Sound(rows: map<nat, Signal>) {
    && (forall i :: i in rows ==> RatingShapeIsValid(rows[i].kind, rows[i].rating))
    && (forall i, j ::
          i in rows && j in rows && SameSource(rows[i], rows[j].organization, rows[j].source, rows[j].reference)
          ==> i == j)
  }

  class InMemoryReputationRepository {
    var rows: map<nat, Signal>

    constructor ()
      ensures rows == map[] && Sound(rows)
    {
      rows := map[];
    }

    method BySource(organization: nat, source: string, reference: string) returns (found: Option<nat>)
      ensures found.Some? ==> found.value in rows && SameSource(rows[found.value], organization, source, reference)
      ensures found.None? ==> forall i :: i in rows ==> !SameSource(rows[i], organization, source, reference)
    {
      var rest := rows.Keys;
      while rest != {}
        invariant rest <= rows.Keys
        invariant forall i :: i in rows && i !in rest ==> !SameSource(rows[i], organization, source, reference)
        decreases rest
      {
        var i :| i in rest;
        rest := rest - {i};
        if SameSource(rows[i], organization, source, reference) {
          return Some(i);
        }
      }
      found := None;
    }

    /**
     The same reference reported twice is recorded once. The texts are the trimmed ones, and a signal
     may arrive already retracted.
     */
    method InsertIfAbsent(id: nat, s: Signal, correlation: string) returns (outcome: InsertOutcome)
      requires Sound(rows) && id !in rows
      modifies this
      ensures Sound(rows)
      ensures outcome == Violated <==> !AcceptsRow(s, correlation)
      ensures outcome == DuplicateSourceReference <==>
                && AcceptsRow(s, correlation)
                && exists i :: i in old(rows) && SameSource(old(rows)[i], s.organization, s.source, s.reference)
      ensures rows == if outcome == Inserted then old(rows)[id := s] else old(rows)
    {
      if !AcceptsRow(s, correlation) {
        return Violated;
      }
      var found := BySource(s.organization, s.source, s.reference);
      if found.Some? {
        return DuplicateSourceReference;
      }
      rows := rows[id := s];
      outcome := Inserted;
    }

    /**
     The marker is written once; a second retraction, or an unknown reference, writes nothing,
     and one without a reason is refused.
     */
    method RetractIfStanding(organization: nat, source: string, reference: string, at: Time, reason: string)
      returns (outcome: Result<RetractionOutcome, InsertOutcome>)
      requires Sound(rows)
      modifies this
      ensures Sound(rows)
      ensures outcome.Err? <==> reason == ""
      ensures outcome.Err? ==> outcome.error == Violated && rows == old(rows)
      ensures outcome == Ok(Stale) ==> rows == old(rows)
      ensures outcome == Ok(Stale) ==>
                forall i :: i in rows && SameSource(rows[i], organization, source, reference) ==> !Stands(rows[i])
      ensures outcome == Ok(Applied) ==>
                exists i :: i in old(rows) && SameSource(old(rows)[i], organization, source, reference)
                    && Stands(old(rows)[i])
                            && rows == old(rows)[i := Withdrawn(old(rows)[i], at, reason)]
    {
      if reason == "" {
        return Err(Violated);
      }
      var found := BySource(organization, source, reference);
      if found.None? || !Stands(rows[found.value]) {
        return Ok(Stale);
      }
      rows := rows[found.value := Withdrawn(rows[found.value], at, reason)];
      outcome := Ok(Applied);
    }
  }
}
