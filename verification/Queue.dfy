/**
 The lease-and-fence queue that the outbox, the deliveries and the inbound log share: what a
 row is, in which order rows are served, and what claiming, recovering, acknowledging and
 reviving write.

 Timestamps and identifiers are numbers here; all the code ever does with them is compare.
 */
module Queue {
  import opened Common

  type Time = int
  type Id = nat
  type Token = nat

  /** `Finished` is `published` in the outbox, `delivered` or `processed` elsewhere. */
  datatype Status = Pending | Finished | Dead

  datatype Fault =
    | NoFault
    | Reported(text: string)
    | Reclaimed(reclaims: nat, attempts: nat)
    | ReclaimLimitExceeded(reclaims: nat, attempts: nat)

  datatype Row = Row(
    arrival: Time,
    status: Status,
    attempts: nat,
    reclaims: nat,
    lastError: Fault,
    nextAttempt: Time,
    claimedAt: Option<Time>,
    token: Option<Token>)

  type Rows = map<Id, Row>

  function NewRow(now: Time): Row {
    Row(now, Pending, 0, 0, NoFault, now, None, None)
  }

  // ----- fencing and budgets -----

  /** `None` is `UNFENCED`: a caller that never claimed the row. */
  predicate IsFenced(rowToken: Option<Token>, fence: Option<Token>) {
    fence.Some? && rowToken != fence
  }

  predicate ReclaimExhausted(reclaimsBefore: nat, maxReclaims: nat) {
    reclaimsBefore + 1 > maxReclaims
  }

  // ----- due order -----

  /** `next_attempt_at`, then arrival, then id: a strict total order on the rows of a store. */
  predicate Before(rows: Rows, i: Id, j: Id)
    requires i in rows && j in rows
  {
    if rows[i].nextAttempt != rows[j].nextAttempt then rows[i].nextAttempt < rows[j].nextAttempt
    else if rows[i].arrival != rows[j].arrival then rows[i].arrival < rows[j].arrival
    else i < j
  }

  lemma {:induction false} FirstExists(rows: Rows, ids: set<Id>)
    requires ids != {} && ids <= rows.Keys
    ensures exists i :: i in ids && forall j :: j in ids && j != i ==> Before(rows, i, j)
    decreases |ids|
  {
    var k :| k in ids;
    if ids - {k} == {} {
      assert ids == {k};
    } else {
      FirstExists(rows, ids - {k});
      var i :| i in ids - {k} && forall j :: j in ids - {k} && j != i ==> Before(rows, i, j);
      if Before(rows, i, k) {
        assert forall j :: j in ids && j != i ==> Before(rows, i, j);
      } else {
        forall j | j in ids && j != k
          ensures Before(rows, k, j)
        {
          assert j != i ==> Before(rows, i, j);
        }
      }
    }
  }

  function First(rows: Rows, ids: set<Id>): (first: Id)
    requires ids != {} && ids <= rows.Keys
    ensures first in ids
    ensures forall j :: j in ids && j != first ==> Before(rows, first, j)
  {
    FirstExists(rows, ids);
    var i :| i in ids && forall j :: j in ids && j != i ==> Before(rows, i, j);
    i
  }

  /** The given rows in the order the queue serves them. */
  function DueOrder(rows: Rows, ids: set<Id>): (order: seq<Id>)
    requires ids <= rows.Keys
    ensures forall i :: i in order <==> i in ids
    ensures |order| == |ids|
    decreases |ids|
  {
    if ids == {} then []
    else
      var first := First(rows, ids);
      [first] + DueOrder(rows, ids - {first})
  }

  predicate Ordered(rows: Rows, order: seq<Id>)
    requires forall i :: i in order ==> i in rows
  {
    forall a, b :: 0 <= a < b < |order| ==> Before(rows, order[a], order[b])
  }

  lemma {:induction false} DueOrderIsOrdered(rows: Rows, ids: set<Id>)
    requires ids <= rows.Keys
    ensures Ordered(rows, DueOrder(rows, ids))
    ensures forall a, b :: 0 <= a < b < |ids| ==> DueOrder(rows, ids)[a] != DueOrder(rows, ids)[b]
    decreases |ids|
  {
    if ids != {} {
      var first := First(rows, ids);
      DueOrderIsOrdered(rows, ids - {first});
      var rest := DueOrder(rows, ids - {first});
      forall b | 0 <= b < |rest|
        ensures Before(rows, first, rest[b]) && first != rest[b]
      {
        assert rest[b] in rest;
      }
    }
  }

  predicate Due(row: Row, now: Time) {
    row.status == Pending && row.claimedAt == None && row.nextAttempt <= now
  }

  /** A row whose holder let its lease run out. */
  predicate Abandoned(row: Row, now: Time) {
    row.status == Pending && row.claimedAt.Some? && row.nextAttempt <= now
  }

  function DueIds(rows: Rows, now: Time): set<Id> {
    set i | i in rows && Due(rows[i], now)
  }

  function AbandonedIds(rows: Rows, now: Time): set<Id> {
    set i | i in rows && Abandoned(rows[i], now)
  }

  function AtMost<T>(s: seq<T>, limit: int): seq<T> {
    if limit <= 0 then [] else if limit < |s| then s[..limit] else s
  }

  // ----- what each operation writes on one row -----

  function ClaimedRow(row: Row, now: Time, lease: int, token: Token): Row {
    row.(nextAttempt := now + lease, claimedAt := Some(now), token := Some(token))
  }

  function RecoveredRow(row: Row, now: Time, maxReclaims: nat): Row {
    if ReclaimExhausted(row.reclaims, maxReclaims) then
      row.(reclaims := row.reclaims + 1, status := Dead, claimedAt := None, token := None,
           lastError := ReclaimLimitExceeded(row.reclaims + 1, row.attempts))
    else
      row.(reclaims := row.reclaims + 1, claimedAt := None, token := None, nextAttempt := now,
           lastError := Reclaimed(row.reclaims + 1, row.attempts))
  }

  /**
   The acknowledgements: finish (`markPublished` charges no attempt, `markDelivered` one),
   retry later, dead-letter, and dead-letter without charging an attempt.
   */
  datatype Ack =
    | Finish(charge: nat)
    | RetryAt(at: Time, error: string)
    | Bury(error: string)
    | Suppress(error: string)

  function AcknowledgedRow(row: Row, ack: Ack): Row {
    var released := row.(claimedAt := None, token := None);
    match ack
    case Finish(charge) => released.(status := Finished, attempts := row.attempts + charge, lastError := NoFault)
    case RetryAt(at, error) => released.(attempts := row.attempts + 1, nextAttempt := at, lastError := Reported(error))
    case Bury(error) => released.(attempts := row.attempts + 1, status := Dead, lastError := Reported(error))
    case Suppress(error) => released.(status := Dead, lastError := Reported(error))
  }

  /** A revival keeps `attempts` and the error and gives the abandonment budget back. */
  function RevivedRow(row: Row, now: Time): Row {
    row.(status := Pending, nextAttempt := now, claimedAt := None, token := None, reclaims := 0)
  }

  // ----- two ways to choose a batch -----

  /** The members of `order` that are in `keep`, in the same order. */
  function Kept(order: seq<Id>, keep: set<Id>): seq<Id> {
    if order == [] then []
    else
      var earlier := Kept(order[..|order| - 1], keep);
      if order[|order| - 1] in keep then earlier + [order[|order| - 1]] else earlier
  }

  lemma {:induction false} KeptConcat(left: seq<Id>, right: seq<Id>, keep: set<Id>)
    ensures Kept(left + right, keep) == Kept(left, keep) + Kept(right, keep)
  {
    if right == [] {
      assert left + right == left;
    } else {
      var shorter := right[..|right| - 1];
      assert (left + right)[..|left + right| - 1] == left + shorter;
      KeptConcat(left, shorter, keep);
    }
  }

  lemma KeptOne(i: Id, keep: set<Id>)
    ensures Kept([i], keep) == (if i in keep then [i] else [])
  {
    assert [i][..0] == [];
  }

  /** Sorting and then skipping serves the same rows in the same order as filtering and then sorting. */
  lemma {:induction false} SortThenSkipIsFilterThenSort(rows: Rows, ids: set<Id>, keep: set<Id>)
    requires keep <= ids <= rows.Keys
    ensures Kept(DueOrder(rows, ids), keep) == DueOrder(rows, keep)
    decreases |ids|
  {
    if ids != {} {
      var first := First(rows, ids);
      var rest := DueOrder(rows, ids - {first});
      SortThenSkipIsFilterThenSort(rows, ids - {first}, keep - {first});
      KeptConcat([first], rest, keep);
      KeptOne(first, keep);
      KeptIgnoresAbsent(rest, keep, first);
      if first in keep {
        assert First(rows, keep) == first;
      } else {
        assert keep - {first} == keep;
      }
    }
  }

  lemma {:induction false} KeptIgnoresAbsent(order: seq<Id>, keep: set<Id>, absent: Id)
    requires absent !in order
    ensures Kept(order, keep) == Kept(order, keep - {absent})
  {
    if order != [] {
      assert order[|order| - 1] in order;
      KeptIgnoresAbsent(order[..|order| - 1], keep, absent);
    }
  }

  /** `slice(0, limit)`, which for a negative limit drops that many from the end. */
  function Slice<T>(s: seq<T>, limit: int): seq<T> {
    if limit >= 0 then AtMost(s, limit)
    else if |s| + limit <= 0 then [] else s[..|s| + limit]
  }

  /** What the delivery and inbound stores claim: filter, sort, slice. */
  function SlicedBatch(rows: Rows, now: Time, limit: int): seq<Id> {
    Slice(DueOrder(rows, DueIds(rows, now)), limit)
  }

  /**
   What the outbox's loop picks from a list: it skips what it may not claim, and pushes a row before
   it compares the count with the limit.
   */
  function Scan(order: seq<Id>, keep: set<Id>, limit: int, picked: seq<Id>): seq<Id> {
    if order == [] then picked
    else if order[0] !in keep then Scan(order[1..], keep, limit, picked)
    else if |picked| + 1 >= limit then picked + [order[0]]
    else Scan(order[1..], keep, limit, picked + [order[0]])
  }

  /** What the outbox claims: it walks the whole table in due order. */
  function ScannedBatch(rows: Rows, now: Time, limit: int): seq<Id> {
    Scan(DueOrder(rows, rows.Keys), DueIds(rows, now), limit, [])
  }

  lemma KeptFirst(order: seq<Id>, keep: set<Id>)
    requires order != []
    ensures Kept(order, keep) == (if order[0] in keep then [order[0]] else []) + Kept(order[1..], keep)
  {
    assert [order[0]] + order[1..] == order;
    KeptConcat([order[0]], order[1..], keep);
    KeptOne(order[0], keep);
  }

  lemma AtMostFirst(first: Id, rest: seq<Id>, count: int)
    requires count >= 1
    ensures AtMost([first] + rest, count) == if count == 1 then [first] else [first] + AtMost(rest, count - 1)
  {
  }

  /** The scan picks from the front of what it may claim, and at least one row if there is one. */
  lemma {:induction false} ScanTakesTheFirst(order: seq<Id>, keep: set<Id>, limit: int, picked: seq<Id>)
    requires |picked| == 0 || |picked| < limit
    ensures Scan(order, keep, limit, picked)
         == picked + AtMost(Kept(order, keep), if limit < 1 then 1 else limit - |picked|)
  {
    if order != [] {
      KeptFirst(order, keep);
      if order[0] !in keep {
        ScanTakesTheFirst(order[1..], keep, limit, picked);
      } else {
        AtMostFirst(order[0], Kept(order[1..], keep), if limit < 1 then 1 else limit - |picked|);
        if |picked| + 1 < limit {
          ScanTakesTheFirst(order[1..], keep, limit, picked + [order[0]]);
        }
      }
    }
  }

  /** So the scan claims what filtering, sorting and cutting off would, for a limit of at least one row. */
  lemma ScannedIsSorted(rows: Rows, now: Time, limit: int)
    ensures ScannedBatch(rows, now, limit) == AtMost(DueOrder(rows, DueIds(rows, now)), if limit < 1 then 1 else limit)
  {
    ScanTakesTheFirst(DueOrder(rows, rows.Keys), DueIds(rows, now), limit, []);
    SortThenSkipIsFilterThenSort(rows, rows.Keys, DueIds(rows, now));
  }

  /**
   The two forms agree exactly when the limit is positive, nothing is due, or a negative limit
   happens to leave one row. With limit 0 the outbox still claims one due row.
   */
  lemma FormsAgreeExactlyWhen(rows: Rows, now: Time, limit: int)
    ensures ScannedBatch(rows, now, limit) == SlicedBatch(rows, now, limit)
       <==> limit >= 1 || DueIds(rows, now) == {} || (limit < 0 && |DueIds(rows, now)| + limit == 1)
  {
    ScannedIsSorted(rows, now, limit);
    var due := DueOrder(rows, DueIds(rows, now));
    assert |due| == |DueIds(rows, now)|;
  }

  /** One due row and a limit of 0: the outbox claims it, the other queues do not. */
  lemma FormsDifferAtLimitZero()
    ensures var rows := map[7 := NewRow(0)];
            ScannedBatch(rows, 0, 0) == [7] && SlicedBatch(rows, 0, 0) == []
  {
    var rows := map[7 := NewRow(0)];
    assert DueIds(rows, 0) == {7} && rows.Keys == {7};
    ScannedIsSorted(rows, 0, 0);
    var order := DueOrder(rows, {7});
    assert |order| == 1 && order[0] in order;
  }

  /** No due row is left behind while a later one is claimed. */
  lemma BatchIsAPrefix(rows: Rows, now: Time, count: int, claimed: Id, left: Id)
    requires claimed in AtMost(DueOrder(rows, DueIds(rows, now)), count)
    requires left in DueIds(rows, now) && left !in AtMost(DueOrder(rows, DueIds(rows, now)), count)
    ensures Before(rows, claimed, left)
  {
    var due := DueOrder(rows, DueIds(rows, now));
    DueOrderIsOrdered(rows, DueIds(rows, now));
    var a :| 0 <= a < |AtMost(due, count)| && AtMost(due, count)[a] == claimed;
    assert left in due;
    var b :| 0 <= b < |due| && due[b] == left;
    assert b >= |AtMost(due, count)|;
  }
}
