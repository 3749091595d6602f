/**
 Bringing dead rows back page by page: the filters, the pair cursor, and the operator's run.

 A page is selected after the last position and revived before the next one is fetched, so the
 table changes under the cursor. Paging to the end still visits every matching row that was dead
 at the start exactly once, in order.
 */
module Revival {
  import opened Common
  import opened Queue
  import opened QueueRuns
  import opened QueueStore
  import opened Positions

  // ----- the cursor -----

  datatype Cursor = Cursor(primary: int, id: Id)

  /** Comparing the pair, not the columns separately. */
  predicate IsAfter(primary: int, id: Id, cursor: Cursor) {
    if primary != cursor.primary then primary > cursor.primary else id > cursor.id
  }

  function CompareValues(a: int, b: int): int {
    if a < b then -1 else if a > b then 1 else 0
  }

  function ComparePosition(a: Cursor, b: Cursor): int {
    if CompareValues(a.primary, b.primary) != 0 then CompareValues(a.primary, b.primary) else CompareValues(a.id, b.id)
  }

  /** The cursor, the comparator and the order of the pages are one strict total order. */
  lemma CursorAgreesWithOrder(primary: map<Id, int>, i: Id, j: Id)
    requires i in primary && j in primary
    ensures IsAfter(primary[i], i, Cursor(primary[j], j)) <==> Precedes(primary, j, i)
    ensures ComparePosition(Cursor(primary[j], j), Cursor(primary[i], i)) < 0 <==> Precedes(primary, j, i)
    ensures ComparePosition(Cursor(primary[i], i), Cursor(primary[j], j)) == 0 <==> i == j
    ensures i != j ==> (Precedes(primary, i, j) <==> !Precedes(primary, j, i))
  {
  }

  /** Column by column, a row that lies before the cursor can look as if it came after it. */
  lemma SeparateColumnsAreNotTheOrder()
    ensures exists p1: int, i1: Id, p2: int, i2: Id ::
              (p1 > p2 || i1 > i2) && !IsAfter(p1, i1, Cursor(p2, i2))
  {
    assert (1 > 2 || 5 > 4) && !IsAfter(1, 5, Cursor(2, 4));
  }

  // ----- what a selection admits -----

  datatype Envelope = Envelope(eventType: int, producer: int, entityType: int, entityId: int, occurredAt: int)

  datatype Selection = Selection(
    ids: Option<set<Id>>,
    eventTypes: Option<set<int>>,
    producer: Option<int>,
    entityType: Option<int>,
    entityId: Option<int>,
    from: Option<int>,
    until: Option<int>,
    after: Option<Cursor>,
    limit: int)

  predicate MatchesOutboxRevival(status: Status, id: Id, e: Envelope, s: Selection) {
    && status == Dead
    && (s.ids.Some? ==> id in s.ids.value)
    && (s.eventTypes.Some? ==> e.eventType in s.eventTypes.value)
    && (s.producer.Some? ==> e.producer == s.producer.value)
    && (s.entityType.Some? ==> e.entityType == s.entityType.value)
    && (s.entityId.Some? ==> e.entityId == s.entityId.value)
    && (s.from.Some? ==> e.occurredAt >= s.from.value)
    && (s.until.Some? ==> e.occurredAt <= s.until.value)
    && (s.after.Some? ==> IsAfter(e.occurredAt, id, s.after.value))
  }

  function Primary(envelopes: map<Id, Envelope>): map<Id, int> {
    map i | i in envelopes :: envelopes[i].occurredAt
  }

  function DeadMatching(rows: Rows, envelopes: map<Id, Envelope>, s: Selection): set<Id> {
    set i | i in rows && i in envelopes && MatchesOutboxRevival(rows[i].status, i, envelopes[i], s)
  }

  /** Filter, sort by position, slice. */
  function SelectDead(rows: Rows, envelopes: map<Id, Envelope>, s: Selection): (page: seq<Id>)
    ensures forall i :: i in page ==> i in envelopes && i in DeadMatching(rows, envelopes, s)
  {
    FirstRowsAreRows(InPositionOrder(Primary(envelopes), DeadMatching(rows, envelopes, s)), s.limit);
    AtMost(InPositionOrder(Primary(envelopes), DeadMatching(rows, envelopes, s)), s.limit)
  }

  lemma FirstRowsAreRows(order: seq<Id>, limit: int)
    ensures forall i :: i in AtMost(order, limit) ==> i in order
  {
  }

  function At(envelopes: map<Id, Envelope>, i: Id): Cursor
    requires i in envelopes
  {
    Cursor(envelopes[i].occurredAt, i)
  }

  // ----- one run of the operator's command -----

  function ReviveEach(state: State, page: seq<Id>, refused: set<Id>, now: Time): State {
    if page == [] then state
    else
      var earlier := ReviveEach(state, page[..|page| - 1], refused, now);
      if page[|page| - 1] in refused then earlier else ReviveOne(earlier, page[|page| - 1], now)
  }

  lemma {:induction false} ReviveEachTouchesThePage(state: State, page: seq<Id>, refused: set<Id>, now: Time)
    ensures ReviveEach(state, page, refused, now).rows.Keys == state.rows.Keys
    ensures forall i :: i in state.rows && i !in page ==> ReviveEach(state, page, refused, now).rows[i] == state.rows[i]
    ensures forall i :: i in state.rows && ReviveEach(state, page, refused, now).rows[i].status == Dead ==>
              state.rows[i].status == Dead
  {
    if page != [] {
      ReviveEachTouchesThePage(state, page[..|page| - 1], refused, now);
      assert page == page[..|page| - 1] + [page[|page| - 1]];
    }
  }

  /** Every dead row of the page that was not refused is pending afterwards, its attempts untouched. */
  lemma {:induction false} ReviveEachRevives(state: State, page: seq<Id>, refused: set<Id>, now: Time, i: Id)
    requires i in page && i in state.rows && state.rows[i].status == Dead
    requires forall a, b :: 0 <= a < b < |page| ==> page[a] != page[b]
    ensures i in ReviveEach(state, page, refused, now).rows
    ensures ReviveEach(state, page, refused, now).rows[i] ==
            if i in refused then state.rows[i] else RevivedRow(state.rows[i], now)
  {
    var shorter, last := page[..|page| - 1], page[|page| - 1];
    ReviveEachTouchesThePage(state, shorter, refused, now);
    assert last !in shorter;
    if i != last {
      assert i in shorter;
      ReviveEachRevives(state, shorter, refused, now, i);
    }
  }

  // ----- paging to the end -----

  /** All pages of a scope: select after the last position, revive what is allowed, go on. */
  function Pages(state: State, envelopes: map<Id, Envelope>, s: Selection, refused: set<Id>, now: Time): seq<Id>
    requires s.limit >= 1
    decreases |DeadMatching(state.rows, envelopes, s)|
  {
    var page := SelectDead(state.rows, envelopes, s);
    if page == [] then []
    else
      var last := page[|page| - 1];
      PageLeavesTheRest(state, envelopes, s, refused, now);
      page + Pages(ReviveEach(state, page, refused, now), envelopes, s.(after := Some(At(envelopes, last))), refused,
                   now)
  }

  /** After the last row of a page come exactly the rows the page left. */
  lemma {:induction false} AfterThePage(primary: map<Id, int>, ids: set<Id>, k: nat, i: Id)
    requires ids <= primary.Keys && 0 < k <= |ids| && i in ids
    ensures var order := InPositionOrder(primary, ids);
            i !in order[..k] <==> IsAfter(primary[i], i, Cursor(primary[order[k - 1]], order[k - 1]))
  {
    var order := InPositionOrder(primary, ids);
    PositionOrderIsOrdered(primary, ids);
    var p :| 0 <= p < |order| && order[p] == i;
    CursorAgreesWithOrder(primary, i, order[k - 1]);
    if p < k - 1 {
      assert Precedes(primary, order[p], order[k - 1]);
      assert order[..k][p] == i;
    } else if p > k - 1 {
      assert Precedes(primary, order[k - 1], order[p]);
    } else {
      assert order[..k][p] == i;
    }
  }

  /** What the next page can see: the matching rows of this one, without the ones just visited. */
  lemma PageLeavesTheRest(state: State, envelopes: map<Id, Envelope>, s: Selection, refused: set<Id>, now: Time)
    requires s.limit >= 1 && SelectDead(state.rows, envelopes, s) != []
    ensures var page := SelectDead(state.rows, envelopes, s);
            var after := ReviveEach(state, page, refused, now);
            var next := s.(after := Some(At(envelopes, page[|page| - 1])));
            && page[|page| - 1] in envelopes
            && |DeadMatching(after.rows, envelopes, next)| < |DeadMatching(state.rows, envelopes, s)|
            && InPositionOrder(Primary(envelopes), DeadMatching(state.rows, envelopes, s))
               == page + InPositionOrder(Primary(envelopes), DeadMatching(after.rows, envelopes, next))
  {
    var page := SelectDead(state.rows, envelopes, s);
    NextPageSees(state, envelopes, s, refused, now);
    PageThenRest(Primary(envelopes), DeadMatching(state.rows, envelopes, s), page);
  }

  /** An order is its first rows and then the order of what is left. */
  lemma PageThenRest(primary: map<Id, int>, ids: set<Id>, page: seq<Id>)
    requires ids <= primary.Keys && page <= InPositionOrder(primary, ids) && page != []
    ensures InPositionOrder(primary, ids) == page + InPositionOrder(primary, ids - Positions.Members(page))
    ensures |ids - Positions.Members(page)| < |ids|
  {
    PrefixSplits(InPositionOrder(primary, ids), page);
    RestOfOrder(primary, ids, |page|);
    FewerLeft(primary, ids, page);
  }

  lemma PrefixSplits(order: seq<Id>, page: seq<Id>)
    requires page <= order
    ensures order[..|page|] == page && order == page + order[|page|..]
  {
  }

  lemma FewerLeft(primary: map<Id, int>, ids: set<Id>, page: seq<Id>)
    requires ids <= primary.Keys && page <= InPositionOrder(primary, ids) && page != []
    ensures |ids - Positions.Members(page)| < |ids|
  {
    assert page[0] == InPositionOrder(primary, ids)[0] && page[0] in ids;
    assert ids - Positions.Members(page) <= ids - {page[0]};
    Smaller(ids - Positions.Members(page), ids - {page[0]});
  }

  lemma {:induction false} Smaller(a: set<Id>, b: set<Id>)
    requires a <= b
    ensures |a| <= |b|
  {
    if a != {} {
      var x :| x in a;
      Smaller(a - {x}, b - {x});
    }
  }

  lemma PageIsAPrefix(state: State, envelopes: map<Id, Envelope>, s: Selection)
    requires s.limit >= 1
    ensures var order := InPositionOrder(Primary(envelopes), DeadMatching(state.rows, envelopes, s));
            var page := SelectDead(state.rows, envelopes, s);
            |page| <= |order| && page == order[..|page|]
  {
  }

  lemma NextPageSees(state: State, envelopes: map<Id, Envelope>, s: Selection, refused: set<Id>, now: Time)
    requires s.limit >= 1 && SelectDead(state.rows, envelopes, s) != []
    ensures var page := SelectDead(state.rows, envelopes, s);
            var next := s.(after := Some(At(envelopes, page[|page| - 1])));
            && page <= InPositionOrder(Primary(envelopes), DeadMatching(state.rows, envelopes, s))
            && DeadMatching(ReviveEach(state, page, refused, now).rows, envelopes, next)
               == DeadMatching(state.rows, envelopes, s) - Positions.Members(page)
  {
    var ids := DeadMatching(state.rows, envelopes, s);
    var page := SelectDead(state.rows, envelopes, s);
    var last := At(envelopes, page[|page| - 1]);
    var after := ReviveEach(state, page, refused, now);
    PageIsAPrefix(state, envelopes, s);
    ReviveEachTouchesThePage(state, page, refused, now);
    forall i
      ensures i in DeadMatching(after.rows, envelopes, s.(after := Some(last))) <==> i in ids && i !in page
    {
      if i in state.rows && i in envelopes {
        NextPageSeesOne(state, envelopes, s, refused, now, i);
      }
    }
  }

  lemma NextPageSeesOne(state: State, envelopes: map<Id, Envelope>, s: Selection, refused: set<Id>, now: Time, i: Id)
    requires s.limit >= 1 && SelectDead(state.rows, envelopes, s) != [] && i in state.rows && i in envelopes
    ensures var page := SelectDead(state.rows, envelopes, s);
            var after := ReviveEach(state, page, refused, now);
            var last := At(envelopes, page[|page| - 1]);
            && i in after.rows
            && (MatchesOutboxRevival(after.rows[i].status, i, envelopes[i], s.(after := Some(last)))
                <==> i in DeadMatching(state.rows, envelopes, s) && i !in page)
  {
    var ids, primary := DeadMatching(state.rows, envelopes, s), Primary(envelopes);
    var page := SelectDead(state.rows, envelopes, s);
    var last := At(envelopes, page[|page| - 1]);
    PageIsAPrefix(state, envelopes, s);
    ReviveEachTouchesThePage(state, page, refused, now);
    LaterCursor(ReviveEach(state, page, refused, now).rows[i].status, i, envelopes[i], s, last);
    if i in ids {
      AfterThePage(primary, ids, |page|, i);
    }
  }

  /** Moving the cursor on from an admitted row narrows the selection to what comes after it. */
  lemma LaterCursor(status: Status, id: Id, e: Envelope, s: Selection, last: Cursor)
    requires s.after.Some? ==> IsAfter(last.primary, last.id, s.after.value)
    ensures MatchesOutboxRevival(status, id, e, s.(after := Some(last)))
       <==> MatchesOutboxRevival(status, id, e, s) && IsAfter(e.occurredAt, id, last)
  {
  }

  /**
   Paging to the end visits exactly the matching rows that were dead at the start and lie after
   the given position, each once and in order, whatever was refused on the way.
   */
  lemma {:induction false} PagesVisitEveryDeadRowOnce(state: State, envelopes: map<Id, Envelope>, s: Selection,
      refused: set<Id>, now: Time)
    requires s.limit >= 1
    ensures Pages(state, envelopes, s, refused, now)
            == InPositionOrder(Primary(envelopes), DeadMatching(state.rows, envelopes, s))
    decreases |DeadMatching(state.rows, envelopes, s)|
  {
    var page := SelectDead(state.rows, envelopes, s);
    if page == [] {
      assert InPositionOrder(Primary(envelopes), DeadMatching(state.rows, envelopes, s)) == [];
    } else {
      PageLeavesTheRest(state, envelopes, s, refused, now);
      PagesVisitEveryDeadRowOnce(ReviveEach(state, page, refused, now), envelopes,
                                 s.(after := Some(At(envelopes, page[|page| - 1]))), refused, now);
    }
  }

  /** Each matching dead row is in exactly one place of the visit, and nothing else is visited. */
  lemma EachOnce(state: State, envelopes: map<Id, Envelope>, s: Selection, refused: set<Id>, now: Time, i: Id)
    requires s.limit >= 1
    ensures var visited := Pages(state, envelopes, s, refused, now);
            && (i in visited <==> i in DeadMatching(state.rows, envelopes, s))
            && (forall a, b :: 0 <= a < b < |visited| ==> visited[a] != visited[b])
  {
    PagesVisitEveryDeadRowOnce(state, envelopes, s, refused, now);
    PositionOrderIsOrdered(Primary(envelopes), DeadMatching(state.rows, envelopes, s));
  }

  // ----- what paging to the end leaves -----

  /** The table after all pages of a scope. */
  function AfterPages(state: State, envelopes: map<Id, Envelope>, s: Selection, refused: set<Id>, now: Time): State
    requires s.limit >= 1
    decreases |DeadMatching(state.rows, envelopes, s)|
  {
    var page := SelectDead(state.rows, envelopes, s);
    if page == [] then state
    else
      PageLeavesTheRest(state, envelopes, s, refused, now);
      AfterPages(ReviveEach(state, page, refused, now), envelopes,
                 s.(after := Some(At(envelopes, page[|page| - 1]))), refused, now)
  }

  function RevivedIf(revived: bool, row: Row, now: Time): Row {
    if revived then RevivedRow(row, now) else row
  }

  /** A page does to each row what it should: it revives what it selected and was not refused. */
  lemma PageRevives(state: State, envelopes: map<Id, Envelope>, s: Selection, refused: set<Id>, now: Time, i: Id)
    requires s.limit >= 1 && i in state.rows
    ensures var page := SelectDead(state.rows, envelopes, s);
            var after := ReviveEach(state, page, refused, now);
            i in after.rows && after.rows[i] == RevivedIf(i in page && i !in refused, state.rows[i], now)
  {
    var page := SelectDead(state.rows, envelopes, s);
    PageIsAPrefix(state, envelopes, s);
    PositionOrderIsOrdered(Primary(envelopes), DeadMatching(state.rows, envelopes, s));
    if i in page {
      ReviveEachRevives(state, page, refused, now, i);
    } else {
      ReviveEachTouchesThePage(state, page, refused, now);
    }
  }

  /**
   Paging to the end revives exactly the matching rows that were dead at the start and were not
   refused, each as a revival alone would, and leaves every other row as it was.
   */
  lemma {:induction false} PagingRevivesExactly(state: State, envelopes: map<Id, Envelope>, s: Selection,
      refused: set<Id>, now: Time, i: Id)
    requires s.limit >= 1 && i in state.rows
    ensures var after := AfterPages(state, envelopes, s, refused, now);
            && after.rows.Keys == state.rows.Keys
            && after.rows[i]
               == RevivedIf(i in DeadMatching(state.rows, envelopes, s) && i !in refused, state.rows[i], now)
    decreases |DeadMatching(state.rows, envelopes, s)|
  {
    var page := SelectDead(state.rows, envelopes, s);
    if page == [] {
      assert InPositionOrder(Primary(envelopes), DeadMatching(state.rows, envelopes, s)) == [];
    } else {
      var next := ReviveEach(state, page, refused, now);
      var later := s.(after := Some(At(envelopes, page[|page| - 1])));
      ReviveEachTouchesThePage(state, page, refused, now);
      PageLeavesTheRest(state, envelopes, s, refused, now);
      PageRevives(state, envelopes, s, refused, now, i);
      NextPageSees(state, envelopes, s, refused, now);
      PagingRevivesExactly(next, envelopes, later, refused, now, i);
    }
  }

  // ----- the run itself -----

  datatype RevivalReport = RevivalReport(revived: int, skippedNotDead: int, refused: int, resumeAfter: Option<Cursor>)

  /** `QueueRevivalService.run` without its journal: one page, one row at a time. */
  method RunRevival(queue: LeasedQueue, envelopes: map<Id, Envelope>, s: Selection, refused: set<Id>, now: Time)
    returns (report: RevivalReport)
    modifies queue
    ensures queue.State() == ReviveEach(old(queue.State()), SelectDead(old(queue.rows), envelopes, s), refused, now)
    ensures var page := SelectDead(old(queue.rows), envelopes, s);
            && report.refused == |Kept(page, refused)| && report.revived == |page| - report.refused
            && report.skippedNotDead == 0
            && (forall i :: i in page ==> i in envelopes)
            && report.resumeAfter == if page == [] then s.after else Some(At(envelopes, page[|page| - 1]))
  {
    var page := SelectDead(queue.rows, envelopes, s);
    PositionOrderIsOrdered(Primary(envelopes), DeadMatching(queue.rows, envelopes, s));
    report := ReviveList(queue, envelopes, page, s.after, refused, now);
  }

  /** Each candidate is refused or revived, and the cursor moves past it either way. */
  method ReviveList(queue: LeasedQueue, envelopes: map<Id, Envelope>, page: seq<Id>, start: Option<Cursor>,
      refused: set<Id>, now: Time)
    returns (report: RevivalReport)
    requires forall i :: i in page ==> i in envelopes && i in queue.rows && queue.rows[i].status == Dead
    requires Distinct(page)
    modifies queue
    ensures queue.State() == ReviveEach(old(queue.State()), page, refused, now)
    ensures report.refused == |Kept(page, refused)| && report.revived == |page| - report.refused
    ensures report.skippedNotDead == 0
    ensures report.resumeAfter == if page == [] then start else Some(At(envelopes, page[|page| - 1]))
  {
    ghost var before := queue.State();
    report := RevivalReport(0, 0, 0, start);
    for n := 0 to |page|
      invariant queue.State() == ReviveEach(before, page[..n], refused, now)
      invariant report.refused == |Kept(page[..n], refused)| && report.revived == n - report.refused
      invariant report.skippedNotDead == 0
      invariant report.resumeAfter == if n == 0 then start else Some(At(envelopes, page[n - 1]))
    {
      NextCandidate(before, page, n, refused, now);
      assert page[..n + 1][..n] == page[..n];
      if page[n] in refused {
        report := report.(refused := report.refused + 1);
      } else {
        var applied := queue.Revive(page[n], now);
        if applied {
          report := report.(revived := report.revived + 1);
        } else {
          report := report.(skippedNotDead := report.skippedNotDead + 1);
        }
      }
      report := report.(resumeAfter := Some(At(envelopes, page[n])));
    }
    assert page[..|page|] == page;
  }

  lemma NextCandidate(state: State, page: seq<Id>, n: nat, refused: set<Id>, now: Time)
    requires n < |page| && Distinct(page) && forall i :: i in page ==> i in state.rows && state.rows[i].status == Dead
    ensures var mid := ReviveEach(state, page[..n], refused, now);
            && page[n] in page && page[n] in mid.rows && mid.rows[page[n]].status == Dead
            && ReviveEach(state, page[..n + 1], refused, now) ==
                if page[n] in refused then mid else ReviveOne(mid, page[n], now)
  {
    assert page[..n + 1][..n] == page[..n] && page[n] !in page[..n];
    ReviveEachTouchesThePage(state, page[..n], refused, now);
  }
}
