/** Rows ordered by a value and then by their own identifier, the order every listing and cursor uses. */
module Positions {

  type Key = nat

  predicate Precedes(primary: map<Key, int>, i: Key, j: Key)
    requires i in primary && j in primary
  {
    primary[i] < primary[j] || (primary[i] == primary[j] && i < j)
  }

  lemma {:induction false} EarliestExists(primary: map<Key, int>, ids: set<Key>)
    requires ids != {} && ids <= primary.Keys
    ensures exists i :: i in ids && forall j :: j in ids && j != i ==> Precedes(primary, i, j)
    decreases |ids|
  {
    var k :| k in ids;
    if ids - {k} == {} {
      assert ids == {k};
    } else {
      EarliestExists(primary, ids - {k});
      var i :| i in ids - {k} && forall j :: j in ids - {k} && j != i ==> Precedes(primary, i, j);
      if Precedes(primary, i, k) {
        assert forall j :: j in ids && j != i ==> Precedes(primary, i, j);
      } else {
        forall j | j in ids && j != k
          ensures Precedes(primary, k, j)
        {
          assert j != i ==> Precedes(primary, i, j);
        }
      }
    }
  }

  function Earliest(primary: map<Key, int>, ids: set<Key>): (earliest: Key)
    requires ids != {} && ids <= primary.Keys
    ensures earliest in ids
    ensures forall j :: j in ids && j != earliest ==> Precedes(primary, earliest, j)
  {
    EarliestExists(primary, ids);
    var i :| i in ids && forall j :: j in ids && j != i ==> Precedes(primary, i, j);
    i
  }

  function InPositionOrder(primary: map<Key, int>, ids: set<Key>): (order: seq<Key>)
    requires ids <= primary.Keys
    ensures forall i :: i in order <==> i in ids
    ensures |order| == |ids|
    decreases |ids|
  {
    if ids == {} then []
    else
      var earliest := Earliest(primary, ids);
      [earliest] + InPositionOrder(primary, ids - {earliest})
  }

  predicate Ascending(primary: map<Key, int>, order: seq<Key>)
    requires forall i :: i in order ==> i in primary
  {
    forall a, b :: 0 <= a < b < |order| ==> Precedes(primary, order[a], order[b]) && order[a] != order[b]
  }

  lemma {:induction false} PositionOrderIsOrdered(primary: map<Key, int>, ids: set<Key>)
    requires ids <= primary.Keys
    ensures Ascending(primary, InPositionOrder(primary, ids))
    decreases |ids|
  {
    if ids != {} {
      var earliest := Earliest(primary, ids);
      PositionOrderIsOrdered(primary, ids - {earliest});
      var rest := InPositionOrder(primary, ids - {earliest});
      forall b | 0 <= b < |rest|
        ensures Precedes(primary, earliest, rest[b]) && earliest != rest[b]
      {
        assert rest[b] in rest;
      }
      assert InPositionOrder(primary, ids) == [earliest] + rest;
    }
  }

  lemma FirstIsEarliest(primary: map<Key, int>, order: seq<Key>, ids: set<Key>)
    requires ids <= primary.Keys && (forall i :: i in order <==> i in ids) && order != []
    requires Ascending(primary, order)
    ensures ids != {} && order[0] == Earliest(primary, ids)
  {
    assert order[0] in ids;
    var earliest := Earliest(primary, ids);
    var p :| 0 <= p < |order| && order[p] == earliest;
  }

  lemma RestHasTheRest(primary: map<Key, int>, order: seq<Key>, ids: set<Key>)
    requires ids <= primary.Keys && (forall i :: i in order <==> i in ids) && order != []
    requires Ascending(primary, order)
    ensures forall i :: i in order[1..] <==> i in ids - {order[0]}
    ensures Ascending(primary, order[1..])
  {
    SplitMembers(order, 1);
    assert order[..1] == [order[0]];
  }

  lemma FirstThenRest(primary: map<Key, int>, ids: set<Key>, first: Key)
    requires ids <= primary.Keys && ids != {} && first == Earliest(primary, ids)
    ensures InPositionOrder(primary, ids) == [first] + InPositionOrder(primary, ids - {first})
  {
  }

  /** There is one way to put a set of rows in order. */
  lemma {:induction false} OrderIsUnique(primary: map<Key, int>, order: seq<Key>, ids: set<Key>)
    requires ids <= primary.Keys && forall i :: i in order <==> i in ids
    requires Ascending(primary, order)
    ensures order == InPositionOrder(primary, ids)
    decreases |order|
  {
    if order == [] {
      assert ids == {};
    } else {
      var first, rest := order[0], order[1..];
      FirstIsEarliest(primary, order, ids);
      RestHasTheRest(primary, order, ids);
      OrderIsUnique(primary, rest, ids - {first});
      FirstThenRest(primary, ids, first);
      assert order == [first] + rest;
    }
  }

  /** What is left after the first rows of an order is the order of what is left. */
  lemma RestOfOrder(primary: map<Key, int>, ids: set<Key>, k: nat)
    requires ids <= primary.Keys && k <= |ids|
    ensures var order := InPositionOrder(primary, ids);
            order[k..] == InPositionOrder(primary, ids - Members(order[..k]))
  {
    var order := InPositionOrder(primary, ids);
    PositionOrderIsOrdered(primary, ids);
    RestIsAscending(primary, order, k);
    SplitMembers(order, k);
    OrderIsUnique(primary, order[k..], ids - Members(order[..k]));
  }

  lemma RestIsAscending(primary: map<Key, int>, order: seq<Key>, k: nat)
    requires k <= |order| && (forall i :: i in order ==> i in primary) && Ascending(primary, order)
    ensures forall i :: i in order[k..] ==> i in primary
    ensures Ascending(primary, order[k..])
    ensures forall a, b :: 0 <= a < b < |order| ==> order[a] != order[b]
  {
  }

  lemma SplitMembers(order: seq<Key>, k: nat)
    requires k <= |order| && forall a, b :: 0 <= a < b < |order| ==> order[a] != order[b]
    ensures forall i :: i in order[k..] <==> i in order && i !in order[..k]
  {
    assert order == order[..k] + order[k..];
    forall a, b | 0 <= a < k && 0 <= b < |order| - k
      ensures order[..k][a] != order[k..][b]
    {
      assert order[a] != order[k + b];
    }
  }

  function Members(page: seq<Key>): set<Key> {
    set i | i in page
  }
}
