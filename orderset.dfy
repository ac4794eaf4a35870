// The client's set of orders for the current turn: a map from order id to
// order, searched in id order, grown by IssueOrder, shrunk by RescindOrder
// and cleared by Reset.

module Orders {
  import opened Universe

  /**
   * What the set needs of an order: the empire that issued it, its kind,
   * and whether its Undo would succeed (a rescindable order).
   */
  datatype Order = Order(empireId: int, kind: string, undoable: bool)

  type OrderMap = map<int, Order>

  // ----- ascending key order -----

  /** In a strictly increasing sequence the head is the smallest element and the tail holds all the others. */
  lemma IncreasingHead(s: seq<int>, x: int)
    requires StrictlyIncreasing(s) && x in s
    ensures s[0] <= x
    ensures x in s[1..] <==> x != s[0]
  {
    var i :| 0 <= i < |s| && s[i] == x;
    if i > 0 {
      assert s[1..][i - 1] == x;
    }
  }

  /** Two strictly increasing sequences with the same elements are the same sequence. */
  lemma {:induction false} SortedUnique(a: seq<int>, b: seq<int>)
    requires StrictlyIncreasing(a) && StrictlyIncreasing(b)
    requires forall x :: x in a <==> x in b
    ensures a == b
    decreases |a|
  {
    assert b != [] ==> b[0] in b && b[0] in a;
    if a != [] {
      assert a[0] in a;
      assert a[0] in b;
      IncreasingHead(b, a[0]);
      assert b[0] in a;
      IncreasingHead(a, b[0]);
      forall x
        ensures x in a[1..] <==> x in b[1..]
      {
        if x in a {
          IncreasingHead(a, x);
          IncreasingHead(b, x);
        } else {
          assert x !in a[1..] && x !in b[1..];
        }
      }
      SortedUnique(a[1..], b[1..]);
    }
  }

  /** Adding a key above every key puts it last in key order and leaves the others as they were. */
  lemma SortedIdsAppend(s: set<int>, x: int)
    requires forall k :: k in s ==> k < x
    ensures SortedIds(s + {x}) == SortedIds(s) + [x]
  {
    var r := SortedIds(s) + [x];
    assert StrictlyIncreasing(r) by {
      forall i, j | 0 <= i < j < |r|
        ensures r[i] < r[j]
      {
        if j == |r| - 1 {
          assert r[i] in SortedIds(s);
        }
      }
    }
    SortedUnique(SortedIds(s + {x}), r);
  }

  // ----- the specification of FindOrders -----

  /** The orders of `m` under the ids of `ids`, in the order of `ids`, that satisfy `pred`. */
  function Matching(ids: seq<int>, m: OrderMap, pred: Order -> bool): (r: seq<Order>)
    ensures |r| <= |ids|
    ensures forall k :: 0 <= k < |r| ==> pred(r[k])
    decreases |ids|
  {
    if ids == [] then []
    else
      var rest := Matching(ids[..|ids| - 1], m, pred);
      var id := ids[|ids| - 1];
      if id in m && pred(m[id]) then rest + [m[id]] else rest
  }

  /** One more id at the end adds its order when it is stored and matches. */
  lemma MatchingSnoc(ids: seq<int>, i: nat, m: OrderMap, pred: Order -> bool)
    requires i < |ids|
    ensures Matching(ids[..i + 1], m, pred)
         == Matching(ids[..i], m, pred) + (if ids[i] in m && pred(m[ids[i]]) then [m[ids[i]]] else [])
  {
    assert ids[..i + 1][..i] == ids[..i];
  }

  /** The ids behind Matching. */
  function MatchingIds(ids: seq<int>, m: OrderMap, pred: Order -> bool): (r: seq<int>)
    ensures |r| <= |ids|
    decreases |ids|
  {
    if ids == [] then []
    else
      var rest := MatchingIds(ids[..|ids| - 1], m, pred);
      var id := ids[|ids| - 1];
      if id in m && pred(m[id]) then rest + [id] else rest
  }

  /** Each matching order is the order stored under the matching id at the same position. */
  lemma {:induction false} MatchingUnderIds(ids: seq<int>, m: OrderMap, pred: Order -> bool)
    ensures |MatchingIds(ids, m, pred)| == |Matching(ids, m, pred)|
    ensures forall k :: 0 <= k < |MatchingIds(ids, m, pred)| ==>
              MatchingIds(ids, m, pred)[k] in m && Matching(ids, m, pred)[k] == m[MatchingIds(ids, m, pred)[k]]
    decreases |ids|
  {
    if ids != [] {
      MatchingUnderIds(ids[..|ids| - 1], m, pred);
    }
  }

  /** An id matches exactly when it is one of `ids`, is stored, and its order satisfies `pred`. */
  lemma {:induction false} MatchingIdsMembers(ids: seq<int>, m: OrderMap, pred: Order -> bool)
    ensures forall x :: x in MatchingIds(ids, m, pred) <==> x in ids && x in m && pred(m[x])
    decreases |ids|
  {
    if ids != [] {
      var front := ids[..|ids| - 1];
      MatchingIdsMembers(front, m, pred);
      assert ids == front + [ids[|ids| - 1]];
    }
  }

  /** Over ids in ascending order the matching ids are ascending too. */
  lemma {:induction false} MatchingIdsIncreasing(ids: seq<int>, m: OrderMap, pred: Order -> bool)
    requires StrictlyIncreasing(ids)
    ensures StrictlyIncreasing(MatchingIds(ids, m, pred))
    decreases |ids|
  {
    if ids != [] {
      var front := ids[..|ids| - 1];
      var id := ids[|ids| - 1];
      assert StrictlyIncreasing(front);
      MatchingIdsIncreasing(front, m, pred);
      MatchingIdsMembers(front, m, pred);
      var rest := MatchingIds(front, m, pred);
      if id in m && pred(m[id]) {
        var r := rest + [id];
        forall i, j | 0 <= i < j < |r|
          ensures r[i] < r[j]
        {
          if j == |r| - 1 {
            assert r[i] in rest;
            var p :| 0 <= p < |front| && front[p] == r[i];
            assert ids[p] == r[i];
          }
        }
      }
    }
  }

  /** Matching looks only at the orders stored under `ids`. */
  lemma {:induction false} MatchingFrame(ids: seq<int>, m: OrderMap, m2: OrderMap, pred: Order -> bool)
    requires forall x :: x in ids ==> (x in m <==> x in m2)
    requires forall x :: x in ids && x in m ==> m[x] == m2[x]
    ensures Matching(ids, m, pred) == Matching(ids, m2, pred)
    decreases |ids|
  {
    if ids != [] {
      var front := ids[..|ids| - 1];
      assert forall x :: x in front ==> x in ids;
      MatchingFrame(front, m, m2, pred);
      assert ids[|ids| - 1] in ids;
    }
  }

  /** FindOrders yields exactly the stored orders that satisfy the predicate. */
  lemma FindOrdersExact(m: OrderMap, pred: Order -> bool, o: Order)
    ensures o in Matching(SortedIds(m.Keys), m, pred) <==> exists id :: id in m && m[id] == o && pred(o)
  {
    var ids := SortedIds(m.Keys);
    MatchingUnderIds(ids, m, pred);
    MatchingIdsMembers(ids, m, pred);
    var r := Matching(ids, m, pred);
    var rid := MatchingIds(ids, m, pred);
    if o in r {
      var k :| 0 <= k < |r| && r[k] == o;
      assert rid[k] in rid;
    }
    if exists id :: id in m && m[id] == o && pred(o) {
      var id :| id in m && m[id] == o && pred(o);
      assert id in rid;
      var k :| 0 <= k < |rid| && rid[k] == id;
      assert r[k] == o;
    }
  }

  /** FindOrders yields the orders in ascending id order: they sit under ascending ids. */
  lemma FindOrdersInIdOrder(m: OrderMap, pred: Order -> bool)
    ensures StrictlyIncreasing(MatchingIds(SortedIds(m.Keys), m, pred))
    ensures |MatchingIds(SortedIds(m.Keys), m, pred)| == |Matching(SortedIds(m.Keys), m, pred)|
    ensures forall k :: 0 <= k < |Matching(SortedIds(m.Keys), m, pred)| ==>
              MatchingIds(SortedIds(m.Keys), m, pred)[k] in m
              && Matching(SortedIds(m.Keys), m, pred)[k] == m[MatchingIds(SortedIds(m.Keys), m, pred)[k]]
  {
    MatchingIdsIncreasing(SortedIds(m.Keys), m, pred);
    MatchingUnderIds(SortedIds(m.Keys), m, pred);
  }

  // ----- the mutators on values -----

  /** The id IssueOrder gives: one past the largest id in the set, or 0 for an empty set. */
  function NextOrderId(m: OrderMap): (r: int)
    ensures r !in m
    ensures forall k :: k in m ==> k < r
    ensures m.Keys == {} ==> r == 0
    ensures m.Keys != {} ==> r - 1 in m
  {
    var ks := SortedIds(m.Keys);
    if ks == [] then 0
    else
      assert forall i :: 0 <= i < |ks| - 1 ==> ks[i] < ks[|ks| - 1];
      ks[|ks| - 1] + 1
  }

  /** The set after IssueOrder(o). */
  function Issued(m: OrderMap, o: Order): (r: OrderMap)
    ensures r.Keys == m.Keys + {NextOrderId(m)}
    ensures r[NextOrderId(m)] == o
    ensures forall k :: k in m ==> r[k] == m[k]
  {
    m[NextOrderId(m) := o]
  }

  /** The set after RescindOrder(id): the order is gone only when it exists and its Undo succeeds. */
  function Rescinded(m: OrderMap, id: int): (r: OrderMap)
    ensures id in m && m[id].undoable ==> r.Keys == m.Keys - {id}
    ensures !(id in m && m[id].undoable) ==> r == m
    ensures forall k :: k in r ==> k in m && r[k] == m[k]
  {
    if id in m && m[id].undoable then m - {id} else m
  }

  /** Storing under an absent key and removing that key again gives back the map. */
  lemma RemoveAdded(m: OrderMap, id: int, o: Order)
    requires id !in m
    ensures m[id := o] - {id} == m
  {
    var r := m[id := o] - {id};
    assert r.Keys == m.Keys;
    assert forall k :: k in r ==> r[k] == m[k];
  }

  /** Issuing a rescindable order and rescinding it by the returned id gives back the set. */
  lemma RescindIssued(m: OrderMap, o: Order)
    requires o.undoable
    ensures Rescinded(Issued(m, o), NextOrderId(m)) == m
  {
    var id := NextOrderId(m);
    assert Issued(m, o) == m[id := o];
    assert Rescinded(m[id := o], id) == m[id := o] - {id};
    assert m[id := o] - {id} == m by {
      RemoveAdded(m, id, o);
    }
  }

  /** An order that cannot be undone stays in the set when it is rescinded. */
  lemma RescindKeepsUndoable(m: OrderMap, o: Order)
    requires !o.undoable
    ensures Rescinded(Issued(m, o), NextOrderId(m)) == Issued(m, o)
  {
  }

  /** Successive issues get successive ids. */
  lemma IssuedIdsAscend(m: OrderMap, o: Order)
    ensures NextOrderId(Issued(m, o)) == NextOrderId(m) + 1
  {
    SortedIdsAppend(m.Keys, NextOrderId(m));
  }

  /** A new id at the end, stored with order `o`, adds `o` when it matches. */
  lemma MatchingExtend(ids: seq<int>, m: OrderMap, id: int, o: Order, pred: Order -> bool)
    requires id !in ids
    ensures Matching(ids + [id], m[id := o], pred) == Matching(ids, m, pred) + (if pred(o) then [o] else [])
  {
    var all := ids + [id];
    assert all[..|all| - 1] == ids;
    MatchingFrame(ids, m, m[id := o], pred);
  }

  /** After IssueOrder(o), FindOrders yields what it yielded before, then `o` if it matches. */
  lemma FindAfterIssue(m: OrderMap, o: Order, pred: Order -> bool)
    ensures Matching(SortedIds(Issued(m, o).Keys), Issued(m, o), pred)
         == Matching(SortedIds(m.Keys), m, pred) + (if pred(o) then [o] else [])
  {
    var id := NextOrderId(m);
    var ids := SortedIds(m.Keys);
    assert Issued(m, o) == m[id := o];
    assert SortedIds(m[id := o].Keys) == ids + [id] by {
      assert m[id := o].Keys == m.Keys + {id};
      SortedIdsAppend(m.Keys, id);
    }
    assert Matching(ids + [id], m[id := o], pred) == Matching(ids, m, pred) + (if pred(o) then [o] else []) by {
      MatchingExtend(ids, m, id, o, pred);
    }
  }

  // ----- the object -----

  class OrderSet {
    /** m_orders: the orders by id. */
    var orders: OrderMap

    constructor()
      ensures orders == map[]
    {
      orders := map[];
    }

    /** ExamineOrder: the order with that id, or nothing when there is none. */
    function ExamineOrder(id: int): (r: Option<Order>)
      reads this
      ensures r.Some? <==> id in orders
      ensures r.Some? ==> r.value == orders[id]
    {
      if id in orders then Some(orders[id]) else None
    }

    /** FindOrders: the loop over the map in id order, keeping the orders `pred` accepts. */
    method FindOrders(pred: Order -> bool) returns (r: seq<Order>)
      ensures r == Matching(SortedIds(orders.Keys), orders, pred)
    {
      var ids := SortedIds(orders.Keys);
      r := [];
      var i := 0;
      while i < |ids|
        invariant 0 <= i <= |ids|
        invariant r == Matching(ids[..i], orders, pred)
      {
        MatchingSnoc(ids, i, orders, pred);
        var o := orders[ids[i]];
        if pred(o) {
          r := r + [o];
        }
        i := i + 1;
      }
      assert ids[..i] == ids;
    }

    /** IssueOrder: the order is stored under a fresh id, which is returned. */
    method IssueOrder(o: Order) returns (id: int)
      modifies this
      ensures id !in old(orders) && id == NextOrderId(old(orders))
      ensures orders == Issued(old(orders), o)
      ensures ExamineOrder(id) == Some(o)
    {
      id := NextOrderId(orders);
      orders := orders[id := o];
    }

    /** RescindOrder: true, and the order removed, exactly when it exists and can be undone. */
    method RescindOrder(id: int) returns (ok: bool)
      modifies this
      ensures ok <==> id in old(orders) && old(orders)[id].undoable
      ensures orders == Rescinded(old(orders), id)
      ensures ok ==> ExamineOrder(id).None?
    {
      ok := false;
      if id in orders && orders[id].undoable {
        orders := orders - {id};
        ok := true;
      }
    }

    /** Reset: no orders are left. */
    method Reset()
      modifies this
      ensures orders == map[]
    {
      orders := map[];
    }
  }
}
