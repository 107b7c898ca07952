/** The walk over a tool body before it is copied: it must find every mapping proxy, also through cycles. */
module BodyWalk {
  import opened Basics

  type Id = nat

  /** What an object refers to: values of mappings, items of collections, fields, attributes and slots alike. */
  datatype Node = Node(isProxy: bool, children: seq<Id>)

  type Heap = map<Id, Node>

  /** The graph is finite, and every reference leads somewhere in it. */
  predicate Closed(heap: Heap) {
    forall x | x in heap :: forall i | 0 <= i < |heap[x].children| :: heap[x].children[i] in heap
  }

  predicate Refers(heap: Heap, x: Id, y: Id) {
    x in heap && y in heap[x].children
  }

  predicate IsPath(heap: Heap, path: seq<Id>) {
    path != [] && forall i | 0 <= i < |path| - 1 :: Refers(heap, path[i], path[i + 1])
  }

  ghost predicate Leads(heap: Heap, path: seq<Id>, x: Id, y: Id) {
    IsPath(heap, path) && path[0] == x && Last(path) == y
  }

  ghost predicate Reachable(heap: Heap, root: Id, x: Id) {
    exists path: seq<Id> :: Leads(heap, path, root, x)
  }

  lemma ReachableSelf(heap: Heap, root: Id)
    ensures Reachable(heap, root, root)
  {
    assert Leads(heap, [root], root, root);
  }

  lemma ReachableNext(heap: Heap, root: Id, x: Id, y: Id)
    requires Reachable(heap, root, x) && Refers(heap, x, y)
    ensures Reachable(heap, root, y)
  {
    var path: seq<Id> :| Leads(heap, path, root, x);
    var longer := path + [y];
    forall i | 0 <= i < |longer| - 1 ensures Refers(heap, longer[i], longer[i + 1]) {
      if i < |path| - 1 {
        assert Refers(heap, path[i], path[i + 1]);
      }
    }
    assert Leads(heap, longer, root, y);
  }

  /** A set that holds the root and, with an object, all it refers to, holds everything reachable. */
  lemma {:induction false} ClosedSetHolds(heap: Heap, seen: set<Id>, path: seq<Id>)
    requires IsPath(heap, path) && path[0] in seen
    requires forall x, y | x in seen && Refers(heap, x, y) :: y in seen
    ensures Last(path) in seen
  {
    if |path| > 1 {
      var front := Front(path);
      forall i | 0 <= i < |front| - 1 ensures Refers(heap, front[i], front[i + 1]) {
        assert Refers(heap, path[i], path[i + 1]);
      }
      ClosedSetHolds(heap, seen, front);
      assert Refers(heap, path[|path| - 2], path[|path| - 1]);
    }
  }

  /** Nothing that a seen object refers to is forgotten. */
  ghost predicate Covered(heap: Heap, seen: set<Id>, pending: seq<Id>) {
    forall x, y | x in seen && Refers(heap, x, y) :: y in seen || y in pending
  }

  ghost predicate AllReachable(heap: Heap, root: Id, seen: set<Id>, pending: seq<Id>) {
    (forall x | x in seen :: Reachable(heap, root, x)) && (forall x | x in pending :: Reachable(heap, root, x))
  }

  lemma VisitKeeps(heap: Heap, root: Id, seen: set<Id>, pending: seq<Id>)
    requires pending != [] && Last(pending) in heap
    requires Covered(heap, seen, pending) && AllReachable(heap, root, seen, pending)
    ensures var x := Last(pending);
            var rest := Front(pending) + heap[x].children;
            Covered(heap, seen + {x}, rest) && AllReachable(heap, root, seen + {x}, rest)
  {
    var x := Last(pending);
    assert pending == Front(pending) + [x];
    forall y | y in heap[x].children ensures Reachable(heap, root, y) {
      ReachableNext(heap, root, x, y);
    }
  }

  lemma SkipKeeps(heap: Heap, root: Id, seen: set<Id>, pending: seq<Id>)
    requires pending != [] && Last(pending) in seen
    requires Covered(heap, seen, pending) && AllReachable(heap, root, seen, pending)
    ensures Covered(heap, seen, Front(pending)) && AllReachable(heap, root, seen, Front(pending))
  {
    assert pending == Front(pending) + [Last(pending)];
  }

  /** The walk ends on any finite graph, and its memo holds exactly the proxies reachable from the body. */
  method CollectProxies(heap: Heap, body: Id) returns (memo: set<Id>)
    requires Closed(heap) && body in heap
    ensures forall x :: x in memo <==> x in heap && heap[x].isProxy && Reachable(heap, body, x)
  {
    memo := {};
    var seen: set<Id> := {};
    var pending := [body];
    ReachableSelf(heap, body);
    while pending != []
      invariant seen <= heap.Keys && forall x | x in pending :: x in heap
      invariant body in seen || body in pending
      invariant Covered(heap, seen, pending) && AllReachable(heap, body, seen, pending)
      invariant forall x :: x in memo <==> x in seen && heap[x].isProxy
      decreases heap.Keys - seen, |pending|
    {
      var value := Last(pending);
      assert pending == Front(pending) + [value];
      if value in seen {
        SkipKeeps(heap, body, seen, pending);
        pending := Front(pending);
        continue;
      }
      VisitKeeps(heap, body, seen, pending);
      seen := seen + {value};
      if heap[value].isProxy {
        memo := memo + {value};
      }
      pending := Front(pending) + heap[value].children;
    }
    forall x | Reachable(heap, body, x) ensures x in seen {
      var path: seq<Id> :| Leads(heap, path, body, x);
      ClosedSetHolds(heap, seen, path);
    }
  }
}
