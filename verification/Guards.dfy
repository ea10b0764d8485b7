/** The request-body guard of the API client (packages/api-client/src/guards.ts): a depth-first
    search of an object graph, possibly shared or cyclic, for a server-owned key. */
module Guards {
  import opened Vocabulary

  /** A JavaScript value: null and the primitives hold nothing; the rest are references. */
  datatype Value = Primitive | Ref(id: Id)

  datatype Node = Array(items: seq<Value>) | Object(entries: seq<(string, Value)>)

  type Heap = map<Id, Node>

  predicate ServerOwned(key: string) {
    key == "tenant_id" || key == "provenance"
  }

  /** The values that the search descends into, in order. */
  function Children(n: Node): (r: seq<Value>)
    ensures n.Object? ==> |r| == |n.entries| && forall k | 0 <= k < |r| :: r[k] == n.entries[k].1
  {
    match n
    case Array(items) => items
    case Object(entries) => seq(|entries|, k requires 0 <= k < |entries| => entries[k].1)
  }

  predicate Owns(n: Node, key: string) {
    n.Object? && exists k | 0 <= k < |n.entries| :: n.entries[k].0 == key
  }

  predicate Clean(n: Node) {
    n.Object? ==> forall k | 0 <= k < |n.entries| :: !ServerOwned(n.entries[k].0)
  }

  /** No dangling references. */
  predicate WellFormed(heap: Heap) {
    forall n | n in heap :: Known(heap.Keys, Children(heap[n]))
  }

  predicate Known(ids: set<Id>, values: seq<Value>) {
    forall k | 0 <= k < |values| && values[k].Ref? :: values[k].id in ids
  }

  /** The array or object `m` holds `n`. */
  predicate Edge(heap: Heap, m: Id, n: Id) {
    m in heap && match heap[m]
      case Array(items) => Ref(n) in items
      case Object(entries) => exists k | 0 <= k < |entries| :: entries[k].1 == Ref(n)
  }

  /** The search descends along every edge. */
  lemma EdgeIsChild(heap: Heap, m: Id, n: Id)
    ensures Edge(heap, m, n) <==> m in heap && Ref(n) in Children(heap[m])
  {
    if m in heap && heap[m].Object? {
      var entries, cs := heap[m].entries, Children(heap[m]);
      if k :| 0 <= k < |entries| && entries[k].1 == Ref(n) { assert cs[k] == Ref(n); }
    }
  }

  predicate IsPath(heap: Heap, p: seq<Id>) {
    |p| > 0 && p[0] in heap && forall k | 0 <= k < |p| - 1 :: Edge(heap, p[k], p[k + 1])
  }

  /** `n` is reachable from `m` through array elements and object fields. */
  ghost predicate Reaches(heap: Heap, m: Id, n: Id) {
    exists p :: IsPath(heap, p) && p[0] == m && p[|p| - 1] == n
  }

  lemma ReachesItself(heap: Heap, n: Id)
    requires n in heap
    ensures Reaches(heap, n, n)
  {
    assert IsPath(heap, [n]);
  }

  lemma ReachesThrough(heap: Heap, m: Id, c: Id, n: Id)
    requires Edge(heap, m, c) && Reaches(heap, c, n)
    ensures Reaches(heap, m, n)
  {
    var p :| IsPath(heap, p) && p[0] == c && p[|p| - 1] == n;
    var q := [m] + p;
    forall k | 0 <= k < |q| - 1 ensures Edge(heap, q[k], q[k + 1]) {
      if k > 0 { assert Edge(heap, p[k - 1], p[k]); }
    }
    assert IsPath(heap, q);
  }

  /** A set of nodes that every edge stays inside holds everything reachable from it. */
  lemma {:induction false} ClosedUnderEdges(heap: Heap, s: set<Id>, p: seq<Id>)
    requires IsPath(heap, p) && p[0] in s && s <= heap.Keys
    requires forall m | m in s :: Known(s, Children(heap[m]))
    ensures p[|p| - 1] in s
  {
    hide Edge, Children;
    if |p| > 1 {
      var front := p[..|p| - 1];
      assert forall k | 0 <= k < |front| - 1 :: Edge(heap, front[k], front[k + 1]) by {
        forall k | 0 <= k < |front| - 1 ensures Edge(heap, front[k], front[k + 1]) { assert Edge(heap, p[k], p[k + 1]); }
      }
      ClosedUnderEdges(heap, s, front);
      var last, next := p[|p| - 2], p[|p| - 1];
      assert Edge(heap, last, next);
      EdgeIsChild(heap, last, next);
      var k :| 0 <= k < |Children(heap[last])| && Children(heap[last])[k] == Ref(next);
      assert Known(s, Children(heap[last]));
    }
  }

  /** What a search finds: a reachable object that owns this forbidden key. */
  ghost predicate Witness(heap: Heap, root: Id, key: string) {
    ServerOwned(key) && exists n | n in heap :: Reaches(heap, root, n) && Owns(heap[n], key)
  }

  lemma WitnessThrough(heap: Heap, m: Id, c: Id, key: string)
    requires Edge(heap, m, c) && Witness(heap, c, key)
    ensures Witness(heap, m, key)
  {
    var n :| n in heap && Reaches(heap, c, n) && Owns(heap[n], key);
    ReachesThrough(heap, m, c, n);
  }

  /** The state shared by the recursive calls of one search. */
  class Search {
    var seen: set<Id>

    constructor ()
      ensures seen == {}
    {
      seen := {};
    }

    /** A key that is found belongs to an object the argument reaches. If none is found, everything
        newly seen is clean and leads only to nodes seen. */
    method FindForbiddenKey(heap: Heap, value: Value) returns (found: Option<string>)
      requires WellFormed(heap) && seen <= heap.Keys && (value.Ref? ==> value.id in heap)
      modifies this
      ensures old(seen) <= seen <= heap.Keys
      ensures found.Some? ==> value.Ref? && Witness(heap, value.id, found.value)
      ensures found.None? && value.Ref? ==> value.id in seen
      ensures found.None? ==> forall n | n in seen - old(seen) :: Clean(heap[n]) && Known(seen, Children(heap[n]))
      decreases heap.Keys - seen, 0
    {
      if value.Primitive? || value.id in seen {
        return None;
      }
      seen := seen + {value.id};
      var node := heap[value.id];
      if node.Array? {
        found := SearchItems(heap, value.id, node.items);
      } else {
        found := SearchEntries(heap, value.id, node.entries);
      }
    }

    method SearchItems(heap: Heap, ghost here: Id, items: seq<Value>) returns (found: Option<string>)
      requires WellFormed(heap) && seen <= heap.Keys && here in seen && heap[here] == Array(items)
      modifies this
      ensures old(seen) <= seen <= heap.Keys
      ensures found.Some? ==> Witness(heap, here, found.value)
      ensures found.None? ==> Known(seen, items) && forall n | n in seen - old(seen) :: Clean(heap[n]) && Known(seen, Children(heap[n]))
      decreases heap.Keys - seen, 1
    {
      assert Known(heap.Keys, Children(heap[here]));
      for k := 0 to |items|
        invariant old(seen) <= seen <= heap.Keys
        invariant forall j | 0 <= j < k && items[j].Ref? :: items[j].id in seen
        invariant forall n | n in seen - old(seen) :: Clean(heap[n]) && Known(seen, Children(heap[n]))
      {
        found := FindForbiddenKey(heap, items[k]);
        if found.Some? {
          WitnessThrough(heap, here, items[k].id, found.value);
          return;
        }
      }
      found := None;
    }

    method SearchEntries(heap: Heap, ghost here: Id, entries: seq<(string, Value)>) returns (found: Option<string>)
      requires WellFormed(heap) && seen <= heap.Keys && here in seen && heap[here] == Object(entries)
      modifies this
      ensures old(seen) <= seen <= heap.Keys
      ensures found.Some? ==> Witness(heap, here, found.value)
      ensures found.None? ==> Clean(heap[here]) && Known(seen, Children(heap[here]))
      ensures found.None? ==> forall n | n in seen - old(seen) :: Clean(heap[n]) && Known(seen, Children(heap[n]))
      decreases heap.Keys - seen, 1
    {
      assert Known(heap.Keys, Children(heap[here]));
      for k := 0 to |entries|
        invariant old(seen) <= seen <= heap.Keys
        invariant forall j | 0 <= j < k :: !ServerOwned(entries[j].0) && (entries[j].1.Ref? ==> entries[j].1.id in seen)
        invariant forall n | n in seen - old(seen) :: Clean(heap[n]) && Known(seen, Children(heap[n]))
      {
        if ServerOwned(entries[k].0) {
          ReachesItself(heap, here);
          return Some(entries[k].0);
        }
        assert Children(heap[here])[k] == entries[k].1;
        found := FindForbiddenKey(heap, entries[k].1);
        if found.Some? {
          WitnessThrough(heap, here, entries[k].1.id, found.value);
          return;
        }
      }
      found := None;
    }
  }

  /** Throws exactly when some object reachable from the body owns a server-owned key. */
  method AssertNoForbiddenFields(heap: Heap, body: Value) returns (thrown: Option<string>)
    requires WellFormed(heap) && (body.Ref? ==> body.id in heap)
    ensures thrown.Some? <==>
            && body.Ref?
            && exists n | n in heap :: Reaches(heap, body.id, n) && (Owns(heap[n], "tenant_id") || Owns(heap[n], "provenance"))
    ensures thrown.Some? ==> Witness(heap, body.id, thrown.value)
  {
    var search := new Search();
    thrown := search.FindForbiddenKey(heap, body);
    if thrown.None? && body.Ref? {
      NothingReachable(heap, search.seen, body.id);
      forall n | n in heap && Reaches(heap, body.id, n) ensures !Owns(heap[n], "tenant_id") && !Owns(heap[n], "provenance") {
        assert !Witness(heap, body.id, "tenant_id") && !Witness(heap, body.id, "provenance");
      }
    }
  }

  lemma NothingReachable(heap: Heap, seen: set<Id>, root: Id)
    requires root in seen && seen <= heap.Keys
    requires forall n | n in seen :: Clean(heap[n]) && Known(seen, Children(heap[n]))
    ensures forall key :: !Witness(heap, root, key)
  {
    forall key | Witness(heap, root, key) ensures false {
      var n :| n in heap && Reaches(heap, root, n) && Owns(heap[n], key);
      var p :| IsPath(heap, p) && p[0] == root && p[|p| - 1] == n;
      ClosedUnderEdges(heap, seen, p);
    }
  }
}
