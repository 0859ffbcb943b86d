/**
 * A map keyed by 2-D points, stored in a linked quad tree. Every leaf of the
 * tree is an empty sentinel (element None) and every internal node holds one
 * entry and has all four children. A search descends by comparing the target
 * with a node's key on each axis separately; ties on an axis go east/north.
 */
module SpatialMap {
  import opened Wrappers
  import opened QuadTree

  /** A point key; both axes use the natural order of `int`. */
  datatype Coord = Coord(x: int, y: int)

  datatype Entry<V> = Entry(key: Coord, value: V)

  /** The arena of the tree underlying a map. */
  type Arena<V> = seq<Node<Option<Entry<V>>>>

  /** The natural-order comparator of each axis: negative, zero or positive. */
  function Compare(a: int, b: int): (c: int)
    ensures c < 0 <==> a < b
    ensures c == 0 <==> a == b
    ensures c > 0 <==> a > b
  {
    if a < b then -1 else if a == b then 0 else 1
  }

  /** Point `c` lies in quadrant `q` of the split point `k`; ties on an axis count as east or north. */
  predicate InQuadrant(c: Coord, k: Coord, q: Quadrant) {
    match q
    case NE => c.x >= k.x && c.y >= k.y
    case NW => c.x < k.x && c.y >= k.y
    case SE => c.x >= k.x && c.y < k.y
    case SW => c.x < k.x && c.y < k.y
  }

  /** The slot a search for `key` takes below a node whose key is `k`, checked in a fixed order. */
  function Route(key: Coord, k: Coord): (q: Quadrant)
    ensures InQuadrant(key, k, q)
  {
    var x := Compare(key.x, k.x);
    var y := Compare(key.y, k.y);
    if x >= 0 && y >= 0 then NE
    else if x < 0 && y >= 0 then NW
    else if x >= 0 && y < 0 then SE
    else SW
  }

  /** The four quadrants partition the plane, so the route is the only quadrant holding the key. */
  lemma RouteIsUnique(key: Coord, k: Coord, q: Quadrant)
    ensures InQuadrant(key, k, q) <==> q == Route(key, k)
  {
    if InQuadrant(key, k, q) {
      match q
      case NE => assert Route(key, k) == NE;
      case NW => assert Route(key, k) == NW;
      case SE => assert Route(key, k) == SE;
      case SW => assert Route(key, k) == SW;
    }
  }

  /** An internal node: all four slots are occupied. */
  predicate Full<E>(n: Node<E>) {
    n.nw.Some? && n.ne.Some? && n.sw.Some? && n.se.Some?
  }

  /** A leaf holds no entry; a node holding an entry has all four children. */
  predicate EntryShaped<V>(n: Node<Option<Entry<V>>>) {
    (n.element.None? ==> n.IsLeaf()) && (n.element.Some? ==> Full(n))
  }

  /** The underlying tree is well formed, has a root, and every node is entry-shaped. */
  ghost predicate MapShaped<V>(nodes: Arena<V>) {
    && Wellformed(nodes)
    && |nodes| >= 1
    && forall i :: 0 <= i < |nodes| ==> EntryShaped(nodes[i])
  }

  /**
   * The node of `p`'s subtree reached by searching for `key`: a leaf, or an
   * internal node whose key equals `key` on both axes.
   */
  function Search<V>(nodes: Arena<V>, p: nat, key: Coord): (r: nat)
    requires MapShaped(nodes) && p < |nodes|
    ensures r < |nodes|
    ensures nodes[r].IsLeaf() || (nodes[r].element.Some? && nodes[r].element.value.key == key)
    decreases |nodes| - p
  {
    if nodes[p].IsLeaf() then p
    else
      var k := nodes[p].element.value.key;
      var x := Compare(key.x, k.x);
      var y := Compare(key.y, k.y);
      if x == 0 && y == 0 then p
      else
        var q := Route(key, k);
        assert ChildAfter(nodes, p, nodes[p].Slot(q).value);
        Search(nodes, nodes[p].Slot(q).value, key)
  }

  /** The value a search for `key` finds, read from the node it reaches. */
  function Lookup<V>(nodes: Arena<V>, key: Coord): (r: Option<V>)
    requires MapShaped(nodes)
    ensures r.None? <==> nodes[Search(nodes, 0, key)].IsLeaf()
    ensures r.Some? ==> nodes[Search(nodes, 0, key)].element == Some(Entry(key, r.value))
  {
    var p := Search(nodes, 0, key);
    if nodes[p].IsLeaf() then None else Some(nodes[p].element.value.value)
  }

  function MapGet<V>(m: map<Coord, V>, key: Coord): Option<V> {
    if key in m then Some(m[key]) else None
  }

  /**
   * Point `c` lies, for every proper ancestor of node `j`, in the quadrant of
   * that ancestor's key that leads down to `j`.
   */
  ghost predicate InRegion<V>(nodes: Arena<V>, j: nat, c: Coord)
    requires Wellformed(nodes) && j < |nodes|
    decreases j
  {
    match nodes[j].parent
    case None => true
    case Some(i) =>
      && (nodes[i].element.Some? ==> InQuadrant(c, nodes[i].element.value.key, nodes[i].SlotOf(j)))
      && InRegion(nodes, i, c)
  }

  /** Every key lies in the right quadrant of each of its ancestors' keys. */
  ghost predicate Ordered<V>(nodes: Arena<V>)
    requires Wellformed(nodes)
  {
    forall j :: 0 <= j < |nodes| && nodes[j].element.Some? ==> InRegion(nodes, j, nodes[j].element.value.key)
  }

  /** Every stored entry is an entry of `model`. */
  ghost predicate Stored<V>(nodes: Arena<V>, model: map<Coord, V>) {
    forall i :: 0 <= i < |nodes| && nodes[i].element.Some? ==>
      nodes[i].element.value.key in model && model[nodes[i].element.value.key] == nodes[i].element.value.value
  }

  /** No key is stored at two nodes. */
  ghost predicate DistinctKeys<V>(nodes: Arena<V>) {
    forall i, j ::
      (0 <= i < |nodes| && 0 <= j < |nodes| && nodes[i].element.Some? && nodes[j].element.Some? &&
       nodes[i].element.value.key == nodes[j].element.value.key) ==> i == j
  }

  /** A search from the root finds exactly the value `model` holds, for every key. */
  ghost predicate Found<V>(nodes: Arena<V>, model: map<Coord, V>)
    requires MapShaped(nodes)
  {
    forall key :: Lookup(nodes, key) == MapGet(model, key)
  }

  /**
   * The invariant tying the tree to the abstract map `model`: the tree is
   * entry-shaped and ordered, every stored entry is in `model`, no key is
   * stored twice, a search finds exactly what `model` holds, and every entry
   * accounts for four nodes besides the root.
   */
  ghost predicate MapInvariant<V>(nodes: Arena<V>, model: map<Coord, V>) {
    && MapShaped(nodes)
    && Ordered(nodes)
    && Stored(nodes, model)
    && DistinctKeys(nodes)
    && Found(nodes, model)
    && |nodes| == 4 * |model| + 1
  }

  /** The arena after leaf `p` is expanded: it stores `e` and gets four new empty leaves, in NW, NE, SW, SE order. */
  function Expand<V>(nodes: Arena<V>, p: nat, e: Entry<V>): (r: Arena<V>)
    requires p < |nodes|
    ensures |r| == |nodes| + 4
    ensures r[p] == Node(Some(e), nodes[p].parent, Some(|nodes|), Some(|nodes| + 1), Some(|nodes| + 2), Some(|nodes| + 3))
    ensures forall c :: |nodes| <= c < |nodes| + 4 ==> r[c] == Childless(None, Some(p))
    ensures forall j :: 0 <= j < |nodes| && j != p ==> r[j] == nodes[j]
  {
    var n := |nodes|;
    var leaf := Childless(None, Some(p));
    nodes[p := Node(Some(e), nodes[p].parent, Some(n), Some(n + 1), Some(n + 2), Some(n + 3))] + [leaf, leaf, leaf, leaf]
  }

  /** A fresh map's tree: one sentinel leaf as root. */
  lemma EmptyInvariant<V>()
    ensures MapInvariant<V>([Childless(None, None)], map[])
  {
    var nodes: Arena<V> := [Childless(None, None)];
    forall key ensures Lookup(nodes, key) == MapGet(map[], key) {
      assert Search(nodes, 0, key) == 0;
    }
  }

  /**
   * Expanding a leaf is what the tree's own updates do one after another:
   * store `e` at `p`, then attach an empty leaf in its NW, NE, SW and SE slot.
   */
  lemma ExpandIsAttachChain<V>(nodes: Arena<V>, p: nat, e: Entry<V>)
    requires p < |nodes| && nodes[p].IsLeaf()
    ensures Expand(nodes, p, e)
         == Attach(Attach(Attach(Attach(SetElement(nodes, p, Some(e)), p, NW, None), p, NE, None), p, SW, None), p, SE, None)
  {
    var s := SetElement(nodes, p, Some(e));
    var a := Attach(s, p, NW, None);
    var b := Attach(a, p, NE, None);
    var c := Attach(b, p, SW, None);
    var d := Attach(c, p, SE, None);
    var r := Expand(nodes, p, e);
    assert d[p] == r[p] by {
      assert d[p].nw == a[p].nw && d[p].ne == b[p].ne && d[p].sw == c[p].sw;
    }
    forall i | 0 <= i < |r| ensures d[i] == r[i] {
      if i > p && i < |nodes| {
        assert d[i] == nodes[i];
      }
    }
  }

  /** Expanding a leaf keeps the tree well formed and entry-shaped. */
  lemma ExpandPreservesShape<V>(nodes: Arena<V>, p: nat, e: Entry<V>)
    requires MapShaped(nodes) && p < |nodes| && nodes[p].IsLeaf()
    ensures MapShaped(Expand(nodes, p, e))
  {
    var s := SetElement(nodes, p, Some(e));
    SetElementPreservesWellformed(nodes, p, Some(e));
    var a := Attach(s, p, NW, None);
    AttachPreservesWellformed(s, p, NW, None);
    var b := Attach(a, p, NE, None);
    AttachPreservesWellformed(a, p, NE, None);
    var c := Attach(b, p, SW, None);
    AttachPreservesWellformed(b, p, SW, None);
    AttachPreservesWellformed(c, p, SE, None);
    ExpandIsAttachChain(nodes, p, e);
    var r := Expand(nodes, p, e);
    forall i | 0 <= i < |r| ensures EntryShaped(r[i]) {
      if i < |nodes| && i != p {
        assert EntryShaped(nodes[i]);
      }
    }
  }

  /**
   * After leaf `p` is expanded with `e`, a search that did not end at `p`
   * ends where it did; one that ended at `p` still ends there when it was
   * for `e`'s key, and otherwise ends at one of the four new leaves.
   */
  lemma {:induction false} SearchAfterExpand<V>(nodes: Arena<V>, p: nat, e: Entry<V>, i: nat, key: Coord)
    requires MapShaped(nodes) && p < |nodes| && nodes[p].IsLeaf() && i < |nodes|
    ensures MapShaped(Expand(nodes, p, e))
    ensures Search(nodes, i, key) != p ==> Search(Expand(nodes, p, e), i, key) == Search(nodes, i, key)
    ensures Search(nodes, i, key) == p && key == e.key ==> Search(Expand(nodes, p, e), i, key) == p
    ensures Search(nodes, i, key) == p && key != e.key ==>
      var r := Search(Expand(nodes, p, e), i, key); |nodes| <= r && Expand(nodes, p, e)[r].IsLeaf()
    decreases |nodes| - i
  {
    ExpandPreservesShape(nodes, p, e);
    var ex := Expand(nodes, p, e);
    var n := |nodes|;
    if i == p {
      if key != e.key {
        var q := Route(key, e.key);
        var c := ex[p].Slot(q).value;
        assert n <= c < n + 4;
        assert ex[c] == Childless(None, Some(p));
        assert Search(ex, p, key) == Search(ex, c, key);
      }
    } else if !nodes[i].IsLeaf() {
      var k := nodes[i].element.value.key;
      if key != k {
        var c := nodes[i].Slot(Route(key, k)).value;
        assert ChildAfter(nodes, i, c);
        SearchAfterExpand(nodes, p, e, c, key);
      }
    }
  }

  /** Replacing the entry at `p` by one with the same key changes no search. */
  lemma {:induction false} SearchAfterSet<V>(nodes: Arena<V>, p: nat, e: Entry<V>, i: nat, key: Coord)
    requires MapShaped(nodes) && p < |nodes| && nodes[p].element.Some? && nodes[p].element.value.key == e.key
    requires i < |nodes|
    ensures MapShaped(SetElement(nodes, p, Some(e)))
    ensures Search(SetElement(nodes, p, Some(e)), i, key) == Search(nodes, i, key)
    decreases |nodes| - i
  {
    var r := SetElement(nodes, p, Some(e));
    SetElementPreservesWellformed(nodes, p, Some(e));
    forall j | 0 <= j < |r| ensures EntryShaped(r[j]) {
      assert EntryShaped(nodes[j]);
    }
    if !nodes[i].IsLeaf() {
      var k := nodes[i].element.value.key;
      if key != k {
        var c := nodes[i].Slot(Route(key, k)).value;
        assert ChildAfter(nodes, i, c);
        SearchAfterSet(nodes, p, e, c, key);
      }
    }
  }

  /** A search only descends into the quadrant that holds the key, so it stays in the key's region. */
  lemma {:induction false} SearchStaysInRegion<V>(nodes: Arena<V>, i: nat, key: Coord)
    requires MapShaped(nodes) && i < |nodes| && InRegion(nodes, i, key)
    ensures InRegion(nodes, Search(nodes, i, key), key)
    decreases |nodes| - i
  {
    if !nodes[i].IsLeaf() {
      var k := nodes[i].element.value.key;
      if key != k {
        var q := Route(key, k);
        var c := nodes[i].Slot(q).value;
        assert ChildAfter(nodes, i, c);
        assert nodes[i].DistinctSlots();
        assert nodes[i].SlotOf(c) == q;
        SearchStaysInRegion(nodes, c, key);
      }
    }
  }

  /** Regions of old nodes do not change when a leaf is expanded: a leaf is nobody's ancestor. */
  lemma {:induction false} RegionAfterExpand<V>(nodes: Arena<V>, p: nat, e: Entry<V>, j: nat, c: Coord)
    requires MapShaped(nodes) && p < |nodes| && nodes[p].IsLeaf() && j < |nodes|
    ensures MapShaped(Expand(nodes, p, e))
    ensures InRegion(Expand(nodes, p, e), j, c) == InRegion(nodes, j, c)
    decreases j
  {
    ExpandPreservesShape(nodes, p, e);
    var ex := Expand(nodes, p, e);
    assert ex[j].parent == nodes[j].parent;
    if j > 0 {
      var i := nodes[j].parent.value;
      assert nodes[i].HasChild(j);
      assert i != p;
      assert ex[i] == nodes[i];
      RegionAfterExpand(nodes, p, e, i, c);
    }
  }

  /** Regions do not change when an entry is replaced by one with the same key. */
  lemma {:induction false} RegionAfterSet<V>(nodes: Arena<V>, p: nat, e: Entry<V>, j: nat, c: Coord)
    requires MapShaped(nodes) && p < |nodes| && nodes[p].element.Some? && nodes[p].element.value.key == e.key
    requires j < |nodes|
    ensures Wellformed(SetElement(nodes, p, Some(e)))
    ensures InRegion(SetElement(nodes, p, Some(e)), j, c) == InRegion(nodes, j, c)
    decreases j
  {
    SetElementPreservesWellformed(nodes, p, Some(e));
    var r := SetElement(nodes, p, Some(e));
    if j > 0 {
      var i := nodes[j].parent.value;
      assert r[i].SlotOf(j) == nodes[i].SlotOf(j);
      RegionAfterSet(nodes, p, e, i, c);
    }
  }

  /** After a new key is inserted at leaf `p`, a search from the root finds what `model[key := value]` holds. */
  lemma PutNewFound<V>(nodes: Arena<V>, model: map<Coord, V>, p: nat, key: Coord, value: V)
    requires MapShaped(nodes) && Found(nodes, model) && p == Search(nodes, 0, key) && nodes[p].IsLeaf()
    ensures MapShaped(Expand(nodes, p, Entry(key, value)))
    ensures Found(Expand(nodes, p, Entry(key, value)), model[key := value])
  {
    var e := Entry(key, value);
    ExpandPreservesShape(nodes, p, e);
    var ex := Expand(nodes, p, e);
    var m := model[key := value];
    forall k ensures Lookup(ex, k) == MapGet(m, k) {
      SearchAfterExpand(nodes, p, e, 0, k);
      var r := Search(nodes, 0, k);
      assert Lookup(nodes, k) == MapGet(model, k);
      if r != p {
        assert k != key;
        assert ex[r] == nodes[r];
      }
    }
  }

  /** After a new key is inserted at the leaf its search reaches, every key still lies in its region. */
  lemma PutNewOrdered<V>(nodes: Arena<V>, p: nat, key: Coord, value: V)
    requires MapShaped(nodes) && Ordered(nodes) && p == Search(nodes, 0, key) && nodes[p].IsLeaf()
    ensures MapShaped(Expand(nodes, p, Entry(key, value)))
    ensures Ordered(Expand(nodes, p, Entry(key, value)))
  {
    var e := Entry(key, value);
    ExpandPreservesShape(nodes, p, e);
    var ex := Expand(nodes, p, e);
    forall j | 0 <= j < |ex| && ex[j].element.Some?
      ensures InRegion(ex, j, ex[j].element.value.key)
    {
      if j < |nodes| {
        RegionAfterExpand(nodes, p, e, j, ex[j].element.value.key);
        if j == p {
          assert InRegion(nodes, 0, key);
          SearchStaysInRegion(nodes, 0, key);
        } else {
          assert ex[j] == nodes[j];
        }
      }
    }
  }

  /** After a key absent from `model` is stored at leaf `p`, entries are stored in `model[key := value]`, each key once. */
  lemma PutNewStored<V>(nodes: Arena<V>, model: map<Coord, V>, p: nat, key: Coord, value: V)
    requires p < |nodes| && nodes[p].element.None? && key !in model
    requires Stored(nodes, model) && DistinctKeys(nodes)
    ensures Stored(Expand(nodes, p, Entry(key, value)), model[key := value])
    ensures DistinctKeys(Expand(nodes, p, Entry(key, value)))
  {
    var ex := Expand(nodes, p, Entry(key, value));
    var m := model[key := value];
    forall j | 0 <= j < |ex| && ex[j].element.Some?
      ensures ex[j].element.value.key in m && m[ex[j].element.value.key] == ex[j].element.value.value
    {
      if j != p {
        assert ex[j] == nodes[j];
      }
    }
    forall i, j | 0 <= i < |ex| && 0 <= j < |ex| && ex[i].element.Some? && ex[j].element.Some? &&
          ex[i].element.value.key == ex[j].element.value.key
      ensures i == j
    {
      if i != p { assert ex[i] == nodes[i]; }
      if j != p { assert ex[j] == nodes[j]; }
    }
  }

  /** Inserting a new key expands the leaf its search reaches and keeps the invariant, with `model[key := value]`. */
  lemma PutNewPreserves<V>(nodes: Arena<V>, model: map<Coord, V>, key: Coord, value: V)
    requires MapInvariant(nodes, model) && nodes[Search(nodes, 0, key)].IsLeaf()
    ensures key !in model
    ensures MapInvariant(Expand(nodes, Search(nodes, 0, key), Entry(key, value)), model[key := value])
  {
    var p := Search(nodes, 0, key);
    assert Lookup(nodes, key) == MapGet(model, key);
    PutNewFound(nodes, model, p, key, value);
    PutNewOrdered(nodes, p, key, value);
    PutNewStored(nodes, model, p, key, value);
    assert |model[key := value]| == |model| + 1;
  }

  /** After the entry for an existing key is replaced, a search from the root finds what `model[key := value]` holds. */
  lemma PutExistingFound<V>(nodes: Arena<V>, model: map<Coord, V>, p: nat, key: Coord, value: V)
    requires MapShaped(nodes) && Found(nodes, model) && p == Search(nodes, 0, key) && !nodes[p].IsLeaf()
    ensures MapShaped(SetElement(nodes, p, Some(Entry(key, value))))
    ensures Found(SetElement(nodes, p, Some(Entry(key, value))), model[key := value])
  {
    var e := Entry(key, value);
    var r := SetElement(nodes, p, Some(e));
    var m := model[key := value];
    SearchAfterSet(nodes, p, e, 0, key);
    forall k ensures Lookup(r, k) == MapGet(m, k) {
      SearchAfterSet(nodes, p, e, 0, k);
      var s := Search(nodes, 0, k);
      assert Lookup(nodes, k) == MapGet(model, k);
      if s != p {
        assert k != key;
        assert r[s] == nodes[s];
      }
    }
  }

  /** Replacing an entry by one with the same key keeps every key in its region. */
  lemma PutExistingOrdered<V>(nodes: Arena<V>, p: nat, e: Entry<V>)
    requires MapShaped(nodes) && Ordered(nodes) && p < |nodes|
    requires nodes[p].element.Some? && nodes[p].element.value.key == e.key
    ensures Wellformed(SetElement(nodes, p, Some(e)))
    ensures Ordered(SetElement(nodes, p, Some(e)))
  {
    SetElementPreservesWellformed(nodes, p, Some(e));
    var r := SetElement(nodes, p, Some(e));
    forall j | 0 <= j < |r| && r[j].element.Some?
      ensures InRegion(r, j, r[j].element.value.key)
    {
      RegionAfterSet(nodes, p, e, j, r[j].element.value.key);
      if j != p { assert r[j] == nodes[j]; }
    }
  }

  /** Replacing the only entry holding `key` keeps entries stored in `model[key := value]`, each key once. */
  lemma PutExistingStored<V>(nodes: Arena<V>, model: map<Coord, V>, p: nat, key: Coord, value: V)
    requires p < |nodes| && nodes[p].element.Some? && nodes[p].element.value.key == key
    requires Stored(nodes, model) && DistinctKeys(nodes)
    ensures Stored(SetElement(nodes, p, Some(Entry(key, value))), model[key := value])
    ensures DistinctKeys(SetElement(nodes, p, Some(Entry(key, value))))
  {
    var r := SetElement(nodes, p, Some(Entry(key, value)));
    var m := model[key := value];
    forall j | 0 <= j < |r| && r[j].element.Some?
      ensures r[j].element.value.key in m && m[r[j].element.value.key] == r[j].element.value.value
    {
      if j != p {
        assert r[j] == nodes[j];
      }
    }
    forall i, j | 0 <= i < |r| && 0 <= j < |r| && r[i].element.Some? && r[j].element.Some? &&
          r[i].element.value.key == r[j].element.value.key
      ensures i == j
    {
      if i != p { assert r[i] == nodes[i]; }
      if j != p { assert r[j] == nodes[j]; }
    }
  }

  /** Overwriting an existing key replaces the entry in place and keeps the invariant, with `model[key := value]`. */
  lemma PutExistingPreserves<V>(nodes: Arena<V>, model: map<Coord, V>, key: Coord, value: V)
    requires MapInvariant(nodes, model) && !nodes[Search(nodes, 0, key)].IsLeaf()
    ensures key in model && nodes[Search(nodes, 0, key)].element == Some(Entry(key, model[key]))
    ensures MapInvariant(SetElement(nodes, Search(nodes, 0, key), Some(Entry(key, value))), model[key := value])
  {
    var p := Search(nodes, 0, key);
    assert Lookup(nodes, key) == MapGet(model, key);
    PutExistingFound(nodes, model, p, key, value);
    PutExistingOrdered(nodes, p, Entry(key, value));
    PutExistingStored(nodes, model, p, key, value);
    assert |model[key := value]| == |model|;
  }

  /** The arena after `put(key, value)`: the leaf the search reaches is expanded, or the matching entry replaced. */
  function PutArena<V>(nodes: Arena<V>, key: Coord, value: V): (r: Arena<V>)
    requires MapShaped(nodes)
    ensures |r| == (if nodes[Search(nodes, 0, key)].IsLeaf() then |nodes| + 4 else |nodes|)
    ensures r[Search(nodes, 0, key)].element == Some(Entry(key, value))
    ensures forall j :: 0 <= j < |nodes| && j != Search(nodes, 0, key) ==> r[j] == nodes[j]
  {
    var p := Search(nodes, 0, key);
    if nodes[p].IsLeaf() then Expand(nodes, p, Entry(key, value))
    else SetElement(nodes, p, Some(Entry(key, value)))
  }

  /** Map semantics: after `put(key, value)` a get of `key` finds `value`, and a get of any other key is unchanged. */
  lemma GetAfterPut<V>(nodes: Arena<V>, model: map<Coord, V>, key: Coord, value: V, other: Coord)
    requires MapInvariant(nodes, model)
    ensures MapInvariant(PutArena(nodes, key, value), model[key := value])
    ensures Lookup(PutArena(nodes, key, value), key) == Some(value)
    ensures other != key ==> Lookup(PutArena(nodes, key, value), other) == Lookup(nodes, other)
  {
    if nodes[Search(nodes, 0, key)].IsLeaf() {
      PutNewPreserves(nodes, model, key, value);
    } else {
      PutExistingPreserves(nodes, model, key, value);
    }
    var after := PutArena(nodes, key, value);
    assert Lookup(after, key) == MapGet(model[key := value], key);
    assert Lookup(after, other) == MapGet(model[key := value], other);
    assert Lookup(nodes, other) == MapGet(model, other);
  }

  /** A key that was never put is not found. */
  lemma GetOfAbsentKey<V>(nodes: Arena<V>, model: map<Coord, V>, key: Coord)
    requires MapInvariant(nodes, model) && key !in model
    ensures Lookup(nodes, key) == None
    ensures nodes[Search(nodes, 0, key)].IsLeaf()
  {
    assert Lookup(nodes, key) == MapGet(model, key);
  }

  /**
   * Following slot `q` and then any path from node `i` leads to nodes whose
   * region lies in quadrant `q` of `i`'s key.
   */
  lemma {:induction false} RegionAlongPath<V>(nodes: Arena<V>, i: nat, q: Quadrant, rest: seq<Quadrant>, c: Coord)
    requires MapShaped(nodes) && i < |nodes| && nodes[i].element.Some?
    requires Follow(nodes, i, [q] + rest).Some?
    requires InRegion(nodes, Follow(nodes, i, [q] + rest).value, c)
    ensures InQuadrant(c, nodes[i].element.value.key, q)
    decreases |rest|
  {
    if rest == [] {
      assert [q] + rest == [q];
      var j := nodes[i].Slot(q).value;
      assert Follow(nodes, i, [q]) == Follow(nodes, j, []);
      assert ChildAfter(nodes, i, j);
      assert nodes[i].DistinctSlots();
      assert nodes[i].SlotOf(j) == q;
    } else {
      var front := rest[..|rest| - 1];
      var last := rest[|rest| - 1];
      assert [q] + rest == ([q] + front) + [last];
      FollowSnoc(nodes, i, [q] + front, last);
      var m := Follow(nodes, i, [q] + front).value;
      var j := nodes[m].Slot(last).value;
      assert ChildAfter(nodes, m, j);
      assert nodes[m].HasChild(j);
      RegionAlongPath(nodes, i, q, front, c);
    }
  }

  /**
   * The quadrant ordering, stated downwards: every entry in the subtree
   * below slot `q` of an internal node lies in quadrant `q` of that node's key.
   */
  lemma OrderedSubtrees<V>(nodes: Arena<V>, i: nat, q: Quadrant, rest: seq<Quadrant>)
    requires MapShaped(nodes) && Ordered(nodes) && i < |nodes| && nodes[i].element.Some?
    requires Follow(nodes, i, [q] + rest).Some?
    requires nodes[Follow(nodes, i, [q] + rest).value].element.Some?
    ensures InQuadrant(nodes[Follow(nodes, i, [q] + rest).value].element.value.key, nodes[i].element.value.key, q)
  {
    var j := Follow(nodes, i, [q] + rest).value;
    RegionAlongPath(nodes, i, q, rest, nodes[j].element.value.key);
  }

  /** The entries held at the internal nodes of `ns`, in arena order. */
  function Entries<V>(ns: Arena<V>): (es: seq<Entry<V>>)
    requires forall i :: 0 <= i < |ns| ==> EntryShaped(ns[i])
    ensures |es| <= |ns|
  {
    if ns == [] then []
    else
      var last := ns[|ns| - 1];
      assert EntryShaped(last);
      Entries(ns[..|ns| - 1]) + (if last.IsLeaf() then [] else [last.element.value])
  }

  /** Each listed entry is the element of some internal node. */
  lemma {:induction false} EntryIndex<V>(ns: Arena<V>, e: Entry<V>) returns (j: nat)
    requires forall i :: 0 <= i < |ns| ==> EntryShaped(ns[i])
    requires e in Entries(ns)
    ensures j < |ns| && ns[j].element == Some(e)
    decreases |ns|
  {
    var front := ns[..|ns| - 1];
    if e in Entries(front) {
      j := EntryIndex(front, e);
    } else {
      j := |ns| - 1;
    }
  }

  /** The entry of every internal node is listed. */
  lemma {:induction false} EntryListed<V>(ns: Arena<V>, j: nat)
    requires forall i :: 0 <= i < |ns| ==> EntryShaped(ns[i])
    requires j < |ns| && !ns[j].IsLeaf()
    ensures ns[j].element.Some? && ns[j].element.value in Entries(ns)
    decreases |ns|
  {
    assert EntryShaped(ns[j]);
    if j < |ns| - 1 {
      EntryListed(ns[..|ns| - 1], j);
    }
  }

  ghost function KeySet<V>(es: seq<Entry<V>>): set<Coord> {
    set e | e in es :: e.key
  }

  /** With no key stored twice, the listed entries have pairwise distinct keys: one key per entry. */
  lemma {:induction false} EntriesKeyCount<V>(ns: Arena<V>)
    requires forall i :: 0 <= i < |ns| ==> EntryShaped(ns[i])
    requires DistinctKeys(ns)
    ensures |KeySet(Entries(ns))| == |Entries(ns)|
    decreases |ns|
  {
    if ns != [] {
      var front := ns[..|ns| - 1];
      var last := ns[|ns| - 1];
      assert DistinctKeys(front) by {
        forall i, j | 0 <= i < |front| && 0 <= j < |front| && front[i].element.Some? && front[j].element.Some? &&
            front[i].element.value.key == front[j].element.value.key
          ensures i == j
        {
          assert front[i] == ns[i] && front[j] == ns[j];
        }
      }
      EntriesKeyCount(front);
      if !last.IsLeaf() {
        assert EntryShaped(last);
        var x := last.element.value;
        assert x.key !in KeySet(Entries(front)) by {
          forall e | e in Entries(front)
            ensures e.key != x.key
          {
            var j := EntryIndex(front, e);
            assert ns[j] == front[j];
          }
        }
        assert KeySet(Entries(ns)) == KeySet(Entries(front)) + {x.key};
      } else {
        assert Entries(ns) == Entries(front);
      }
    }
  }

  /** The entry of every key of `model` sits at the internal node its search reaches. */
  lemma EntryOfModelListed<V>(nodes: Arena<V>, model: map<Coord, V>, key: Coord)
    requires MapShaped(nodes) && Found(nodes, model) && key in model
    ensures Entry(key, model[key]) in Entries(nodes)
  {
    assert Lookup(nodes, key) == MapGet(model, key);
    var r := Search(nodes, 0, key);
    EntryListed(nodes, r);
  }

  /** The entries at internal nodes are exactly the entries of `model`, one per key. */
  lemma EntriesAreModel<V>(nodes: Arena<V>, model: map<Coord, V>)
    requires MapInvariant(nodes, model)
    ensures forall e :: e in Entries(nodes) <==> e.key in model && model[e.key] == e.value
    ensures |Entries(nodes)| == |model|
  {
    var es := Entries(nodes);
    forall e | e in es
      ensures e.key in model && model[e.key] == e.value
    {
      var j := EntryIndex(nodes, e);
    }
    forall e: Entry<V> | e.key in model && model[e.key] == e.value
      ensures e in es
    {
      EntryOfModelListed(nodes, model, e.key);
    }
    assert KeySet(es) == model.Keys by {
      forall k | k in model ensures k in KeySet(es) {
        EntryOfModelListed(nodes, model, k);
      }
    }
    EntriesKeyCount(nodes);
  }

  /** The point map: a quad tree whose elements are optional entries, and the abstract map it represents. */
  class SpatialTreeMap<V> {
    var tree: LinkedQuadTree<Option<Entry<V>>>
    ghost var model: map<Coord, V>

    ghost predicate Valid()
      reads this, tree
    {
      tree.Valid() && MapInvariant(tree.nodes, model)
    }

    /** An empty map: its tree holds one sentinel leaf as root. */
    constructor ()
      ensures Valid() && fresh(tree)
      ensures model == map[]
      ensures tree.nodes == [Childless(None, None)]
    {
      var t := new LinkedQuadTree<Option<Entry<V>>>();
      var _ := t.AddRoot(None);
      tree := t;
      model := map[];
      EmptyInvariant<V>();
    }

    /** Every key compares equal to itself on both axes. */
    function CheckKey(key: Coord): (ok: bool)
      ensures ok
    {
      Compare(key.x, key.x) == 0 && Compare(key.y, key.y) == 0
    }

    /** The number of entries: one per four non-root nodes, which is the number of keys stored. */
    function Size(): (n: nat)
      reads this, tree
      requires Valid()
      ensures n == |model|
    {
      (tree.Size() - 1) / 4
    }

    /** The value stored for `key`, or None when `key` was never put. */
    function Get(key: Coord): (r: Option<V>)
      reads this, tree
      requires Valid()
      ensures r == MapGet(model, key)
    {
      var _ := CheckKey(key);
      Lookup(tree.nodes, key)
    }

    /** Stores `e` at leaf `p` and hangs four empty leaves below it. */
    method ExpandExternal(p: nat, e: Entry<V>)
      requires tree.Valid() && p < |tree.nodes| && tree.nodes[p].IsLeaf()
      modifies tree
      ensures tree.Valid() && tree.root == old(tree.root)
      ensures tree.nodes == Expand(old(tree.nodes), p, e)
      ensures tree.size == old(tree.size) + 4
    {
      ghost var n0 := tree.nodes;
      var _ := tree.Set(p, Some(e));
      ghost var s := tree.nodes;
      var _ := tree.AddNW(p, None);
      var _ := tree.AddNE(p, None);
      var _ := tree.AddSW(p, None);
      var _ := tree.AddSE(p, None);
      ExpandIsAttachChain(n0, p, e);
    }

    /**
     * Associates `value` with `key` and returns the previous value. A new
     * key expands the leaf its search reaches (four more nodes); an existing
     * key has its entry replaced in place (no new node).
     */
    method Put(key: Coord, value: V) returns (prev: Option<V>)
      requires Valid()
      modifies this, tree
      ensures Valid() && tree == old(tree)
      ensures model == old(model)[key := value]
      ensures prev == MapGet(old(model), key)
      ensures key !in old(model) ==>
        && tree.nodes == Expand(old(tree.nodes), Search(old(tree.nodes), 0, key), Entry(key, value))
        && tree.size == old(tree.size) + 4
      ensures key in old(model) ==>
        && tree.nodes == SetElement(old(tree.nodes), Search(old(tree.nodes), 0, key), Some(Entry(key, value)))
        && tree.size == old(tree.size)
    {
      var _ := CheckKey(key);
      var newEntry := Entry(key, value);
      var p := Search(tree.nodes, 0, key);
      if tree.nodes[p].IsLeaf() {
        PutNewPreserves(tree.nodes, model, key, value);
        ExpandExternal(p, newEntry);
        model := model[key := value];
        prev := None;
      } else {
        PutExistingPreserves(tree.nodes, model, key, value);
        var previous := tree.nodes[p].element.value.value;
        var _ := tree.Set(p, Some(newEntry));
        model := model[key := value];
        prev := Some(previous);
      }
    }

    /** The entries of the map, read off the internal nodes of the tree. */
    method EntrySet() returns (es: seq<Entry<V>>)
      requires Valid()
      ensures es == Entries(tree.nodes)
      ensures forall e :: e in es <==> e.key in model && model[e.key] == e.value
      ensures |es| == Size()
    {
      es := [];
      var i := 0;
      while i < |tree.nodes|
        invariant 0 <= i <= |tree.nodes|
        invariant es == Entries(tree.nodes[..i])
      {
        assert tree.nodes[..i + 1][..i] == tree.nodes[..i];
        if !tree.nodes[i].IsLeaf() {
          es := es + [tree.nodes[i].element.value];
        }
        i := i + 1;
      }
      assert tree.nodes[..i] == tree.nodes;
      EntriesAreModel(tree.nodes, model);
    }

    /** The height of the tree from its root. */
    function TreeHeight(): (h: nat)
      reads this, tree
      requires Valid()
      ensures h == 0 <==> model == map[]
    {
      RootIsLeafIffAlone(tree.nodes);
      Height(tree.nodes, 0)
    }

    /** Removal is not supported: it always fails and, having no frame, changes nothing. */
    method Remove(key: Coord) returns (r: Result<V, Error>)
      ensures r == Failure(UnsupportedOperation)
    {
      r := Failure(UnsupportedOperation);
    }
  }
}
