/**
 * A generic four-way linked tree. Every node stores an element, a link to
 * its parent and four labelled child slots (NW, NE, SW, SE).
 *
 * The linked nodes are kept in an arena: a node's handle is its index in
 * `nodes`, and every link is an optional index. Nodes are only ever
 * appended, so a handle stays valid for the lifetime of the tree.
 */
module QuadTree {
  import opened Wrappers

  datatype Quadrant = NW | NE | SW | SE

  /** The three exceptions the tree and the map can throw. */
  datatype Error = IllegalArgument | IllegalState | UnsupportedOperation

  /** One tree node: its element, its parent (None at the root) and its four child slots. */
  datatype Node<E> = Node(element: E, parent: Option<nat>,
                          nw: Option<nat>, ne: Option<nat>, sw: Option<nat>, se: Option<nat>)
  {
    /** The link stored in slot `q`: empty, or one of this node's children. */
    function Slot(q: Quadrant): (c: Option<nat>)
      ensures c.Some? ==> HasChild(c.value)
    {
      match q
      case NW => nw
      case NE => ne
      case SW => sw
      case SE => se
    }

    /** This node with slot `q` replaced by `c`; the element, the parent and the other slots stay. */
    function WithSlot(q: Quadrant, c: Option<nat>): (n: Node<E>)
      ensures n.Slot(q) == c
      ensures forall q' :: q' != q ==> n.Slot(q') == Slot(q')
      ensures n.element == element && n.parent == parent
    {
      match q
      case NW => this.(nw := c)
      case NE => this.(ne := c)
      case SW => this.(sw := c)
      case SE => this.(se := c)
    }

    /** A node with no children (an external position). */
    predicate IsLeaf() {
      nw.None? && ne.None? && sw.None? && se.None?
    }

    predicate HasChild(c: nat) {
      nw == Some(c) || ne == Some(c) || sw == Some(c) || se == Some(c)
    }

    /** The slot in which this node holds child `c`. */
    function SlotOf(c: nat): (q: Quadrant)
      requires HasChild(c)
      ensures Slot(q) == Some(c)
    {
      if nw == Some(c) then NW else if ne == Some(c) then NE else if sw == Some(c) then SW else SE
    }

    /** No node occupies two slots of the same parent. */
    predicate DistinctSlots() {
      forall q, q' :: q != q' && Slot(q).Some? ==> Slot(q) != Slot(q')
    }
  }

  /** A fresh node: no children. */
  function Childless<E>(e: E, parent: Option<nat>): Node<E> {
    Node(e, parent, None, None, None, None)
  }

  /** `c` is a younger node whose parent link points back at `i`. */
  ghost predicate ChildAfter<E>(nodes: seq<Node<E>>, i: nat, c: nat) {
    i < c < |nodes| && nodes[c].parent == Some(i)
  }

  /**
   * The linked-structure invariant of the arena: node 0 is the root,
   * every other node's parent is older and lists it as a child, every child
   * is younger and points back at its parent, and a parent's four slots are
   * distinct. In particular no node is its own parent, which is the
   * convention for a defunct node.
   */
  ghost predicate Wellformed<E>(nodes: seq<Node<E>>) {
    && (|nodes| > 0 ==> nodes[0].parent == None)
    && (forall i :: 0 < i < |nodes| ==>
          nodes[i].parent.Some? && nodes[i].parent.value < i && nodes[nodes[i].parent.value].HasChild(i))
    && (forall i, q :: 0 <= i < |nodes| && nodes[i].Slot(q).Some? ==> ChildAfter(nodes, i, nodes[i].Slot(q).value))
    && (forall i :: 0 <= i < |nodes| ==> nodes[i].DistinctSlots())
  }

  /** In a non-empty tree the root is a leaf exactly when it is the only node. */
  lemma RootIsLeafIffAlone<E>(nodes: seq<Node<E>>)
    requires Wellformed(nodes) && |nodes| > 0
    ensures nodes[0].IsLeaf() <==> |nodes| == 1
  {
    if |nodes| > 1 {
      assert nodes[1].parent == Some(0);
      assert nodes[0].HasChild(1);
    } else {
      forall q ensures nodes[0].Slot(q).None? {
      }
      assert nodes[0].nw == nodes[0].Slot(NW) && nodes[0].ne == nodes[0].Slot(NE);
      assert nodes[0].sw == nodes[0].Slot(SW) && nodes[0].se == nodes[0].Slot(SE);
    }
  }

  /** The arena after a new childless node storing `e` is hung in slot `q` of `p`. */
  function Attach<E>(nodes: seq<Node<E>>, p: nat, q: Quadrant, e: E): (r: seq<Node<E>>)
    requires p < |nodes|
    ensures |r| == |nodes| + 1
    ensures r[|nodes|] == Childless(e, Some(p))
    ensures r[p].Slot(q) == Some(|nodes|)
    ensures forall q' :: q' != q ==> r[p].Slot(q') == nodes[p].Slot(q')
    ensures r[p].element == nodes[p].element && r[p].parent == nodes[p].parent
    ensures forall j :: 0 <= j < |nodes| && j != p ==> r[j] == nodes[j]
  {
    nodes[p := nodes[p].WithSlot(q, Some(|nodes|))] + [Childless(e, Some(p))]
  }

  /** The arena after the element of `p` is replaced by `e`. */
  function SetElement<E>(nodes: seq<Node<E>>, p: nat, e: E): (r: seq<Node<E>>)
    requires p < |nodes|
    ensures |r| == |nodes|
    ensures r[p].element == e
    ensures r[p] == nodes[p].(element := e)
    ensures forall j :: 0 <= j < |nodes| && j != p ==> r[j] == nodes[j]
  {
    nodes[p := nodes[p].(element := e)]
  }

  /** Attaching a child in an empty slot keeps the arena a well-formed tree. */
  lemma AttachPreservesWellformed<E>(nodes: seq<Node<E>>, p: nat, q: Quadrant, e: E)
    requires Wellformed(nodes) && p < |nodes| && nodes[p].Slot(q).None?
    ensures Wellformed(Attach(nodes, p, q, e))
  {
    var r := Attach(nodes, p, q, e);
    var n := |nodes|;
    forall i | 0 < i < |r|
      ensures r[i].parent.Some? && r[i].parent.value < i && r[r[i].parent.value].HasChild(i)
    {
      if i < n {
        var j := nodes[i].parent.value;
        if j == p {
          var s := nodes[p].SlotOf(i);
          assert s != q;
          assert r[p].Slot(s) == Some(i);
        }
      } else {
        assert r[p].Slot(q) == Some(n);
      }
    }
    forall i, q' | 0 <= i < |r| && r[i].Slot(q').Some?
      ensures ChildAfter(r, i, r[i].Slot(q').value)
    {
      if i == p && q' == q {
      } else if i < n {
        assert r[i].Slot(q') == nodes[i].Slot(q');
      }
    }
    forall i | 0 <= i < |r|
      ensures r[i].DistinctSlots()
    {
      if i == p {
        forall a, b | a != b && r[p].Slot(a).Some?
          ensures r[p].Slot(a) != r[p].Slot(b)
        {
          if a == q {
            assert b != q;
            if nodes[p].Slot(b).Some? { assert ChildAfter(nodes, p, nodes[p].Slot(b).value); }
          } else if b == q {
            assert ChildAfter(nodes, p, nodes[p].Slot(a).value);
          } else {
            assert nodes[p].DistinctSlots();
          }
        }
      }
    }
  }

  /** Replacing an element changes no link, so the arena stays a well-formed tree. */
  lemma SetElementPreservesWellformed<E>(nodes: seq<Node<E>>, p: nat, e: E)
    requires Wellformed(nodes) && p < |nodes|
    ensures Wellformed(SetElement(nodes, p, e))
  {
    var r := SetElement(nodes, p, e);
    forall i | 0 < i < |r|
      ensures r[i].parent.Some? && r[i].parent.value < i && r[r[i].parent.value].HasChild(i)
    {
      var j := nodes[i].parent.value;
      var s := nodes[j].SlotOf(i);
      assert r[j].Slot(s) == nodes[j].Slot(s);
    }
    forall i, q | 0 <= i < |r| && r[i].Slot(q).Some?
      ensures ChildAfter(r, i, r[i].Slot(q).value)
    {
      assert r[i].Slot(q) == nodes[i].Slot(q);
    }
    forall i | 0 <= i < |r|
      ensures r[i].DistinctSlots()
    {
      assert nodes[i].DistinctSlots();
      forall a ensures r[i].Slot(a) == nodes[i].Slot(a) {
      }
    }
  }

  /** The node reached from `i` by following the child slots named in `path`, if every slot is occupied. */
  function Follow<E>(nodes: seq<Node<E>>, i: nat, path: seq<Quadrant>): (r: Option<nat>)
    requires Wellformed(nodes) && i < |nodes|
    ensures r.Some? ==> r.value < |nodes|
    ensures path == [] ==> r == Some(i)
    decreases |path|
  {
    if path == [] then Some(i)
    else
      match nodes[i].Slot(path[0])
      case None => None
      case Some(c) => Follow(nodes, c, path[1..])
  }

  /** Following one more slot at the end of a path steps from the node the path reaches. */
  lemma {:induction false} FollowSnoc<E>(nodes: seq<Node<E>>, i: nat, path: seq<Quadrant>, q: Quadrant)
    requires Wellformed(nodes) && i < |nodes|
    ensures Follow(nodes, i, path + [q]) ==
      match Follow(nodes, i, path)
      case None => None
      case Some(m) => nodes[m].Slot(q)
    decreases |path|
  {
    if path == [] {
      assert [] + [q] == [q];
      assert [q][1..] == [];
      if nodes[i].Slot(q).Some? {
        assert ChildAfter(nodes, i, nodes[i].Slot(q).value);
      }
    } else {
      assert (path + [q])[0] == path[0];
      assert (path + [q])[1..] == path[1..] + [q];
      if nodes[i].Slot(path[0]).Some? {
        FollowSnoc(nodes, nodes[i].Slot(path[0]).value, path[1..], q);
      }
    }
  }

  /** The height of node `i`: the longest number of child links from it down to a leaf (a leaf has height 0). */
  function Height<E>(nodes: seq<Node<E>>, i: nat): (h: nat)
    requires Wellformed(nodes) && i < |nodes|
    ensures h == 0 <==> nodes[i].IsLeaf()
    ensures forall q :: nodes[i].Slot(q).Some? ==> ChildAfter(nodes, i, nodes[i].Slot(q).value) && Height(nodes, nodes[i].Slot(q).value) < h
    decreases |nodes| - i, 1
  {
    if nodes[i].IsLeaf() then 0
    else 1 + Max(Max(SlotHeight(nodes, i, NW), SlotHeight(nodes, i, NE)),
                 Max(SlotHeight(nodes, i, SW), SlotHeight(nodes, i, SE)))
  }

  /** The height of the child in slot `q` of `i`, or 0 when the slot is empty. */
  function SlotHeight<E>(nodes: seq<Node<E>>, i: nat, q: Quadrant): nat
    requires Wellformed(nodes) && i < |nodes|
    decreases |nodes| - i, 0
  {
    match nodes[i].Slot(q)
    case None => 0
    case Some(c) =>
      assert ChildAfter(nodes, i, c);
      Height(nodes, c)
  }

  function Max(a: nat, b: nat): nat {
    if a < b then b else a
  }

  /**
   * Hanging a new child below `p` keeps every node reachable along `path`
   * reachable along the same path, holding the same element.
   */
  lemma {:induction false} AttachKeepsPaths<E>(nodes: seq<Node<E>>, p: nat, q: Quadrant, e: E, i: nat, path: seq<Quadrant>)
    requires Wellformed(nodes) && p < |nodes| && nodes[p].Slot(q).None?
    requires i < |nodes| && Follow(nodes, i, path).Some?
    ensures Wellformed(Attach(nodes, p, q, e))
    ensures Follow(Attach(nodes, p, q, e), i, path) == Follow(nodes, i, path)
    ensures Attach(nodes, p, q, e)[Follow(nodes, i, path).value].element == nodes[Follow(nodes, i, path).value].element
    decreases |path|
  {
    AttachPreservesWellformed(nodes, p, q, e);
    var r := Attach(nodes, p, q, e);
    if path != [] {
      var c := nodes[i].Slot(path[0]).value;
      assert r[i].Slot(path[0]) == Some(c) by {
        if i == p { assert path[0] != q; }
      }
      AttachKeepsPaths(nodes, p, q, e, c, path[1..]);
    }
  }

  /** Replacing an element keeps every path and every other element. */
  lemma {:induction false} SetElementKeepsPaths<E>(nodes: seq<Node<E>>, p: nat, e: E, i: nat, path: seq<Quadrant>)
    requires Wellformed(nodes) && p < |nodes| && i < |nodes|
    ensures Wellformed(SetElement(nodes, p, e))
    ensures Follow(SetElement(nodes, p, e), i, path) == Follow(nodes, i, path)
    decreases |path|
  {
    SetElementPreservesWellformed(nodes, p, e);
    var r := SetElement(nodes, p, e);
    if path != [] {
      assert r[i].Slot(path[0]) == nodes[i].Slot(path[0]);
      if nodes[i].Slot(path[0]).Some? {
        SetElementKeepsPaths(nodes, p, e, nodes[i].Slot(path[0]).value, path[1..]);
      }
    }
  }

  /** The linked quad tree: an arena of nodes, the root handle and the node counter. */
  class LinkedQuadTree<E> {
    var nodes: seq<Node<E>>
    var root: Option<nat>
    var size: nat

    ghost predicate Valid()
      reads this
    {
      && Wellformed(nodes)
      && size == |nodes|
      && root == (if |nodes| == 0 then None else Some(0))
    }

    /** An empty tree. */
    constructor ()
      ensures Valid() && nodes == [] && size == 0 && root == None
    {
      nodes := [];
      root := None;
      size := 0;
    }

    /** The number of nodes in the tree. */
    function Size(): (n: nat)
      reads this
      requires Valid()
      ensures n == |nodes|
    {
      size
    }

    function IsEmpty(): (b: bool)
      reads this
      requires Valid()
      ensures b <==> nodes == []
    {
      size == 0
    }

    /** The root position, or None when the tree is empty. */
    function Root(): (r: Option<nat>)
      reads this
      requires Valid()
      ensures r.Some? <==> |nodes| > 0
      ensures r.Some? ==> r.value < |nodes| && nodes[r.value].parent.None?
    {
      root
    }

    /**
     * Resolves a position to its node. A handle that is no node of this
     * arena, or a node whose parent is itself (a defunct node), is rejected;
     * a node of a valid tree is never rejected.
     */
    function Validate(p: nat): (r: Result<nat, Error>)
      reads this
      ensures r.Success? ==> r.value == p && p < |nodes|
      ensures r.Failure? ==> r.error == IllegalArgument
      ensures p < |nodes| && nodes[p].parent == Some(p) ==> r.Failure?
      ensures Valid() && p < |nodes| ==> r.Success?
    {
      if p >= |nodes| then Failure(IllegalArgument)
      else if nodes[p].parent == Some(p) then Failure(IllegalArgument)
      else Success(p)
    }

    /** The parent of `p`; None exactly at the root. */
    function Parent(p: nat): (r: Result<Option<nat>, Error>)
      reads this
      requires Valid()
      ensures r.Success? <==> p < |nodes|
      ensures r.Failure? ==> r.error == IllegalArgument
      ensures r.Success? ==> (r.value.None? <==> p == 0)
      ensures r.Success? && r.value.Some? ==> r.value.value < p && nodes[r.value.value].HasChild(p)
    {
      match Validate(p)
      case Failure(err) => Failure(err)
      case Success(node) => Success(nodes[node].parent)
    }

    /** The child of `p` in slot `q`, if any; it is a younger node whose parent is `p`. */
    function Navigate(p: nat, q: Quadrant): (r: Result<Option<nat>, Error>)
      reads this
      requires Valid()
      ensures r.Success? <==> p < |nodes|
      ensures r.Failure? ==> r.error == IllegalArgument
      ensures r.Success? ==> r.value == nodes[p].Slot(q)
      ensures r.Success? && r.value.Some? ==> p < r.value.value < |nodes| && nodes[r.value.value].parent == Some(p)
    {
      match Validate(p)
      case Failure(err) => Failure(err)
      case Success(node) => Success(nodes[node].Slot(q))
    }

    function Nw(p: nat): (r: Result<Option<nat>, Error>)
      reads this
      requires Valid()
      ensures r.Success? <==> p < |nodes|
      ensures r.Success? ==> r.value == nodes[p].nw
    {
      Navigate(p, NW)
    }

    function Ne(p: nat): (r: Result<Option<nat>, Error>)
      reads this
      requires Valid()
      ensures r.Success? <==> p < |nodes|
      ensures r.Success? ==> r.value == nodes[p].ne
    {
      Navigate(p, NE)
    }

    function Sw(p: nat): (r: Result<Option<nat>, Error>)
      reads this
      requires Valid()
      ensures r.Success? <==> p < |nodes|
      ensures r.Success? ==> r.value == nodes[p].sw
    {
      Navigate(p, SW)
    }

    function Se(p: nat): (r: Result<Option<nat>, Error>)
      reads this
      requires Valid()
      ensures r.Success? <==> p < |nodes|
      ensures r.Success? ==> r.value == nodes[p].se
    {
      Navigate(p, SE)
    }

    /** Places `e` at the root of an empty tree; a non-empty tree is left alone. */
    method AddRoot(e: E) returns (r: Result<nat, Error>)
      requires Valid()
      modifies this
      ensures Valid()
      ensures r.Failure? <==> old(nodes) != []
      ensures r.Failure? ==> r.error == IllegalState && nodes == old(nodes)
      ensures r.Success? ==> r.value == 0 && nodes == [Childless(e, None)] && size == 1
    {
      if !IsEmpty() {
        return Failure(IllegalState);
      }
      nodes := [Childless(e, None)];
      root := Some(0);
      size := 1;
      r := Success(0);
    }

    /**
     * Creates a new childless node storing `e` in slot `q` of `p`. Fails,
     * changing nothing, when `p` is not a live node or the slot is taken.
     */
    method Add(p: nat, q: Quadrant, e: E) returns (r: Result<nat, Error>)
      requires Valid()
      modifies this
      ensures Valid() && root == old(root)
      ensures r.Success? <==> p < |old(nodes)| && old(nodes)[p].Slot(q).None?
      ensures r.Failure? ==> r.error == IllegalArgument && nodes == old(nodes) && size == old(size)
      ensures r.Success? ==> r.value == |old(nodes)| && nodes == Attach(old(nodes), p, q, e) && size == old(size) + 1
    {
      var v := Validate(p);
      if v.Failure? {
        return Failure(v.error);
      }
      var parent := v.value;
      if nodes[parent].Slot(q).Some? {
        return Failure(IllegalArgument);
      }
      AttachPreservesWellformed(nodes, parent, q, e);
      nodes := Attach(nodes, parent, q, e);
      size := size + 1;
      r := Success(|nodes| - 1);
    }

    method AddNW(p: nat, e: E) returns (r: Result<nat, Error>)
      requires Valid()
      modifies this
      ensures Valid() && root == old(root)
      ensures r.Success? <==> p < |old(nodes)| && old(nodes)[p].nw.None?
      ensures r.Failure? ==> r.error == IllegalArgument && nodes == old(nodes) && size == old(size)
      ensures r.Success? ==> r.value == |old(nodes)| && nodes == Attach(old(nodes), p, NW, e) && size == old(size) + 1
    {
      r := Add(p, NW, e);
    }

    method AddNE(p: nat, e: E) returns (r: Result<nat, Error>)
      requires Valid()
      modifies this
      ensures Valid() && root == old(root)
      ensures r.Success? <==> p < |old(nodes)| && old(nodes)[p].ne.None?
      ensures r.Failure? ==> r.error == IllegalArgument && nodes == old(nodes) && size == old(size)
      ensures r.Success? ==> r.value == |old(nodes)| && nodes == Attach(old(nodes), p, NE, e) && size == old(size) + 1
    {
      r := Add(p, NE, e);
    }

    method AddSW(p: nat, e: E) returns (r: Result<nat, Error>)
      requires Valid()
      modifies this
      ensures Valid() && root == old(root)
      ensures r.Success? <==> p < |old(nodes)| && old(nodes)[p].sw.None?
      ensures r.Failure? ==> r.error == IllegalArgument && nodes == old(nodes) && size == old(size)
      ensures r.Success? ==> r.value == |old(nodes)| && nodes == Attach(old(nodes), p, SW, e) && size == old(size) + 1
    {
      r := Add(p, SW, e);
    }

    method AddSE(p: nat, e: E) returns (r: Result<nat, Error>)
      requires Valid()
      modifies this
      ensures Valid() && root == old(root)
      ensures r.Success? <==> p < |old(nodes)| && old(nodes)[p].se.None?
      ensures r.Failure? ==> r.error == IllegalArgument && nodes == old(nodes) && size == old(size)
      ensures r.Success? ==> r.value == |old(nodes)| && nodes == Attach(old(nodes), p, SE, e) && size == old(size) + 1
    {
      r := Add(p, SE, e);
    }

    /** Replaces the element at `p`, returning the one it held; no link and no count changes. */
    method Set(p: nat, e: E) returns (r: Result<E, Error>)
      requires Valid()
      modifies this
      ensures Valid() && root == old(root) && size == old(size)
      ensures r.Success? <==> p < |old(nodes)|
      ensures r.Failure? ==> r.error == IllegalArgument && nodes == old(nodes)
      ensures r.Success? ==> r.value == old(nodes)[p].element && nodes == SetElement(old(nodes), p, e)
    {
      var v := Validate(p);
      if v.Failure? {
        return Failure(v.error);
      }
      var node := v.value;
      var temp := nodes[node].element;
      SetElementPreservesWellformed(nodes, node, e);
      nodes := SetElement(nodes, node, e);
      r := Success(temp);
    }

    /** Removal is not supported: it always fails and, having no frame, changes nothing. */
    method Remove(p: nat) returns (r: Result<E, Error>)
      ensures r == Failure(UnsupportedOperation)
    {
      r := Failure(UnsupportedOperation);
    }
  }
}
