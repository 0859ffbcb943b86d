/**
 * The scenarios of the repository's unit tests, stated as methods whose
 * results are proved: a small point map of seven entries, and two trees
 * built and updated through the linked quad tree's own operations.
 */
module Scenarios {
  import opened Wrappers
  import opened QuadTree
  import opened SpatialMap

  /**
   * The arenas of the small test map: empty, then expanded by each of its
   * seven puts in turn. Each states its length, so that the leaf the next
   * put expands is known to be a node of it.
   */
  function SmallArena0(): (r: Arena<int>)
    ensures |r| == 1
  {
    [Childless(None, None)]
  }

  function SmallArena1(): (r: Arena<int>)
    ensures |r| == 5
  {
    Expand(SmallArena0(), 0, Entry(Coord(0, 0), 0))
  }

  function SmallArena2(): (r: Arena<int>)
    ensures |r| == 9
  {
    Expand(SmallArena1(), 1, Entry(Coord(-3, 4), 1))
  }

  function SmallArena3(): (r: Arena<int>)
    ensures |r| == 13
  {
    Expand(SmallArena2(), 2, Entry(Coord(3, 2), 2))
  }

  function SmallArena4(): (r: Arena<int>)
    ensures |r| == 17
  {
    Expand(SmallArena3(), 3, Entry(Coord(-5, -6), 3))
  }

  function SmallArena5(): (r: Arena<int>)
    ensures |r| == 21
  {
    Expand(SmallArena4(), 4, Entry(Coord(6, -5), 4))
  }

  function SmallArena6(): (r: Arena<int>)
    ensures |r| == 25
  {
    Expand(SmallArena5(), 10, Entry(Coord(10, 12), 5))
  }

  function SmallArena7(): (r: Arena<int>)
    ensures |r| == 29
  {
    Expand(SmallArena6(), 23, Entry(Coord(7, 7), 6))
  }

  /** The same arenas written out node by node. */
  function SmallLit0(): Arena<int> {
    [Node(None, None, None, None, None, None)]
  }

  function SmallLit1(): Arena<int> {
    [Node(Some(Entry(Coord(0, 0), 0)), None, Some(1), Some(2), Some(3), Some(4)),
     Node(None, Some(0), None, None, None, None),
     Node(None, Some(0), None, None, None, None),
     Node(None, Some(0), None, None, None, None),
     Node(None, Some(0), None, None, None, None)]
  }

  function SmallLit2(): Arena<int> {
    [Node(Some(Entry(Coord(0, 0), 0)), None, Some(1), Some(2), Some(3), Some(4)),
     Node(Some(Entry(Coord(-3, 4), 1)), Some(0), Some(5), Some(6), Some(7), Some(8)),
     Node(None, Some(0), None, None, None, None),
     Node(None, Some(0), None, None, None, None),
     Node(None, Some(0), None, None, None, None),
     Node(None, Some(1), None, None, None, None),
     Node(None, Some(1), None, None, None, None),
     Node(None, Some(1), None, None, None, None),
     Node(None, Some(1), None, None, None, None)]
  }

  function SmallLit3(): Arena<int> {
    [Node(Some(Entry(Coord(0, 0), 0)), None, Some(1), Some(2), Some(3), Some(4)),
     Node(Some(Entry(Coord(-3, 4), 1)), Some(0), Some(5), Some(6), Some(7), Some(8)),
     Node(Some(Entry(Coord(3, 2), 2)), Some(0), Some(9), Some(10), Some(11), Some(12)),
     Node(None, Some(0), None, None, None, None),
     Node(None, Some(0), None, None, None, None),
     Node(None, Some(1), None, None, None, None),
     Node(None, Some(1), None, None, None, None),
     Node(None, Some(1), None, None, None, None),
     Node(None, Some(1), None, None, None, None),
     Node(None, Some(2), None, None, None, None),
     Node(None, Some(2), None, None, None, None),
     Node(None, Some(2), None, None, None, None),
     Node(None, Some(2), None, None, None, None)]
  }

  function SmallLit4(): Arena<int> {
    [Node(Some(Entry(Coord(0, 0), 0)), None, Some(1), Some(2), Some(3), Some(4)),
     Node(Some(Entry(Coord(-3, 4), 1)), Some(0), Some(5), Some(6), Some(7), Some(8)),
     Node(Some(Entry(Coord(3, 2), 2)), Some(0), Some(9), Some(10), Some(11), Some(12)),
     Node(Some(Entry(Coord(-5, -6), 3)), Some(0), Some(13), Some(14), Some(15), Some(16)),
     Node(None, Some(0), None, None, None, None),
     Node(None, Some(1), None, None, None, None),
     Node(None, Some(1), None, None, None, None),
     Node(None, Some(1), None, None, None, None),
     Node(None, Some(1), None, None, None, None),
     Node(None, Some(2), None, None, None, None),
     Node(None, Some(2), None, None, None, None),
     Node(None, Some(2), None, None, None, None),
     Node(None, Some(2), None, None, None, None),
     Node(None, Some(3), None, None, None, None),
     Node(None, Some(3), None, None, None, None),
     Node(None, Some(3), None, None, None, None),
     Node(None, Some(3), None, None, None, None)]
  }

  function SmallLit5(): Arena<int> {
    [Node(Some(Entry(Coord(0, 0), 0)), None, Some(1), Some(2), Some(3), Some(4)),
     Node(Some(Entry(Coord(-3, 4), 1)), Some(0), Some(5), Some(6), Some(7), Some(8)),
     Node(Some(Entry(Coord(3, 2), 2)), Some(0), Some(9), Some(10), Some(11), Some(12)),
     Node(Some(Entry(Coord(-5, -6), 3)), Some(0), Some(13), Some(14), Some(15), Some(16)),
     Node(Some(Entry(Coord(6, -5), 4)), Some(0), Some(17), Some(18), Some(19), Some(20)),
     Node(None, Some(1), None, None, None, None),
     Node(None, Some(1), None, None, None, None),
     Node(None, Some(1), None, None, None, None),
     Node(None, Some(1), None, None, None, None),
     Node(None, Some(2), None, None, None, None),
     Node(None, Some(2), None, None, None, None),
     Node(None, Some(2), None, None, None, None),
     Node(None, Some(2), None, None, None, None),
     Node(None, Some(3), None, None, None, None),
     Node(None, Some(3), None, None, None, None),
     Node(None, Some(3), None, None, None, None),
     Node(None, Some(3), None, None, None, None),
     Node(None, Some(4), None, None, None, None),
     Node(None, Some(4), None, None, None, None),
     Node(None, Some(4), None, None, None, None),
     Node(None, Some(4), None, None, None, None)]
  }

  function SmallLit6(): Arena<int> {
    [Node(Some(Entry(Coord(0, 0), 0)), None, Some(1), Some(2), Some(3), Some(4)),
     Node(Some(Entry(Coord(-3, 4), 1)), Some(0), Some(5), Some(6), Some(7), Some(8)),
     Node(Some(Entry(Coord(3, 2), 2)), Some(0), Some(9), Some(10), Some(11), Some(12)),
     Node(Some(Entry(Coord(-5, -6), 3)), Some(0), Some(13), Some(14), Some(15), Some(16)),
     Node(Some(Entry(Coord(6, -5), 4)), Some(0), Some(17), Some(18), Some(19), Some(20)),
     Node(None, Some(1), None, None, None, None),
     Node(None, Some(1), None, None, None, None),
     Node(None, Some(1), None, None, None, None),
     Node(None, Some(1), None, None, None, None),
     Node(None, Some(2), None, None, None, None),
     Node(Some(Entry(Coord(10, 12), 5)), Some(2), Some(21), Some(22), Some(23), Some(24)),
     Node(None, Some(2), None, None, None, None),
     Node(None, Some(2), None, None, None, None),
     Node(None, Some(3), None, None, None, None),
     Node(None, Some(3), None, None, None, None),
     Node(None, Some(3), None, None, None, None),
     Node(None, Some(3), None, None, None, None),
     Node(None, Some(4), None, None, None, None),
     Node(None, Some(4), None, None, None, None),
     Node(None, Some(4), None, None, None, None),
     Node(None, Some(4), None, None, None, None),
     Node(None, Some(10), None, None, None, None),
     Node(None, Some(10), None, None, None, None),
     Node(None, Some(10), None, None, None, None),
     Node(None, Some(10), None, None, None, None)]
  }

  function SmallLit7(): Arena<int> {
    [Node(Some(Entry(Coord(0, 0), 0)), None, Some(1), Some(2), Some(3), Some(4)),
     Node(Some(Entry(Coord(-3, 4), 1)), Some(0), Some(5), Some(6), Some(7), Some(8)),
     Node(Some(Entry(Coord(3, 2), 2)), Some(0), Some(9), Some(10), Some(11), Some(12)),
     Node(Some(Entry(Coord(-5, -6), 3)), Some(0), Some(13), Some(14), Some(15), Some(16)),
     Node(Some(Entry(Coord(6, -5), 4)), Some(0), Some(17), Some(18), Some(19), Some(20)),
     Node(None, Some(1), None, None, None, None),
     Node(None, Some(1), None, None, None, None),
     Node(None, Some(1), None, None, None, None),
     Node(None, Some(1), None, None, None, None),
     Node(None, Some(2), None, None, None, None),
     Node(Some(Entry(Coord(10, 12), 5)), Some(2), Some(21), Some(22), Some(23), Some(24)),
     Node(None, Some(2), None, None, None, None),
     Node(None, Some(2), None, None, None, None),
     Node(None, Some(3), None, None, None, None),
     Node(None, Some(3), None, None, None, None),
     Node(None, Some(3), None, None, None, None),
     Node(None, Some(3), None, None, None, None),
     Node(None, Some(4), None, None, None, None),
     Node(None, Some(4), None, None, None, None),
     Node(None, Some(4), None, None, None, None),
     Node(None, Some(4), None, None, None, None),
     Node(None, Some(10), None, None, None, None),
     Node(None, Some(10), None, None, None, None),
     Node(Some(Entry(Coord(7, 7), 6)), Some(10), Some(25), Some(26), Some(27), Some(28)),
     Node(None, Some(10), None, None, None, None),
     Node(None, Some(23), None, None, None, None),
     Node(None, Some(23), None, None, None, None),
     Node(None, Some(23), None, None, None, None),
     Node(None, Some(23), None, None, None, None)]
  }

  /** Each put of the small test map expands one leaf of the written-out arena into the next one. */
  lemma SmallGrow1()
    ensures Expand(SmallLit0(), 0, Entry(Coord(0, 0), 0)) == SmallLit1()
  { }

  lemma SmallGrow2()
    ensures Expand(SmallLit1(), 1, Entry(Coord(-3, 4), 1)) == SmallLit2()
  { }

  lemma SmallGrow3()
    ensures Expand(SmallLit2(), 2, Entry(Coord(3, 2), 2)) == SmallLit3()
  { }

  lemma SmallGrow4()
    ensures Expand(SmallLit3(), 3, Entry(Coord(-5, -6), 3)) == SmallLit4()
  { }

  lemma SmallGrow5()
    ensures Expand(SmallLit4(), 4, Entry(Coord(6, -5), 4)) == SmallLit5()
  { }

  lemma SmallGrow6()
    ensures Expand(SmallLit5(), 10, Entry(Coord(10, 12), 5)) == SmallLit6()
  { }

  lemma SmallGrow7()
    ensures Expand(SmallLit6(), 23, Entry(Coord(7, 7), 6)) == SmallLit7()
  { }

  lemma SmallArenaIsLit0()
    ensures SmallArena0() == SmallLit0()
  { }

  lemma SmallArenaIsLit1()
    ensures SmallArena1() == SmallLit1()
  {
    SmallArenaIsLit0();
    SmallGrow1();
  }

  lemma SmallArenaIsLit2()
    ensures SmallArena2() == SmallLit2()
  {
    SmallArenaIsLit1();
    SmallGrow2();
  }

  lemma SmallArenaIsLit3()
    ensures SmallArena3() == SmallLit3()
  {
    SmallArenaIsLit2();
    SmallGrow3();
  }

  lemma SmallArenaIsLit4()
    ensures SmallArena4() == SmallLit4()
  {
    SmallArenaIsLit3();
    SmallGrow4();
  }

  lemma SmallArenaIsLit5()
    ensures SmallArena5() == SmallLit5()
  {
    SmallArenaIsLit4();
    SmallGrow5();
  }

  lemma SmallArenaIsLit6()
    ensures SmallArena6() == SmallLit6()
  {
    SmallArenaIsLit5();
    SmallGrow6();
  }

  lemma SmallArenaIsLit7()
    ensures SmallArena7() == SmallLit7()
  {
    SmallArenaIsLit6();
    SmallGrow7();
  }

  /** The nodes on the search path of each put of the small test map. */
  lemma SmallPath1()
    ensures |SmallArena0()| == 1
    ensures SmallArena0()[0].IsLeaf()
  {
    SmallArenaIsLit0();
  }

  lemma SmallPath2()
    ensures |SmallArena1()| == 5
    ensures SmallArena1()[0] == Node(Some(Entry(Coord(0, 0), 0)), None, Some(1), Some(2), Some(3), Some(4))
    ensures SmallArena1()[1].IsLeaf()
  {
    SmallArenaIsLit1();
  }

  lemma SmallPath3()
    ensures |SmallArena2()| == 9
    ensures SmallArena2()[0] == Node(Some(Entry(Coord(0, 0), 0)), None, Some(1), Some(2), Some(3), Some(4))
    ensures SmallArena2()[2].IsLeaf()
  {
    SmallArenaIsLit2();
  }

  lemma SmallPath4()
    ensures |SmallArena3()| == 13
    ensures SmallArena3()[0] == Node(Some(Entry(Coord(0, 0), 0)), None, Some(1), Some(2), Some(3), Some(4))
    ensures SmallArena3()[3].IsLeaf()
  {
    SmallArenaIsLit3();
  }

  lemma SmallPath5()
    ensures |SmallArena4()| == 17
    ensures SmallArena4()[0] == Node(Some(Entry(Coord(0, 0), 0)), None, Some(1), Some(2), Some(3), Some(4))
    ensures SmallArena4()[4].IsLeaf()
  {
    SmallArenaIsLit4();
  }

  lemma SmallPath6()
    ensures |SmallArena5()| == 21
    ensures SmallArena5()[0] == Node(Some(Entry(Coord(0, 0), 0)), None, Some(1), Some(2), Some(3), Some(4))
    ensures SmallArena5()[2] == Node(Some(Entry(Coord(3, 2), 2)), Some(0), Some(9), Some(10), Some(11), Some(12))
    ensures SmallArena5()[10].IsLeaf()
  {
    SmallArenaIsLit5();
  }

  lemma SmallPath7()
    ensures |SmallArena6()| == 25
    ensures SmallArena6()[0] == Node(Some(Entry(Coord(0, 0), 0)), None, Some(1), Some(2), Some(3), Some(4))
    ensures SmallArena6()[2] == Node(Some(Entry(Coord(3, 2), 2)), Some(0), Some(9), Some(10), Some(11), Some(12))
    ensures SmallArena6()[10] == Node(Some(Entry(Coord(10, 12), 5)), Some(2), Some(21), Some(22), Some(23), Some(24))
    ensures SmallArena6()[23].IsLeaf()
  {
    SmallArenaIsLit6();
  }

  /** The leaf each put of the small test map reaches, from the nodes on its search path. */
  lemma SmallReach1(a: Arena<int>)
    requires MapShaped(a)
    requires |a| == 1
    requires a[0].IsLeaf()
    ensures Search(a, 0, Coord(0, 0)) == 0
  {
  }

  lemma SmallReach2(a: Arena<int>)
    requires MapShaped(a)
    requires |a| == 5
    requires a[0] == Node(Some(Entry(Coord(0, 0), 0)), None, Some(1), Some(2), Some(3), Some(4))
    requires a[1].IsLeaf()
    ensures Search(a, 0, Coord(-3, 4)) == 1
  {
    var key := Coord(-3, 4);
    assert Search(a, 0, key) == Search(a, 1, key) == 1;
  }

  lemma SmallReach3(a: Arena<int>)
    requires MapShaped(a)
    requires |a| == 9
    requires a[0] == Node(Some(Entry(Coord(0, 0), 0)), None, Some(1), Some(2), Some(3), Some(4))
    requires a[2].IsLeaf()
    ensures Search(a, 0, Coord(3, 2)) == 2
  {
    var key := Coord(3, 2);
    assert Search(a, 0, key) == Search(a, 2, key) == 2;
  }

  lemma SmallReach4(a: Arena<int>)
    requires MapShaped(a)
    requires |a| == 13
    requires a[0] == Node(Some(Entry(Coord(0, 0), 0)), None, Some(1), Some(2), Some(3), Some(4))
    requires a[3].IsLeaf()
    ensures Search(a, 0, Coord(-5, -6)) == 3
  {
    var key := Coord(-5, -6);
    assert Search(a, 0, key) == Search(a, 3, key) == 3;
  }

  lemma SmallReach5(a: Arena<int>)
    requires MapShaped(a)
    requires |a| == 17
    requires a[0] == Node(Some(Entry(Coord(0, 0), 0)), None, Some(1), Some(2), Some(3), Some(4))
    requires a[4].IsLeaf()
    ensures Search(a, 0, Coord(6, -5)) == 4
  {
    var key := Coord(6, -5);
    assert Search(a, 0, key) == Search(a, 4, key) == 4;
  }

  lemma SmallReach6(a: Arena<int>)
    requires MapShaped(a)
    requires |a| == 21
    requires a[0] == Node(Some(Entry(Coord(0, 0), 0)), None, Some(1), Some(2), Some(3), Some(4))
    requires a[2] == Node(Some(Entry(Coord(3, 2), 2)), Some(0), Some(9), Some(10), Some(11), Some(12))
    requires a[10].IsLeaf()
    ensures Search(a, 0, Coord(10, 12)) == 10
  {
    var key := Coord(10, 12);
    assert Search(a, 0, key) == Search(a, 2, key) == Search(a, 10, key) == 10;
  }

  lemma SmallReach7(a: Arena<int>)
    requires MapShaped(a)
    requires |a| == 25
    requires a[0] == Node(Some(Entry(Coord(0, 0), 0)), None, Some(1), Some(2), Some(3), Some(4))
    requires a[2] == Node(Some(Entry(Coord(3, 2), 2)), Some(0), Some(9), Some(10), Some(11), Some(12))
    requires a[10] == Node(Some(Entry(Coord(10, 12), 5)), Some(2), Some(21), Some(22), Some(23), Some(24))
    requires a[23].IsLeaf()
    ensures Search(a, 0, Coord(7, 7)) == 23
  {
    var key := Coord(7, 7);
    assert Search(a, 0, key) == Search(a, 2, key) == Search(a, 10, key) == Search(a, 23, key) == 23;
  }

  /** The height of the small test map's tree, from its seven internal nodes and the leaves below them. */
  lemma SmallHeightOf(a: Arena<int>)
    requires Wellformed(a)
    requires |a| == 29
    requires a[0] == Node(Some(Entry(Coord(0, 0), 0)), None, Some(1), Some(2), Some(3), Some(4))
    requires a[1] == Node(Some(Entry(Coord(-3, 4), 1)), Some(0), Some(5), Some(6), Some(7), Some(8))
    requires a[2] == Node(Some(Entry(Coord(3, 2), 2)), Some(0), Some(9), Some(10), Some(11), Some(12))
    requires a[3] == Node(Some(Entry(Coord(-5, -6), 3)), Some(0), Some(13), Some(14), Some(15), Some(16))
    requires a[4] == Node(Some(Entry(Coord(6, -5), 4)), Some(0), Some(17), Some(18), Some(19), Some(20))
    requires a[10] == Node(Some(Entry(Coord(10, 12), 5)), Some(2), Some(21), Some(22), Some(23), Some(24))
    requires a[23] == Node(Some(Entry(Coord(7, 7), 6)), Some(10), Some(25), Some(26), Some(27), Some(28))
    requires forall k :: 5 <= k < 29 && k != 10 && k != 23 ==> a[k].IsLeaf()
    ensures Height(a, 0) == 4
  {
    assert Height(a, 23) == 1;
    assert Height(a, 10) == 2;
    assert Height(a, 2) == 3;
    assert Height(a, 1) == 1;
    assert Height(a, 3) == 1;
    assert Height(a, 4) == 1;
  }

  /** The nodes of the small test map's final tree. */
  lemma SmallNodes()
    ensures |SmallArena7()| == 29
    ensures SmallArena7()[0] == Node(Some(Entry(Coord(0, 0), 0)), None, Some(1), Some(2), Some(3), Some(4))
    ensures SmallArena7()[1] == Node(Some(Entry(Coord(-3, 4), 1)), Some(0), Some(5), Some(6), Some(7), Some(8))
    ensures SmallArena7()[2] == Node(Some(Entry(Coord(3, 2), 2)), Some(0), Some(9), Some(10), Some(11), Some(12))
    ensures SmallArena7()[3] == Node(Some(Entry(Coord(-5, -6), 3)), Some(0), Some(13), Some(14), Some(15), Some(16))
    ensures SmallArena7()[4] == Node(Some(Entry(Coord(6, -5), 4)), Some(0), Some(17), Some(18), Some(19), Some(20))
    ensures SmallArena7()[10] == Node(Some(Entry(Coord(10, 12), 5)), Some(2), Some(21), Some(22), Some(23), Some(24))
    ensures SmallArena7()[23] == Node(Some(Entry(Coord(7, 7), 6)), Some(10), Some(25), Some(26), Some(27), Some(28))
    ensures forall k :: 5 <= k < 29 && k != 10 && k != 23 ==> SmallArena7()[k].IsLeaf()
  {
    SmallArenaIsLit7();
  }

  /** The entries of the small test map. */
  function SmallModel(): map<Coord, int> {
    map[Coord(0, 0) := 0, Coord(-3, 4) := 1, Coord(3, 2) := 2, Coord(-5, -6) := 3, Coord(6, -5) := 4, Coord(10, 12) := 5, Coord(7, 7) := 6]
  }

  /** The size of the small test map and what it holds at the five probed points. */
  lemma SmallModelFacts()
    ensures |SmallModel()| == 7
    ensures MapGet(SmallModel(), Coord(0, 2)) == None && MapGet(SmallModel(), Coord(-6, -5)) == None
    ensures MapGet(SmallModel(), Coord(-5, -6)) == Some(3) && MapGet(SmallModel(), Coord(7, 7)) == Some(6)
    ensures MapGet(SmallModel(), Coord(0, 0)) == Some(0)
  { }

  /** The first four puts of the small test map, on a fresh map. */
  method SmallFirstPuts() returns (m: SpatialTreeMap<int>)
    ensures fresh(m) && fresh(m.tree) && m.Valid()
    ensures m.model == map[Coord(0, 0) := 0, Coord(-3, 4) := 1, Coord(3, 2) := 2, Coord(-5, -6) := 3]
    ensures m.tree.nodes == SmallArena4()
  {
    m := new SpatialTreeMap<int>();
    SmallPath1();
    SmallReach1(m.tree.nodes);
    var _ := m.Put(Coord(0, 0), 0);
    assert m.model == map[Coord(0, 0) := 0];
    assert m.tree.nodes == SmallArena1();
    SmallPath2();
    SmallReach2(m.tree.nodes);
    var _ := m.Put(Coord(-3, 4), 1);
    assert m.model == map[Coord(0, 0) := 0, Coord(-3, 4) := 1];
    assert m.tree.nodes == SmallArena2();
    SmallPath3();
    SmallReach3(m.tree.nodes);
    var _ := m.Put(Coord(3, 2), 2);
    assert m.model == map[Coord(0, 0) := 0, Coord(-3, 4) := 1, Coord(3, 2) := 2];
    assert m.tree.nodes == SmallArena3();
    SmallPath4();
    SmallReach4(m.tree.nodes);
    var _ := m.Put(Coord(-5, -6), 3);
    assert m.model == map[Coord(0, 0) := 0, Coord(-3, 4) := 1, Coord(3, 2) := 2, Coord(-5, -6) := 3];
    assert m.tree.nodes == SmallArena4();
  }

  /** The fifth put of the small test map. */
  method SmallFifthPut(m: SpatialTreeMap<int>)
    requires m.Valid() && m.model == map[Coord(0, 0) := 0, Coord(-3, 4) := 1, Coord(3, 2) := 2, Coord(-5, -6) := 3]
    requires m.tree.nodes == SmallArena4()
    modifies m, m.tree
    ensures m.Valid() && m.tree == old(m.tree)
    ensures m.model == map[Coord(0, 0) := 0, Coord(-3, 4) := 1, Coord(3, 2) := 2, Coord(-5, -6) := 3, Coord(6, -5) := 4]
    ensures m.tree.nodes == SmallArena5()
  {
    SmallPath5();
    SmallReach5(m.tree.nodes);
    var _ := m.Put(Coord(6, -5), 4);
    assert m.model == map[Coord(0, 0) := 0, Coord(-3, 4) := 1, Coord(3, 2) := 2, Coord(-5, -6) := 3, Coord(6, -5) := 4];
    assert m.tree.nodes == SmallArena5();
  }

  /** The sixth put of the small test map. */
  method SmallSixthPut(m: SpatialTreeMap<int>)
    requires m.Valid() && m.model == map[Coord(0, 0) := 0, Coord(-3, 4) := 1, Coord(3, 2) := 2, Coord(-5, -6) := 3, Coord(6, -5) := 4]
    requires m.tree.nodes == SmallArena5()
    modifies m, m.tree
    ensures m.Valid() && m.tree == old(m.tree)
    ensures m.model == map[Coord(0, 0) := 0, Coord(-3, 4) := 1, Coord(3, 2) := 2, Coord(-5, -6) := 3, Coord(6, -5) := 4, Coord(10, 12) := 5]
    ensures m.tree.nodes == SmallArena6()
  {
    SmallPath6();
    SmallReach6(m.tree.nodes);
    var _ := m.Put(Coord(10, 12), 5);
    assert m.model == map[Coord(0, 0) := 0, Coord(-3, 4) := 1, Coord(3, 2) := 2, Coord(-5, -6) := 3, Coord(6, -5) := 4, Coord(10, 12) := 5];
    assert m.tree.nodes == SmallArena6();
  }

  /** The seventh put of the small test map. */
  method SmallSeventhPut(m: SpatialTreeMap<int>)
    requires m.Valid() && m.model == map[Coord(0, 0) := 0, Coord(-3, 4) := 1, Coord(3, 2) := 2, Coord(-5, -6) := 3, Coord(6, -5) := 4, Coord(10, 12) := 5]
    requires m.tree.nodes == SmallArena6()
    modifies m, m.tree
    ensures m.Valid() && m.tree == old(m.tree)
    ensures m.model == SmallModel()
    ensures m.tree.nodes == SmallArena7()
  {
    SmallPath7();
    SmallReach7(m.tree.nodes);
    var _ := m.Put(Coord(7, 7), 6);
    assert m.model == SmallModel();
    assert m.tree.nodes == SmallArena7();
  }

  /** The small test map: seven puts on a fresh map. */
  method SmallBuild() returns (m: SpatialTreeMap<int>)
    ensures fresh(m) && m.Valid()
    ensures m.model == SmallModel()
    ensures Height(m.tree.nodes, 0) == 4
  {
    m := SmallFirstPuts();
    SmallFifthPut(m);
    SmallSixthPut(m);
    SmallSeventhPut(m);
    SmallNodes();
    SmallHeightOf(m.tree.nodes);
  }

  /** Seven puts, then the size, the height and five gets of the small test map. */
  method SmallMap() returns (size: nat, height: nat, g1: Option<int>, g2: Option<int>, g3: Option<int>,
                             g4: Option<int>, g5: Option<int>)
    ensures size == 7 && height == 4
    ensures g1 == None && g2 == None && g3 == Some(3) && g4 == Some(6) && g5 == Some(0)
  {
    var m := SmallBuild();
    SmallModelFacts();
    size := m.Size();
    height := m.TreeHeight();
    g1 := m.Get(Coord(0, 2));
    g2 := m.Get(Coord(-6, -5));
    g3 := m.Get(Coord(-5, -6));
    g4 := m.Get(Coord(7, 7));
    g5 := m.Get(Coord(0, 0));
  }

  /**
   * The set test of the linked quad tree: a root and its north-west child,
   * whose element is replaced before a north-east grandchild is added and
   * replaced in turn.
   */
  method TreeSet() returns (root: string, nw: string, nwNe: string)
    ensures root == "A" && nw == "D" && nwNe == "M"
  {
    var qt := new LinkedQuadTree<string>();
    var r := qt.AddRoot("A");
    var _ := qt.AddNW(r.value, "B");
    var _ := qt.Set(qt.Nw(qt.Root().value).value.value, "D");
    var _ := qt.AddNE(qt.Nw(qt.Root().value).value.value, "X");
    var _ := qt.Set(qt.Ne(qt.Nw(qt.Root().value).value.value).value.value, "M");
    var p := qt.Root().value;
    root := qt.nodes[p].element;
    var c := qt.Nw(p).value.value;
    nw := qt.nodes[c].element;
    var g := qt.Ne(c).value.value;
    nwNe := qt.nodes[g].element;
  }

  /** The arenas of the combined test's tree: the root alone, then after each of its eleven updates. */
  function Everything0(): seq<Node<string>> {
    [Childless("H", None)]
  }

  function Everything1(): seq<Node<string>> { Attach(Everything0(), 0, NW, "Y") }

  function Everything2(): seq<Node<string>> { Attach(Everything1(), 0, NE, "L") }

  function Everything3(): seq<Node<string>> { Attach(Everything2(), 0, SW, "O") }

  function Everything4(): seq<Node<string>> { Attach(Everything3(), 0, SE, "B") }

  function Everything5(): seq<Node<string>> { Attach(Everything4(), 1, NW, "I") }

  function Everything6(): seq<Node<string>> { SetElement(Everything5(), 3, "F") }

  function Everything7(): seq<Node<string>> { Attach(Everything6(), 3, SE, "W") }

  function Everything8(): seq<Node<string>> { Attach(Everything7(), 6, NE, "N") }

  function Everything9(): seq<Node<string>> { Attach(Everything8(), 6, SE, "U") }

  function Everything10(): seq<Node<string>> { SetElement(Everything9(), 6, "Z") }

  function Everything11(): seq<Node<string>> { SetElement(Everything10(), 7, "C") }

  /** The links each update of the combined test navigates, and the slots it fills. */
  lemma EverythingLinks4()
    ensures |Everything4()| == 5 && Everything4()[0].nw == Some(1) && Everything4()[1].nw.None?
  { }

  lemma EverythingLinks5()
    ensures |Everything5()| == 6 && Everything5()[0].sw == Some(3)
  { }

  lemma EverythingLinks6()
    ensures |Everything6()| == 6 && Everything6()[0].sw == Some(3) && Everything6()[3].se.None?
  { }

  lemma EverythingLinks7()
    ensures |Everything7()| == 7 && Everything7()[0].sw == Some(3) && Everything7()[3].se == Some(6) && Everything7()[6].ne.None?
  { }

  lemma EverythingLinks8()
    ensures |Everything8()| == 8 && Everything8()[0].sw == Some(3) && Everything8()[3].se == Some(6) && Everything8()[6].se.None?
  { }

  lemma EverythingLinks9()
    ensures |Everything9()| == 9 && Everything9()[0].sw == Some(3) && Everything9()[3].se == Some(6)
  { }

  lemma EverythingLinks10()
    ensures |Everything10()| == 9 && Everything10()[0].sw == Some(3) && Everything10()[3].se == Some(6) && Everything10()[6].ne == Some(7)
  { }

  /** What the combined test reads back at its end. */
  lemma EverythingFinal()
    ensures |Everything11()| == 9
    ensures Everything11()[0].element == "H" && Everything11()[0].ne == Some(2) && Everything11()[0].se == Some(4)
    ensures Everything11()[1].element == "Y" && Everything11()[2].element == "L" && Everything11()[4].element == "B"
    ensures Everything11()[0].nw == Some(1) && Everything11()[1].nw == Some(5) && Everything11()[5].element == "I"
    ensures Everything11()[0].sw == Some(3) && Everything11()[3].element == "F" && Everything11()[3].se == Some(6)
    ensures Everything11()[6].element == "Z" && Everything11()[6].ne == Some(7) && Everything11()[6].se == Some(8)
    ensures Everything11()[7].element == "C" && Everything11()[8].element == "U"
  { }

  /** The combined test of the linked quad tree, first phase: the root and its four children. */
  method EverythingRoot() returns (qt: LinkedQuadTree<string>)
    ensures fresh(qt) && qt.Valid() && qt.nodes == Everything4()
  {
    qt := new LinkedQuadTree<string>();
    var r := qt.AddRoot("H");
    var _ := qt.AddNW(r.value, "Y");
    var _ := qt.AddNE(r.value, "L");
    var _ := qt.AddSW(r.value, "O");
    var _ := qt.AddSE(r.value, "B");
  }

  /** Then a grandchild below the north-west child, and a new element in the south-west child. */
  method EverythingBuild() returns (qt: LinkedQuadTree<string>)
    ensures fresh(qt) && qt.Valid() && qt.nodes == Everything6()
  {
    qt := EverythingRoot();
    EverythingLinks4();
    var _ := qt.AddNW(qt.Nw(qt.Root().value).value.value, "I");
    EverythingLinks5();
    var _ := qt.Set(qt.Sw(qt.Root().value).value.value, "F");
  }

  /** Second phase: three nodes below the south-west child. */
  method EverythingGrow(qt: LinkedQuadTree<string>)
    requires qt.Valid() && qt.nodes == Everything6()
    modifies qt
    ensures qt.Valid() && qt.nodes == Everything9()
  {
    EverythingLinks6();
    var _ := qt.AddSE(qt.Sw(qt.Root().value).value.value, "W");
    EverythingLinks7();
    var _ := qt.AddNE(qt.Se(qt.Sw(qt.Root().value).value.value).value.value, "N");
    EverythingLinks8();
    var _ := qt.AddSE(qt.Se(qt.Sw(qt.Root().value).value.value).value.value, "U");
  }

  /** Third phase: two elements replaced. */
  method EverythingSet(qt: LinkedQuadTree<string>)
    requires qt.Valid() && qt.nodes == Everything9()
    modifies qt
    ensures qt.Valid() && qt.nodes == Everything11()
  {
    EverythingLinks9();
    var _ := qt.Set(qt.Se(qt.Sw(qt.Root().value).value.value).value.value, "Z");
    EverythingLinks10();
    var _ := qt.Set(qt.Ne(qt.Se(qt.Sw(qt.Root().value).value.value).value.value).value.value, "C");
  }

  /**
   * The combined test of the linked quad tree: four children of the root,
   * four grandchildren and great-grandchildren, elements replaced at three
   * depths, and every element read back at the end.
   */
  method TreeEverything() returns (root: string, nw: string, ne: string, sw: string, se: string, nwNw: string,
                                   swSe: string, swSeNe: string, swSeSe: string)
    ensures root == "H" && nw == "Y" && ne == "L" && sw == "F" && se == "B" && nwNw == "I"
    ensures swSe == "Z" && swSeNe == "C" && swSeSe == "U"
  {
    var qt := EverythingBuild();
    EverythingGrow(qt);
    EverythingSet(qt);
    EverythingFinal();
    var p := qt.Root().value;
    root := qt.nodes[p].element;
    nw := qt.nodes[qt.Nw(p).value.value].element;
    ne := qt.nodes[qt.Ne(p).value.value].element;
    se := qt.nodes[qt.Se(p).value.value].element;
    var a := qt.Sw(p).value.value;
    sw := qt.nodes[a].element;
    var b := qt.Se(a).value.value;
    swSe := qt.nodes[b].element;
    swSeNe := qt.nodes[qt.Ne(b).value.value].element;
    swSeSe := qt.nodes[qt.Se(b).value.value].element;
    nwNw := qt.nodes[qt.Nw(qt.Nw(p).value.value).value.value].element;
  }
}
