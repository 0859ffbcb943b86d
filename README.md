# Linked quad tree and spatial tree map

This project models two classes of a small Java data-structures library and proves properties about them.

- **`LinkedQuadTree<E>`** is a generic tree. Each node has an element, a parent link and four labelled child slots: NW, NE, SW and SE. The tree supports:
  - `addRoot`;
  - the four `addXX` operations, which hang a new childless node in one empty slot;
  - `set`, which replaces an element;
  - position lookups: `parent`, `nw`, `ne`, `sw`, `se`;
  - `validate`, which resolves a position;
  - `remove`, which always throws.
- **`SpatialTreeMap<V>`** is a map keyed by 2-D points and stored in such a tree.
  - Every leaf is an empty sentinel, and every internal node holds one entry and has all four children.
  - `treeSearch` compares the target with a node's key on each axis separately. A tie on an axis counts as east or north.
  - `put` either expands the leaf the search reaches or overwrites the entry that matches exactly.
  - `get` reads the node the search reaches.
  - `size` is `(nodeCount - 1) / 4`.

The modules are:

- `Wrappers` (`wrappers.dfy`): `Option` stands in for Java's `null`, and `Result` stands in for a thrown exception.
- `QuadTree` (`linked_quad_tree.dfy`): the node datatype, the class `LinkedQuadTree` with its fields `nodes`, `root` and `size`, and the lemmas about it.
  - The linked nodes live in an arena `nodes: seq<Node<E>>`. A position is an index into it, and every link is an optional index. Node identity in Java becomes index identity here.
  - The pure functions `Attach` and `SetElement` say what one update does to the arena. `Add` (and through it `AddNW` … `AddSE`) and `Set` each ensure that the new `nodes` equals that function applied to `old(nodes)`; `AddRoot` ensures that the new `nodes` is the single root node.
  - `Wellformed` is the linked-structure invariant:
    - every link points both ways;
    - a parent is older than its children;
    - a node's four slots are distinct.
- `SpatialMap` (`spatial_tree_map.dfy`): the class `SpatialTreeMap`, whose `tree` field holds optional entries (`None` is the sentinel).
  - A ghost field `model: map<Coord, V>` is the abstract map.
  - `MapInvariant` ties the tree to `model`:
    - the tree is entry-shaped;
    - `Ordered` holds: every key lies in the right quadrant of each of its ancestors;
    - every stored entry is in `model`;
    - no key is stored twice;
    - a search finds exactly what `model` holds;
    - `|nodes| == 4 * |model| + 1`.
  - `treeSearch` becomes the pure function `Search`. `put`'s two paths are the functions `Expand` and `SetElement`, and `PutArena` combines them.
- `Scenarios` (`scenarios.dfy`): the unit tests' scenarios, written as methods whose results are proved. They cover the seven-entry map of `small()`, the `setTest` tree and the `everythingTest` tree.

Coordinates are `(int, int)` with the natural order on each axis, in place of the two `Comparator`s.

## Model

| member | source | states |
|---|---|---|
| QuadTree.Node.Slot | src/net/datastructures/LinkedQuadTree.java:65-91 | the getter of a slot returns its stored link, which is empty or one of this node's children |
| QuadTree.Node.WithSlot | src/net/datastructures/LinkedQuadTree.java:65-96 | a slot setter changes that one slot only; the element, the parent and the other three slots stay the same |
| QuadTree.Attach | src/net/datastructures/LinkedQuadTree.java:253-256 | adding a child appends one childless node whose parent is `p`, puts it in slot `q` of `p`, leaves `p`'s element, parent and other slots alone, and changes no other node |
| QuadTree.SetElement | src/net/datastructures/LinkedQuadTree.java:328-333 | setting an element changes that one element only; links and node count stay the same |
| QuadTree.AttachPreservesWellformed | src/net/datastructures/LinkedQuadTree.java:248-257 | attaching in an empty slot keeps the linked structure consistent: two-way links, older parents, distinct slots |
| QuadTree.SetElementPreservesWellformed | src/net/datastructures/LinkedQuadTree.java:328-333 | replacing an element keeps the linked structure consistent |
| QuadTree.Follow | src/net/datastructures/LinkedQuadTree.java:176-222 | following a path of child links from a node reaches a node of the tree or stops at an empty slot; the empty path stays at the start |
| QuadTree.FollowSnoc | src/net/datastructures/LinkedQuadTree.java:176-222 | following `path + [q]` is following `path`, then asking for the child in slot `q` |
| QuadTree.Height | src/net/datastructures/SpatialTreeMap.java:208-210 | the height of an external node is 0, and a node's height is greater than that of each child |
| QuadTree.AttachKeepsPaths | test/net/datastructures/LinkedQuadTreeTest.java:102-141 | adding a child never changes a path that already reaches a node from any node, nor the element found there |
| QuadTree.SetElementKeepsPaths | test/net/datastructures/LinkedQuadTreeTest.java:81-100 | replacing an element never changes any path |
| QuadTree.LinkedQuadTree.constructor | src/net/datastructures/LinkedQuadTree.java:107-114 | a new tree has no root and no nodes, and its size is 0 |
| QuadTree.LinkedQuadTree.Size | src/net/datastructures/LinkedQuadTree.java:141-144 | the size counter equals the number of nodes |
| QuadTree.LinkedQuadTree.IsEmpty | src/net/datastructures/LinkedQuadTree.java:233 | the tree is empty exactly when it has no nodes |
| QuadTree.LinkedQuadTree.Root | src/net/datastructures/LinkedQuadTree.java:150-153 | the root exists exactly when the tree is non-empty, and it has no parent |
| QuadTree.LinkedQuadTree.Validate | src/net/datastructures/LinkedQuadTree.java:127-134 | a handle beyond the arena (standing for a position that is not a `Node`) or a node whose parent is itself is rejected with IllegalArgument; every node of a valid tree is accepted as itself |
| QuadTree.LinkedQuadTree.Parent | src/net/datastructures/LinkedQuadTree.java:162-166 | for a live position, returns its parent link: None exactly at the root, otherwise an older node that has it as a child; any other position fails with IllegalArgument |
| QuadTree.LinkedQuadTree.Navigate | src/net/datastructures/LinkedQuadTree.java:176-222 | for a live position, returns the stored link in slot `q`: a younger node whose parent is `p`, or None; any other position fails with IllegalArgument; the tree is only read |
| QuadTree.LinkedQuadTree.Nw | src/net/datastructures/LinkedQuadTree.java:176-180 | returns the stored NW link of a live position; anything else fails |
| QuadTree.LinkedQuadTree.Ne | src/net/datastructures/LinkedQuadTree.java:190-194 | returns the stored NE link of a live position; anything else fails |
| QuadTree.LinkedQuadTree.Sw | src/net/datastructures/LinkedQuadTree.java:204-208 | returns the stored SW link of a live position; anything else fails |
| QuadTree.LinkedQuadTree.Se | src/net/datastructures/LinkedQuadTree.java:218-222 | returns the stored SE link of a live position; anything else fails |
| QuadTree.LinkedQuadTree.AddRoot | src/net/datastructures/LinkedQuadTree.java:232-237 | fails with IllegalState, changing nothing, exactly when the tree is non-empty; otherwise the tree is one node with no parent and no children, at position 0, and the size is 1 |
| QuadTree.LinkedQuadTree.Add | src/net/datastructures/LinkedQuadTree.java:248-317 | succeeds exactly when `p` is a live node whose slot `q` is empty. On success the new node is childless, stores `e`, has parent `p` and sits in slot `q` of `p`; the other nodes and slots are unchanged and the size grows by 1. On failure it reports IllegalArgument and changes nothing |
| QuadTree.LinkedQuadTree.AddNW | src/net/datastructures/LinkedQuadTree.java:248-257 | `Add` in the NW slot: fails exactly when `p` is not live or already has a NW child |
| QuadTree.LinkedQuadTree.AddNE | src/net/datastructures/LinkedQuadTree.java:268-277 | `Add` in the NE slot: fails exactly when `p` is not live or already has a NE child |
| QuadTree.LinkedQuadTree.AddSW | src/net/datastructures/LinkedQuadTree.java:288-297 | `Add` in the SW slot: fails exactly when `p` is not live or already has a SW child |
| QuadTree.LinkedQuadTree.AddSE | src/net/datastructures/LinkedQuadTree.java:308-317 | `Add` in the SE slot: fails exactly when `p` is not live or already has a SE child |
| QuadTree.LinkedQuadTree.Set | src/net/datastructures/LinkedQuadTree.java:328-333 | for a live position, returns the previous element and stores `e`; links, root and size are unchanged; any other position fails, changing nothing |
| QuadTree.LinkedQuadTree.Remove | src/net/datastructures/LinkedQuadTree.java:343-345 | always fails with UnsupportedOperation and may modify nothing |
| SpatialMap.Compare | src/net/datastructures/SpatialTreeMap.java:92-93 | the natural order of one axis: negative, zero or positive exactly when less, equal or greater |
| SpatialMap.Route | src/net/datastructures/SpatialTreeMap.java:96-103 | the slot a search takes always holds the key's quadrant: ties on x go east, ties on y go north |
| SpatialMap.RouteIsUnique | src/net/datastructures/SpatialTreeMap.java:96-103 | the four quadrants partition the plane: a key lies in quadrant `q` of a split point exactly when `q` is the route the search takes |
| SpatialMap.Search | src/net/datastructures/SpatialTreeMap.java:88-104 | a search ends at a node of the tree that is either a leaf or an internal node whose key equals the target on both axes |
| SpatialMap.Lookup | src/net/datastructures/SpatialTreeMap.java:114-117 | `get`'s read of the tree: null exactly when the search for the key reaches a leaf, otherwise the value of the entry found there, whose key is the target |
| SpatialMap.Expand | src/net/datastructures/SpatialTreeMap.java:65-72 | expanding leaf `p` stores the entry there and gives it four new empty leaves, in NW, NE, SW, SE order; no other node changes and the arena grows by 4 |
| SpatialMap.ExpandIsAttachChain | src/net/datastructures/SpatialTreeMap.java:65-72 | expanding a leaf is the tree's own `set` followed by `addNW`, `addNE`, `addSW`, `addSE` with empty elements |
| SpatialMap.EmptyInvariant | src/net/datastructures/SpatialTreeMap.java:33-37 | one sentinel leaf as root is the tree of the empty map |
| SpatialMap.ExpandPreservesShape | src/net/datastructures/SpatialTreeMap.java:65-72 | expanding a leaf keeps these shape rules: leaves hold no entry, and internal nodes hold one and have four children |
| SpatialMap.SearchAfterExpand | src/net/datastructures/SpatialTreeMap.java:88-104 | after a leaf is expanded, a search that ended elsewhere ends where it did; one that ended there ends there again for the new key, and otherwise at one of the four new leaves |
| SpatialMap.SearchAfterSet | src/net/datastructures/SpatialTreeMap.java:138-142 | replacing an entry with one of the same key changes no search result |
| SpatialMap.SearchStaysInRegion | src/net/datastructures/SpatialTreeMap.java:96-103 | a search only descends into the quadrant that holds the key, so it ends inside the key's region |
| SpatialMap.RegionAfterExpand | src/net/datastructures/SpatialTreeMap.java:65-72 | expanding a leaf changes no old node's region |
| SpatialMap.RegionAfterSet | src/net/datastructures/SpatialTreeMap.java:138-142 | replacing an entry with one of the same key changes no region |
| SpatialMap.PutNewFound | src/net/datastructures/SpatialTreeMap.java:134-137 | after a new key is inserted at the leaf its search reaches, every search from the root finds what `model[key := value]` holds |
| SpatialMap.PutNewOrdered | src/net/datastructures/SpatialTreeMap.java:134-137 | inserting a new key at the leaf its search reaches keeps each key in the quadrant of each of its ancestors |
| SpatialMap.PutNewStored | src/net/datastructures/SpatialTreeMap.java:134-137 | storing a key absent from `model` at a leaf keeps every stored entry in `model[key := value]`, with each key stored once |
| SpatialMap.PutNewPreserves | src/net/datastructures/SpatialTreeMap.java:134-137 | when the search reaches a leaf, the key is absent from the map, and expanding that leaf keeps the whole map invariant for `model[key := value]`, including `nodes == 4 * size + 1` |
| SpatialMap.PutExistingFound | src/net/datastructures/SpatialTreeMap.java:138-142 | after the matching entry is replaced, every search from the root finds what `model[key := value]` holds |
| SpatialMap.PutExistingOrdered | src/net/datastructures/SpatialTreeMap.java:138-142 | replacing an entry with one of the same key keeps the quadrant ordering |
| SpatialMap.PutExistingStored | src/net/datastructures/SpatialTreeMap.java:138-142 | replacing the one entry holding `key` keeps every stored entry in `model[key := value]`, with each key stored once |
| SpatialMap.PutExistingPreserves | src/net/datastructures/SpatialTreeMap.java:138-142 | when the search reaches an internal node, it holds the key's current entry, and replacing it keeps the map invariant for `model[key := value]` with the node count unchanged |
| SpatialMap.PutArena | src/net/datastructures/SpatialTreeMap.java:134-142 | `put`'s effect on the tree: the new entry is stored at the node the search reached; the tree grows by four nodes exactly when that node was a leaf and otherwise keeps its size; every other old node is unchanged |
| SpatialMap.GetAfterPut | src/net/datastructures/SpatialTreeMap.java:111-143 | after `put(k, v)` the invariant holds for `model[k := v]`, `get(k)` returns `v`, and `get` of every other key is unchanged |
| SpatialMap.GetOfAbsentKey | src/net/datastructures/SpatialTreeMap.java:112-118 | a key never put is not found: its search ends at a leaf and `get` returns null |
| SpatialMap.RegionAlongPath | src/net/datastructures/SpatialTreeMap.java:96-103 | every node below slot `q` of an internal node has a region inside quadrant `q` of that node's key |
| SpatialMap.OrderedSubtrees | src/net/datastructures/SpatialTreeMap.java:96-103 | the ordering stated downwards: every key in the subtree below slot `q` of an internal node lies in quadrant `q` of that node's key |
| SpatialMap.Entries | src/net/datastructures/SpatialTreeMap.java:162-168 | the entries at internal nodes number at most the nodes of the tree |
| SpatialMap.EntryIndex | src/net/datastructures/SpatialTreeMap.java:165-166 | every listed entry is the element of some internal node |
| SpatialMap.EntryListed | src/net/datastructures/SpatialTreeMap.java:165-166 | the entry of every internal node is listed |
| SpatialMap.EntriesKeyCount | src/net/datastructures/SpatialTreeMap.java:162-168 | when no key is stored twice, the listed entries have pairwise distinct keys |
| SpatialMap.EntryOfModelListed | src/net/datastructures/SpatialTreeMap.java:162-168 | the entry of every key of the map is listed |
| SpatialMap.EntriesAreModel | src/net/datastructures/SpatialTreeMap.java:162-168 | the listed entries are exactly the entries of the abstract map, one per key |
| SpatialMap.SpatialTreeMap.constructor | src/net/datastructures/SpatialTreeMap.java:29-37 | a new map is empty, and its tree is one sentinel leaf as root |
| SpatialMap.SpatialTreeMap.CheckKey | src/net/datastructures/SpatialTreeMap.java:45-51 | every key compares equal to itself, so every key is valid |
| SpatialMap.SpatialTreeMap.Size | src/net/datastructures/SpatialTreeMap.java:57-62 | `(nodeCount - 1) / 4` is the number of keys in the map |
| SpatialMap.SpatialTreeMap.Get | src/net/datastructures/SpatialTreeMap.java:111-118 | returns the value the abstract map holds for the key, or null when it holds none; it only reads |
| SpatialMap.SpatialTreeMap.ExpandExternal | src/net/datastructures/SpatialTreeMap.java:65-72 | its five tree updates turn leaf `p` into an internal node holding the entry, with four new empty leaves, and grow the node count by 4 |
| SpatialMap.SpatialTreeMap.Put | src/net/datastructures/SpatialTreeMap.java:129-143 | the map becomes `old(model)[key := value]` and the previous value (or null) is returned. A new key expands the leaf its search reached, so the node count grows by 4 and `size()` by 1. An existing key has its entry replaced in place, so the node count stays the same. The invariant is kept |
| SpatialMap.SpatialTreeMap.EntrySet | src/net/datastructures/SpatialTreeMap.java:162-168 | returns exactly the entries at internal nodes; an entry is listed exactly when the map holds it, and the count equals `size()` |
| SpatialMap.SpatialTreeMap.TreeHeight | src/net/datastructures/SpatialTreeMap.java:207-210 | the root's height is 0 exactly when the map is empty |
| SpatialMap.SpatialTreeMap.Remove | src/net/datastructures/SpatialTreeMap.java:151-154 | always fails with UnsupportedOperation and may modify nothing |
| Scenarios.SmallModelFacts | test/net/datastructures/SpatialTreeMapTest.java:52-60 | the seven-entry map holds seven keys, nothing at (0,2) and (-6,-5), and 3, 6 and 0 at (-5,-6), (7,7) and (0,0) |
| Scenarios.SmallBuild | test/net/datastructures/SpatialTreeMapTest.java:13-24 | seven puts on a fresh map give exactly the seven-entry map, with a tree of height 4 |
| Scenarios.SmallMap | test/net/datastructures/SpatialTreeMapTest.java:38-60 | after the seven puts, `size()` is 7, `treeHeight()` is 4, and the five gets return null, null, 3, 6 and 0 |
| Scenarios.TreeSet | test/net/datastructures/LinkedQuadTreeTest.java:80-100 | after two adds and two sets, the root holds "A", its NW child "D" and that child's NE child "M" |
| Scenarios.TreeEverything | test/net/datastructures/LinkedQuadTreeTest.java:102-141 | after `addRoot`, eight adds and three sets, the root holds "H", its NW, NE, SW and SE children "Y", "L", "F" and "B", and the nodes at NW.NW, SW.SE, SW.SE.NE and SW.SE.SE hold "I", "Z", "C" and "U": every final assertion of the test |

## Left out

- `dump` and `dumpRecurse` print debugging text to standard output; printing is not modelled.
- `subMap` is unimplemented and always returns null, so there is nothing to model.
- The `ClassCastException` path of `checkKey` cannot occur: with `int` coordinates every key compares to itself.
- `Comparator`, `DefaultComparator`, `Coord` and `MapEntry` are library types. They are replaced here by the natural order of `int` and plain datatypes.
- `AbstractQuadTree` is not part of this model. From it:
  - `isExternal` and `isInternal` are modelled as `IsLeaf`;
  - `isEmpty` is modelled as a zero node count;
  - `height` is modelled by `QuadTree.Height`: the longest path of child links to a leaf, with a leaf at 0.
- SpatialMap.SpatialTreeMap.EntrySet: the list is ordered by the index of the node that holds each entry, that is, by when that leaf was created, which is neither the order of the puts nor the breadth-first order of `breadthfirst()`. Its contract fixes the whole sequence as `Entries(tree.nodes)`; the source's order of the entries is not modelled.
- Positions are arena indices, not object references. The defunct-node case of `validate` stays as a check but never fires, because nothing can remove a node.
- QuadTree.LinkedQuadTree.Validate: the source does not check that a position belongs to this tree, so a node of another tree is accepted, and `addXX` then updates that tree's node while counting the new node in this tree's `size`. An index cannot name another tree's node, so that aliasing is not modelled. The bound check stands only for the rejection of a position that is not a `Node` at all.
- Null values: a Java value may be null, so `get` returns null both for an absent key and for a key stored with a null value, and `put` returns null in both cases. Here values are never null, and the `Option` results of SpatialMap.SpatialTreeMap.Get and SpatialMap.SpatialTreeMap.Put tell the two cases apart.
- The node count and `size()` are unbounded integers here; Java's 32-bit `int` overflow is not modelled.
- The `medium()` test depends on the output of `java.util.Random`, so it is not reproduced.
- The `addXXTest` cases of `LinkedQuadTreeTest` are covered by the `Add` contracts and by the two trees built in `Scenarios`.
