/** The binary tree of nodes the root owns: leaf enumeration, dot-path
    resolution and the fixed 15-node layout. */
module Trees {
  import opened Values
  import opened Nodes

  /** Internal nodes own exactly two children; leaves own none. */
  datatype Tree = Leaf(node: BSTNode) | Node(node: BSTNode, left: Tree, right: Tree) {
    function Id(): string {
      node.Id()
    }
  }

  /** The ids of every node in the tree. */
  function AllIds(t: Tree): set<string> {
    match t
    case Leaf(n) => {n.Id()}
    case Node(n, l, r) => {n.Id()} + AllIds(l) + AllIds(r)
  }

  /** `_collect_all_leaves`: every leaf, the left subtree's before the right's. */
  function CollectLeaves(t: Tree): (leaves: seq<BSTNode>)
    ensures |leaves| >= 1
  {
    match t
    case Leaf(n) => [n]
    case Node(_, l, r) => CollectLeaves(l) + CollectLeaves(r)
  }

  /** The ids of the leaves, in the order `_collect_all_leaves` yields them. */
  function LeafIds(t: Tree): (ids: seq<string>)
    ensures |ids| == |CollectLeaves(t)|
    ensures forall k :: 0 <= k < |ids| ==> ids[k] == CollectLeaves(t)[k].Id()
  {
    match t
    case Leaf(n) => [n.Id()]
    case Node(_, l, r) => LeafIds(l) + LeafIds(r)
  }

  function LeafIdSet(t: Tree): set<string> {
    match t
    case Leaf(n) => {n.Id()}
    case Node(_, l, r) => LeafIdSet(l) + LeafIdSet(r)
  }

  function LeafObjects(t: Tree): set<BSTNode> {
    match t
    case Leaf(n) => {n}
    case Node(_, l, r) => LeafObjects(l) + LeafObjects(r)
  }

  /** Node ids are unique across the tree (the allocator and the path walk key
      nodes by id), and the datatype's shape agrees with each node's level. */
  predicate Wf(t: Tree) {
    match t
    case Leaf(n) => n.IsLeaf()
    case Node(n, l, r) =>
      && !n.IsLeaf()
      && Wf(l) && Wf(r)
      && AllIds(l) !! AllIds(r)
      && n.Id() !in AllIds(l) + AllIds(r)
  }

  lemma {:induction false} LeafIdSetInAllIds(t: Tree)
    ensures LeafIdSet(t) <= AllIds(t)
  {
    match t
    case Leaf(_) =>
    case Node(_, l, r) => LeafIdSetInAllIds(l); LeafIdSetInAllIds(r);
  }

  lemma {:induction false} LeafObjectIds(t: Tree, n: BSTNode)
    requires n in LeafObjects(t)
    ensures n.Id() in LeafIdSet(t)
  {
    match t
    case Leaf(_) =>
    case Node(_, l, r) =>
      if n in LeafObjects(l) { LeafObjectIds(l, n); } else { LeafObjectIds(r, n); }
  }

  /** The node objects a tree value holds are allocated. */
  lemma {:induction false} LeafObjectsAllocated(t: Tree)
    ensures forall n :: n in LeafObjects(t) ==> allocated(n)
  {
    match t
    case Leaf(_) =>
    case Node(_, l, r) =>
      LeafObjectsAllocated(l);
      LeafObjectsAllocated(r);
  }

  /** `_collect_all_leaves` returns exactly the leaf set, each leaf once. */
  lemma {:induction false} CollectLeavesExact(t: Tree)
    requires Wf(t)
    ensures forall n :: n in CollectLeaves(t) <==> n in LeafObjects(t)
    ensures forall i, j :: 0 <= i < j < |LeafIds(t)| ==> LeafIds(t)[i] != LeafIds(t)[j]
    ensures forall id :: id in LeafIds(t) <==> id in LeafIdSet(t)
  {
    match t
    case Leaf(_) =>
    case Node(_, l, r) =>
      CollectLeavesExact(l);
      CollectLeavesExact(r);
      LeafIdSetInAllIds(l);
      LeafIdSetInAllIds(r);
      var a, b := LeafIds(l), LeafIds(r);
      forall i, j | 0 <= i < j < |a + b|
        ensures (a + b)[i] != (a + b)[j]
      {
        if j < |a| {
        } else if i >= |a| {
          assert (a + b)[i] == b[i - |a|] && (a + b)[j] == b[j - |a|];
        } else {
          assert (a + b)[i] == a[i] && a[i] in LeafIdSet(l);
          assert (a + b)[j] == b[j - |a|] && b[j - |a|] in LeafIdSet(r);
        }
      }
  }

  /** Sibling subtrees of a well-formed tree share no leaf object. */
  lemma SiblingLeavesDisjoint(t: Tree)
    requires Wf(t) && t.Node?
    ensures LeafObjects(t.left) !! LeafObjects(t.right)
    ensures LeafIdSet(t.left) !! LeafIdSet(t.right)
  {
    LeafIdSetInAllIds(t.left);
    LeafIdSetInAllIds(t.right);
    forall n | n in LeafObjects(t.left) && n in LeafObjects(t.right)
      ensures false
    {
      LeafObjectIds(t.left, n);
      LeafObjectIds(t.right, n);
    }
  }

  /** Every leaf id belongs to a leaf object of the tree. */
  lemma {:induction false} LeafWithId(t: Tree, id: string) returns (m: BSTNode)
    requires id in LeafIdSet(t)
    ensures m in LeafObjects(t) && m.Id() == id
  {
    match t
    case Leaf(n) => m := n;
    case Node(_, l, r) =>
      if id in LeafIdSet(l) { m := LeafWithId(l, id); } else { m := LeafWithId(r, id); }
  }

  /** In a well-formed tree a leaf's id names that leaf alone. */
  lemma {:induction false} LeafIdsDistinguish(t: Tree, n: BSTNode, m: BSTNode)
    requires Wf(t) && n in LeafObjects(t) && m in LeafObjects(t) && n.Id() == m.Id()
    ensures n == m
  {
    match t
    case Leaf(_) =>
    case Node(_, l, r) =>
      SiblingLeavesDisjoint(t);
      if n in LeafObjects(l) && m in LeafObjects(l) {
        LeafIdsDistinguish(l, n, m);
      } else if n in LeafObjects(r) && m in LeafObjects(r) {
        LeafIdsDistinguish(r, n, m);
      } else if n in LeafObjects(l) {
        LeafObjectIds(l, n);
        LeafObjectIds(r, m);
      } else {
        LeafObjectIds(r, n);
        LeafObjectIds(l, m);
      }
  }

  /** `s` occurs somewhere in `t` (possibly as `t` itself). */
  predicate IsSubtree(s: Tree, t: Tree) {
    s == t || (t.Node? && (IsSubtree(s, t.left) || IsSubtree(s, t.right)))
  }

  lemma {:induction false} SubtreeInherits(s: Tree, t: Tree)
    requires IsSubtree(s, t) && Wf(t)
    ensures Wf(s)
    ensures LeafObjects(s) <= LeafObjects(t)
    ensures LeafIdSet(s) <= LeafIdSet(t)
  {
    if s != t {
      if IsSubtree(s, t.left) { SubtreeInherits(s, t.left); } else { SubtreeInherits(s, t.right); }
    }
  }

  /** A leaf of `t` outside the subtree `s` has an id that `s` does not hold. */
  lemma OutsideLeafId(s: Tree, t: Tree, n: BSTNode)
    requires IsSubtree(s, t) && Wf(t) && n in LeafObjects(t) && n !in LeafObjects(s)
    ensures n.Id() !in LeafIdSet(s)
  {
    SubtreeInherits(s, t);
    if n.Id() in LeafIdSet(s) {
      var m := LeafWithId(s, n.Id());
      LeafIdsDistinguish(t, n, m);
      assert false;
    }
  }

  /** Python's `s.split(sep)`: the pieces between separators, empty pieces kept. */
  function Split(s: string, sep: char): (parts: seq<string>)
    ensures |parts| >= 1
  {
    if s == [] then [""]
    else
      var rest := Split(s[1..], sep);
      if s[0] == sep then [""] + rest else [[s[0]] + rest[0]] + rest[1..]
  }

  /** Joining pieces that contain no separator and splitting again gives them back. */
  function Join(parts: seq<string>, sep: char): string
    requires |parts| >= 1
  {
    if |parts| == 1 then parts[0] else parts[0] + [sep] + Join(parts[1..], sep)
  }

  lemma {:induction false} SplitJoin(parts: seq<string>, sep: char)
    requires |parts| >= 1
    requires forall k :: 0 <= k < |parts| ==> sep !in parts[k]
    ensures Split(Join(parts, sep), sep) == parts
    decreases |parts|, |parts[0]|
  {
    var p := parts[0];
    if p == [] {
      if |parts| > 1 {
        assert Join(parts, sep) == [sep] + Join(parts[1..], sep);
        assert Join(parts, sep)[1..] == Join(parts[1..], sep);
        SplitJoin(parts[1..], sep);
        assert [""] + parts[1..] == parts;
      }
    } else {
      var tail := [p[1..]] + parts[1..];
      assert forall k :: 0 <= k < |tail| ==> sep !in tail[k] by {
        forall k | 0 <= k < |tail| ensures sep !in tail[k] {
          if k == 0 { assert forall c :: c in p[1..] ==> c in p; } else { assert tail[k] == parts[k]; }
        }
      }
      var j := Join(parts, sep);
      assert j[0] == p[0] && p[0] != sep;
      assert j[1..] == Join(tail, sep) by {
        if |parts| == 1 {
        } else {
          assert j == p + [sep] + Join(parts[1..], sep);
          assert Join(tail, sep) == p[1..] + [sep] + Join(tail[1..], sep);
          assert tail[1..] == parts[1..];
        }
      }
      SplitJoin(tail, sep);
      assert [p[0]] + p[1..] == p;
      assert [[p[0]] + p[1..]] + parts[1..] == parts;
    }
  }

  /** `_get_node_by_path` after the split: walk down by matching a child's id,
      skipping every segment equal to the root's id; None on the first segment
      that matches neither child (a leaf has no children to match). */
  function Resolve(current: Tree, parts: seq<string>, rootId: string): Option<Tree>
    decreases |parts|
  {
    if parts == [] then Some(current)
    else if parts[0] == rootId then Resolve(current, parts[1..], rootId)
    else match current
      case Leaf(_) => None
      case Node(_, l, r) =>
        if l.Id() == parts[0] then Resolve(l, parts[1..], rootId)
        else if r.Id() == parts[0] then Resolve(r, parts[1..], rootId)
        else None
  }

  /** Whatever a path resolves to lies inside the tree it was resolved in. */
  lemma {:induction false} ResolveGivesSubtree(current: Tree, parts: seq<string>, rootId: string)
    requires Resolve(current, parts, rootId).Some?
    ensures IsSubtree(Resolve(current, parts, rootId).value, current)
    decreases |parts|
  {
    if parts == [] {
    } else if parts[0] == rootId {
      ResolveGivesSubtree(current, parts[1..], rootId);
    } else {
      var l, r := current.left, current.right;
      if l.Id() == parts[0] {
        ResolveGivesSubtree(l, parts[1..], rootId);
        SubtreeTransitive(Resolve(l, parts[1..], rootId).value, l, current);
      } else {
        ResolveGivesSubtree(r, parts[1..], rootId);
        SubtreeTransitive(Resolve(r, parts[1..], rootId).value, r, current);
      }
    }
  }

  lemma {:induction false} SubtreeTransitive(a: Tree, b: Tree, c: Tree)
    requires IsSubtree(a, b)
    requires c.Node? && (b == c.left || b == c.right)
    ensures IsSubtree(a, c)
  {
  }

  /** Ids of the fixed tree, level by level. */
  const RootId := "M000"
  const BuiltLeafIds: seq<string> := ["M111", "M112", "M121", "M122", "M211", "M212", "M221", "M222"]

  /** The id layout the root builds: M000 over M100 and M200, each over two
      handlers, each over two leaves. */
  predicate HasBuiltLayout(t: Tree) {
    && t.Node? && t.Id() == "M000"
    && Quad(t.left, "M100", "M110", "M111", "M112", "M120", "M121", "M122")
    && Quad(t.right, "M200", "M210", "M211", "M212", "M220", "M221", "M222")
  }

  predicate Quad(t: Tree, top: string, a: string, a1: string, a2: string, b: string, b1: string, b2: string) {
    && t.Node? && t.Id() == top
    && Pair(t.left, a, a1, a2)
    && Pair(t.right, b, b1, b2)
  }

  predicate Pair(t: Tree, top: string, l: string, r: string) {
    && t.Node? && t.Id() == top
    && t.left.Leaf? && t.left.Id() == l
    && t.right.Leaf? && t.right.Id() == r
  }

  /** The built tree has exactly the eight leaves M111 … M222, left to right. */
  lemma BuiltLeaves(t: Tree)
    requires HasBuiltLayout(t)
    ensures LeafIds(t) == BuiltLeafIds
    ensures LeafIdSet(t) == {"M111", "M112", "M121", "M122", "M211", "M212", "M221", "M222"}
    ensures |CollectLeaves(t)| == 8
  {
    var m1, m2 := t.left, t.right;
    assert LeafIds(m1.left) == ["M111", "M112"] && LeafIds(m1.right) == ["M121", "M122"];
    assert LeafIds(m2.left) == ["M211", "M212"] && LeafIds(m2.right) == ["M221", "M222"];
    assert LeafIds(m1) == ["M111", "M112", "M121", "M122"];
    assert LeafIds(m2) == ["M211", "M212", "M221", "M222"];
    assert LeafIdSet(m1.left) == {"M111", "M112"} && LeafIdSet(m1.right) == {"M121", "M122"};
    assert LeafIdSet(m2.left) == {"M211", "M212"} && LeafIdSet(m2.right) == {"M221", "M222"};
  }

  /** "M100.M110.M111" resolves to the leaf M111. */
  lemma ResolveM111(t: Tree)
    requires HasBuiltLayout(t)
    ensures Resolve(t, Split("M100.M110.M111", '.'), RootId) == Some(t.left.left.left)
    ensures t.left.left.left.Id() == "M111"
  {
    var parts := ["M100", "M110", "M111"];
    assert Join(parts[2..], '.') == "M111";
    assert Join(parts[1..], '.') == "M110.M111";
    assert Join(parts, '.') == "M100.M110.M111";
    SplitJoin(parts, '.');
    var m100 := t.left;
    var m110 := m100.left;
    assert Resolve(m110.left, [], RootId) == Some(m110.left);
    assert Resolve(m110, ["M111"], RootId) == Some(m110.left);
    assert Resolve(m100, ["M110", "M111"], RootId) == Some(m110.left);
  }
}
