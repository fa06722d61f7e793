/** The tree in memory. A `Shape` says which node objects make up a subtree and what it holds; `Own` says that the
    objects have exactly that form and are all different. The leaves are chained by their `next` pointers. */
module BTreeHeap {
  import opened Options
  import opened BTreeOrder
  import opened BTreeSpec

  class TreeNode {
    var leaf: bool
    var keys: seq<Expiration>
    var children: seq<TreeNode>
    var next: TreeNode?

    constructor (isLeaf: bool, ks: seq<Expiration>, cs: seq<TreeNode>, n: TreeNode?)
      ensures leaf == isLeaf && keys == ks && children == cs && next == n
    {
      leaf, keys, children, next := isLeaf, ks, cs, n;
    }
  }

  datatype Shape =
    | LeafAt(node: TreeNode, keys: seq<Expiration>)
    | NodeAt(node: TreeNode, keys: seq<Expiration>, kids: seq<Shape>)

  ghost function Nodes(a: Shape): set<TreeNode> {
    if a.LeafAt? then {a.node} else {a.node} + AllNodes(a.kids)
  }

  ghost function AllNodes(cs: seq<Shape>): set<TreeNode> {
    if cs == [] then {} else Nodes(cs[0]) + AllNodes(cs[1..])
  }

  /** No object is used twice. */
  ghost predicate Apart(a: Shape) {
    a.NodeAt? ==> a.node !in AllNodes(a.kids) && AllApart(a.kids)
  }

  ghost predicate AllApart(cs: seq<Shape>) {
    cs != [] ==> Apart(cs[0]) && Nodes(cs[0]) !! AllNodes(cs[1..]) && AllApart(cs[1..])
  }

  ghost function Tops(cs: seq<Shape>): (r: seq<TreeNode>)
    ensures |r| == |cs| && forall i :: 0 <= i < |cs| ==> r[i] == cs[i].node
  {
    if cs == [] then [] else [cs[0].node] + Tops(cs[1..])
  }

  /** The objects have the form that the shape says. */
  ghost predicate At(a: Shape)
    reads Nodes(a)
  {
    && a.node in Nodes(a) && a.node.keys == a.keys
    && if a.LeafAt? then a.node.leaf && a.node.children == []
       else !a.node.leaf && a.node.children == Tops(a.kids) && |a.kids| == |a.keys| + 1 && AllAt(a.kids)
  }

  ghost predicate AllAt(cs: seq<Shape>)
    reads AllNodes(cs)
  {
    cs != [] ==> At(cs[0]) && AllAt(cs[1..])
  }

  ghost predicate Own(a: Shape)
    reads Nodes(a)
  {
    Apart(a) && At(a)
  }

  /** The value of a shape. */
  ghost function Plain(a: Shape): Tree {
    if a.LeafAt? then Leaf(a.keys) else Node(a.keys, AllPlain(a.kids))
  }

  ghost function AllPlain(cs: seq<Shape>): (r: seq<Tree>)
    ensures |r| == |cs|
  {
    if cs == [] then [] else [Plain(cs[0])] + AllPlain(cs[1..])
  }

  /** The leaves, from left to right. */
  ghost function Leaves(a: Shape): seq<TreeNode> {
    if a.LeafAt? then [a.node] else AllLeaves(a.kids)
  }

  ghost function AllLeaves(cs: seq<Shape>): seq<TreeNode> {
    if cs == [] then [] else Leaves(cs[0]) + AllLeaves(cs[1..])
  }

  // ---- lists of shapes ----

  lemma {:induction false} NodesConcat(a: seq<Shape>, b: seq<Shape>)
    ensures AllNodes(a + b) == AllNodes(a) + AllNodes(b)
    decreases |a|
  {
    if a == [] {
      assert a + b == b;
    } else {
      assert (a + b)[1..] == a[1..] + b;
      NodesConcat(a[1..], b);
    }
  }

  lemma {:induction false} LeavesConcat(a: seq<Shape>, b: seq<Shape>)
    ensures AllLeaves(a + b) == AllLeaves(a) + AllLeaves(b)
    decreases |a|
  {
    if a == [] {
      assert a + b == b;
    } else {
      assert (a + b)[1..] == a[1..] + b;
      LeavesConcat(a[1..], b);
    }
  }

  lemma {:induction false} PlainConcat(a: seq<Shape>, b: seq<Shape>)
    ensures AllPlain(a + b) == AllPlain(a) + AllPlain(b)
    decreases |a|
  {
    if a == [] {
      assert a + b == b;
    } else {
      assert (a + b)[1..] == a[1..] + b;
      PlainConcat(a[1..], b);
    }
  }

  lemma {:induction false} ApartConcat(a: seq<Shape>, b: seq<Shape>)
    ensures AllApart(a + b) <==> AllApart(a) && AllApart(b) && AllNodes(a) !! AllNodes(b)
    decreases |a|
  {
    if a == [] {
      assert a + b == b;
    } else {
      assert (a + b)[1..] == a[1..] + b;
      ApartConcat(a[1..], b);
      NodesConcat(a[1..], b);
    }
  }

  lemma {:induction false} Concat(a: seq<Shape>, b: seq<Shape>)
    ensures AllNodes(a + b) == AllNodes(a) + AllNodes(b)
    ensures AllLeaves(a + b) == AllLeaves(a) + AllLeaves(b)
    ensures AllPlain(a + b) == AllPlain(a) + AllPlain(b)
    ensures AllApart(a + b) <==> AllApart(a) && AllApart(b) && AllNodes(a) !! AllNodes(b)
  {
    NodesConcat(a, b);
    LeavesConcat(a, b);
    PlainConcat(a, b);
    ApartConcat(a, b);
  }

  lemma {:induction false} ConcatAt(a: seq<Shape>, b: seq<Shape>)
    ensures AllNodes(a + b) == AllNodes(a) + AllNodes(b)
    ensures AllAt(a + b) <==> AllAt(a) && AllAt(b)
    decreases |a|
  {
    NodesConcat(a, b);
    if a == [] {
      assert a + b == b;
    } else {
      assert (a + b)[1..] == a[1..] + b;
      ConcatAt(a[1..], b);
    }
  }

  lemma {:induction false} One(a: Shape)
    ensures AllNodes([a]) == Nodes(a) && AllLeaves([a]) == Leaves(a) && AllPlain([a]) == [Plain(a)]
    ensures AllApart([a]) <==> Apart(a)
  {
    assert [a][1..] == [];
  }

  lemma {:induction false} OneAt(a: Shape)
    ensures AllNodes([a]) == Nodes(a) && (AllAt([a]) <==> At(a))
  {
    assert [a][1..] == [];
    One(a);
  }

  lemma {:induction false} PlainAt(cs: seq<Shape>, i: nat)
    requires i < |cs|
    ensures AllPlain(cs)[i] == Plain(cs[i])
    decreases |cs|
  {
    if i > 0 { PlainAt(cs[1..], i - 1); }
  }

  // ---- the chain ----

  ghost function After(ls: seq<TreeNode>, i: nat, tail: TreeNode?): TreeNode? {
    if i + 1 < |ls| then ls[i + 1] else tail
  }

  /** The chain of `next` pointers follows the list and goes on to `tail`. */
  ghost predicate Linked(ls: seq<TreeNode>, tail: TreeNode?)
    reads ls
  {
    forall i :: 0 <= i < |ls| ==> ls[i].next == After(ls, i, tail)
  }

  ghost function First(ls: seq<TreeNode>, tail: TreeNode?): TreeNode? {
    if ls == [] then tail else ls[0]
  }

  lemma {:induction false} LinkedConcat(a: seq<TreeNode>, b: seq<TreeNode>, tail: TreeNode?)
    ensures Linked(a + b, tail) <==> Linked(a, First(b, tail)) && Linked(b, tail)
  {
    var s := a + b;
    if Linked(s, tail) {
      forall i | 0 <= i < |a| ensures a[i].next == After(a, i, First(b, tail)) {
        assert s[i].next == After(s, i, tail);
      }
      forall i | 0 <= i < |b| ensures b[i].next == After(b, i, tail) {
        assert s[|a| + i].next == After(s, |a| + i, tail);
      }
    }
    if Linked(a, First(b, tail)) && Linked(b, tail) {
      forall i | 0 <= i < |s| ensures s[i].next == After(s, i, tail) {
        if i < |a| { assert s[i] == a[i]; } else { assert s[i] == b[i - |a|]; }
      }
    }
  }

  // ---- one child and its neighbours ----

  lemma {:induction false} LeavesInNodes(a: Shape)
    ensures forall l :: l in Leaves(a) ==> l in Nodes(a)
    decreases a, 0
  {
    if a.NodeAt? { AllLeavesInNodes(a.kids); }
  }

  lemma {:induction false} AllLeavesInNodes(cs: seq<Shape>)
    ensures forall l :: l in AllLeaves(cs) ==> l in AllNodes(cs)
    decreases cs, 1
  {
    if cs != [] {
      LeavesInNodes(cs[0]);
      AllLeavesInNodes(cs[1..]);
    }
  }

  lemma {:induction false} HasLeaf(a: Shape)
    requires At(a)
    ensures Leaves(a) != []
    decreases a
  {
    if a.NodeAt? { HasLeaf(a.kids[0]); }
  }

  /** Three parts of a list of shapes. */
  lemma {:induction false} Parts(l: seq<Shape>, m: seq<Shape>, r: seq<Shape>)
    ensures AllNodes(l + m + r) == AllNodes(l) + AllNodes(m) + AllNodes(r)
    ensures AllLeaves(l + m + r) == AllLeaves(l) + (AllLeaves(m) + AllLeaves(r))
    ensures AllPlain(l + m + r) == AllPlain(l) + AllPlain(m) + AllPlain(r)
    ensures AllApart(l + m + r) <==>
            && AllApart(l) && AllApart(m) && AllApart(r)
            && AllNodes(l) !! AllNodes(m) && AllNodes(l) !! AllNodes(r) && AllNodes(m) !! AllNodes(r)
  {
    assert l + m + r == l + (m + r);
    Concat(l, m + r);
    Concat(m, r);
  }

  lemma {:induction false} PartsAt(l: seq<Shape>, m: seq<Shape>, r: seq<Shape>)
    ensures AllNodes(l + m + r) == AllNodes(l) + AllNodes(m) + AllNodes(r)
    ensures AllAt(l + m + r) <==> AllAt(l) && AllAt(m) && AllAt(r)
  {
    Parts(l, m, r);
    ConcatAt(l + m, r);
    ConcatAt(l, m);
  }

  // ---- a node, taken apart and put together ----

  lemma {:induction false} CutAt(cs: seq<Shape>, i: nat) returns (l: seq<Shape>, r: seq<Shape>)
    requires i <= |cs|
    ensures cs == l + r && |l| == i
  {
    l, r := cs[..i], cs[i..];
  }

  lemma {:induction false} CutAround(cs: seq<Shape>, i: nat) returns (l: seq<Shape>, k: Shape, r: seq<Shape>)
    requires i < |cs|
    ensures cs == l + [k] + r && |l| == i && k == cs[i]
  {
    l, k, r := cs[..i], cs[i], cs[i + 1..];
  }

  /** The chain through three parts of the leaves. */
  lemma {:induction false} ChainParts(l: seq<TreeNode>, m: seq<TreeNode>, r: seq<TreeNode>, tail: TreeNode?)
    ensures Linked(l + (m + r), tail) <==>
            Linked(l, First(m, First(r, tail))) && Linked(m, First(r, tail)) && Linked(r, tail)
  {
    LinkedConcat(l, m + r, tail);
    LinkedConcat(m, r, tail);
    assert First(m + r, tail) == First(m, First(r, tail));
  }

  /** A node without some of its children: the node itself, the children before and after, and the chain through them.
      The chain goes on to `first` in the middle, and to `tail` at the end. */
  ghost predicate Around(node: TreeNode, l: seq<Shape>, r: seq<Shape>, first: TreeNode, tail: TreeNode?)
    reads AllNodes(l), AllNodes(r)
  {
    AllLeavesInNodes(l);
    AllLeavesInNodes(r);
    && AllApart(l) && AllApart(r) && AllAt(l) && AllAt(r) && AllNodes(l) !! AllNodes(r)
    && node !in AllNodes(l) && node !in AllNodes(r)
    && Linked(AllLeaves(l), first) && Linked(AllLeaves(r), tail)
  }

  /** None of these objects is the node or below its other children. */
  ghost predicate Free(node: TreeNode, l: seq<Shape>, r: seq<Shape>, s: set<TreeNode>) {
    node !in s && s !! AllNodes(l) && s !! AllNodes(r)
  }

  /** The chain goes on behind the middle children. */
  ghost function Behind(r: seq<Shape>, tail: TreeNode?): TreeNode? {
    First(AllLeaves(r), tail)
  }

  /** A list of subtrees with at least one leaf, chained and sharing nothing. */
  ghost predicate Chained(m: seq<Shape>, first: TreeNode, after: TreeNode?)
    reads AllNodes(m)
  {
    AllLeavesInNodes(m);
    AllApart(m) && AllAt(m) && AllLeaves(m) != [] && AllLeaves(m)[0] == first && Linked(AllLeaves(m), after)
  }

  lemma {:induction false} TakeOut(node: TreeNode, keys: seq<Expiration>, l: seq<Shape>, m: seq<Shape>, r: seq<Shape>,
                                   tail: TreeNode?)
    requires Own(NodeAt(node, keys, l + m + r)) && Linked(AllLeaves(l + m + r), tail) && AllLeaves(m) != []
    ensures Around(node, l, r, AllLeaves(m)[0], tail) && Chained(m, AllLeaves(m)[0], Behind(r, tail))
    ensures Free(node, l, r, AllNodes(m))
    ensures Nodes(NodeAt(node, keys, l + m + r)) == {node} + AllNodes(l) + AllNodes(m) + AllNodes(r)
  {
    Parts(l, m, r);
    PartsAt(l, m, r);
    ChainParts(AllLeaves(l), AllLeaves(m), AllLeaves(r), tail);
  }

  lemma {:induction false} PutIn(node: TreeNode, keys: seq<Expiration>, l: seq<Shape>, m: seq<Shape>, r: seq<Shape>,
                                 first: TreeNode, tail: TreeNode?)
    requires Around(node, l, r, first, tail) && Chained(m, first, Behind(r, tail)) && Free(node, l, r, AllNodes(m))
    requires !node.leaf && node.keys == keys && |l| + |m| + |r| == |keys| + 1 && node.children == Tops(l + m + r)
    ensures var b := NodeAt(node, keys, l + m + r);
            && Own(b) && Linked(Leaves(b), tail) && Nodes(b) == {node} + AllNodes(l) + AllNodes(m) + AllNodes(r)
            && Leaves(b) != [] && Leaves(b)[0] == Head(l, first)
  {
    Parts(l, m, r);
    PartsAt(l, m, r);
    ChainParts(AllLeaves(l), AllLeaves(m), AllLeaves(r), tail);
  }

  /** The first leaf of a node whose middle children begin with the leaf `first`. */
  ghost function Head(l: seq<Shape>, first: TreeNode): TreeNode {
    if AllLeaves(l) == [] then first else AllLeaves(l)[0]
  }

  lemma {:induction false} HeadIs(l: seq<Shape>, m: seq<Shape>, r: seq<Shape>)
    requires AllLeaves(m) != []
    ensures AllLeaves(l + m + r) != [] && AllLeaves(l + m + r)[0] == Head(l, AllLeaves(m)[0])
  {
    Parts(l, m, r);
  }

  lemma {:induction false} PlainParts(l: seq<Shape>, m: seq<Shape>, r: seq<Shape>)
    ensures AllPlain(l + m + r) == AllPlain(l) + AllPlain(m) + AllPlain(r)
  {
    PlainConcat(l + m, r);
    PlainConcat(l, m);
  }

  lemma {:induction false} TopsConcat(a: seq<Shape>, b: seq<Shape>)
    ensures Tops(a + b) == Tops(a) + Tops(b)
    decreases |a|
  {
    if a == [] {
      assert a + b == b;
    } else {
      assert (a + b)[1..] == a[1..] + b;
      TopsConcat(a[1..], b);
    }
  }

  lemma {:induction false} TopsParts(l: seq<Shape>, m: seq<Shape>, r: seq<Shape>)
    ensures Tops(l + m + r) == Tops(l) + Tops(m) + Tops(r)
  {
    TopsConcat(l + m, r);
    TopsConcat(l, m);
  }

  // ---- one and two shapes ----

  lemma {:induction false} OneChained(p: Shape, after: TreeNode?)
    requires Own(p) && Linked(Leaves(p), after)
    ensures Leaves(p) != [] && Chained([p], Leaves(p)[0], after)
    ensures AllNodes([p]) == Nodes(p) && AllPlain([p]) == [Plain(p)] && Tops([p]) == [p.node]
  {
    One(p);
    OneAt(p);
    HasLeaf(p);
  }

  lemma {:induction false} ChainedOne(p: Shape, first: TreeNode, after: TreeNode?)
    requires Chained([p], first, after)
    ensures Own(p) && Linked(Leaves(p), after) && Leaves(p) != [] && Leaves(p)[0] == first
  {
    One(p);
    OneAt(p);
  }

  lemma {:induction false} TwoChained(p: Shape, q: Shape, after: TreeNode?)
    requires Own(p) && Own(q) && Nodes(p) !! Nodes(q) && Linked(Leaves(p) + Leaves(q), after)
    ensures Leaves(p) != [] && Chained([p, q], Leaves(p)[0], after)
    ensures AllNodes([p, q]) == Nodes(p) + Nodes(q)
  {
    assert [p, q] == [p] + [q];
    Concat([p], [q]);
    ConcatAt([p], [q]);
    One(p);
    One(q);
    OneAt(p);
    OneAt(q);
    HasLeaf(p);
  }

  lemma {:induction false} TwoFlat(p: Shape, q: Shape)
    ensures AllPlain([p, q]) == [Plain(p), Plain(q)] && Tops([p, q]) == [p.node, q.node]
  {
    assert [p, q] == [p] + [q];
    PlainConcat([p], [q]);
    One(p);
    One(q);
  }
}
