/** The repair of a node one of whose children has lost a key, and the recursive deletion. */
module BTreeFix {
  import opened Options
  import opened BTreeOrder
  import opened BTreeSpec
  import opened BTreeGood
  import opened BTreeHeap
  import opened BTreeDelete

  /** What a repair or a deletion leaves behind: the same node and the same first leaf, with no new objects. */
  ghost predicate NodeDone(node: TreeNode, first: TreeNode, nodes: set<TreeNode>, tail: TreeNode?, b: Shape)
    reads Nodes(b), Leaves(b)
  {
    && Own(b) && b.node == node && Nodes(b) <= nodes
    && Leaves(b) != [] && Leaves(b)[0] == first && Linked(Leaves(b), tail)
  }

  lemma {:induction false} CutPair(cs: seq<Shape>, j: nat) returns (l: seq<Shape>, p: Shape, q: Shape, r: seq<Shape>)
    requires j + 1 < |cs|
    ensures cs == l + [p, q] + r && |l| == j && p == cs[j] && q == cs[j + 1]
  {
    l, p, q, r := cs[..j], cs[j], cs[j + 1], cs[j + 2..];
  }

  /** The middle of a node is a pair of neighbours. */
  ghost predicate PairIn(n: TreeNode, keys: seq<Expiration>, l: seq<Shape>, p: Shape, q: Shape, r: seq<Shape>,
                         tail: TreeNode?)
    reads n, AllNodes(l), AllNodes(r), Nodes(p), Nodes(q), Leaves(p), Leaves(q)
  {
    && Neighbours(p, q) && Free(n, l, r, Nodes(p) + Nodes(q)) && Linked(Leaves(p) + Leaves(q), Behind(r, tail))
    && Leaves(p) != [] && Around(n, l, r, Leaves(p)[0], tail)
    && !n.leaf && n.keys == keys && |l| + 1 + |r| == |keys| && n.children == Tops(l + [p, q] + r)
  }

  lemma {:induction false} PairsApart(p: Shape, q: Shape)
    requires AllApart([p, q]) && AllAt([p, q])
    ensures Own(p) && Own(q) && Nodes(p) !! Nodes(q) && AllNodes([p, q]) == Nodes(p) + Nodes(q)
    ensures AllLeaves([p, q]) == Leaves(p) + Leaves(q)
  {
    assert [p, q] == [p] + [q];
    Concat([p], [q]);
    ConcatAt([p], [q]);
    One(p);
    One(q);
    OneAt(p);
    OneAt(q);
  }

  lemma {:induction false} TakeOutPair(n: TreeNode, keys: seq<Expiration>, l: seq<Shape>, p: Shape, q: Shape, r: seq<Shape>,
                                       tail: TreeNode?)
    requires Own(NodeAt(n, keys, l + [p, q] + r)) && Linked(AllLeaves(l + [p, q] + r), tail)
    requires p.LeafAt? <==> q.LeafAt?
    ensures PairIn(n, keys, l, p, q, r, tail)
    ensures Nodes(NodeAt(n, keys, l + [p, q] + r)) == {n} + AllNodes(l) + (Nodes(p) + Nodes(q)) + AllNodes(r)
    ensures AllLeaves(l + [p, q] + r) != [] && AllLeaves(l + [p, q] + r)[0] == Head(l, Leaves(p)[0])
  {
    PartsAt(l, [p, q], r);
    Parts(l, [p, q], r);
    PairsApart(p, q);
    HasLeaf(p);
    TakeOut(n, keys, l, [p, q], r, tail);
    HeadIs(l, [p, q], r);
  }

  // ---- values ----

  lemma {:induction false} PairValue(n: TreeNode, keys: seq<Expiration>, l: seq<Shape>, p: Shape, q: Shape, r: seq<Shape>)
    requires |l| + 1 + |r| == |keys|
    ensures var t := Plain(NodeAt(n, keys, l + [p, q] + r));
            Proper(t) && PairAt(t, |l|) == PairOf(p, keys[|l|], q)
  {
    PlainParts(l, [p, q], r);
    TwoFlat(p, q);
  }

  lemma {:induction false} PutPairValue(n: TreeNode, keys: seq<Expiration>, l: seq<Shape>, p: Shape, q: Shape, r: seq<Shape>,
                                        p': Shape, key: Expiration, q': Shape)
    requires |l| + 1 + |r| == |keys|
    ensures PutPair(Plain(NodeAt(n, keys, l + [p, q] + r)), |l|, PairOf(p', key, q'))
            == Plain(NodeAt(n, keys[|l| := key], l + [p', q'] + r))
  {
    PlainParts(l, [p, q], r);
    PlainParts(l, [p', q'], r);
    TwoFlat(p, q);
    TwoFlat(p', q');
    var a, b, i := AllPlain(l), AllPlain(r), |l|;
    assert (a + [Plain(p), Plain(q)] + b)[i := Plain(p')][i + 1 := Plain(q')] == a + [Plain(p'), Plain(q')] + b;
  }

  lemma {:induction false} PutJoinedValue(n: TreeNode, keys: seq<Expiration>, l: seq<Shape>, p: Shape, q: Shape,
                                          r: seq<Shape>, m: Shape)
    requires |l| + 1 + |r| == |keys|
    ensures PutJoined(Plain(NodeAt(n, keys, l + [p, q] + r)), |l|, Plain(m))
            == Plain(NodeAt(n, RemoveAt(keys, |l|), l + [m] + r))
  {
    PlainParts(l, [p, q], r);
    PlainParts(l, [m], r);
    TwoFlat(p, q);
    One(m);
    var a, b, i := AllPlain(l), AllPlain(r), |l|;
    assert RemoveAt((a + [Plain(p), Plain(q)] + b)[i := Plain(m)], i + 1) == a + [Plain(m)] + b;
  }

  // ---- the three repairs ----

  lemma {:induction false} SameTops(l: seq<Shape>, p: Shape, q: Shape, r: seq<Shape>, p': Shape, q': Shape)
    requires p'.node == p.node && q'.node == q.node
    ensures Tops(l + [p, q] + r) == Tops(l + [p', q'] + r)
    ensures Tops(l + [p, q] + r)[|l|] == p.node && Tops(l + [p, q] + r)[|l| + 1] == q.node
  {
    TopsParts(l, [p, q], r);
    TopsParts(l, [p', q'], r);
    TwoFlat(p, q);
    TwoFlat(p', q');
  }

  /** The pair has exchanged something, and everything else is as it was. */
  ghost predicate PairOut(n: TreeNode, keys: seq<Expiration>, l: seq<Shape>, p: Shape, q: Shape, r: seq<Shape>,
                          p': Shape, q': Shape, tail: TreeNode?)
    reads n, AllNodes(l), AllNodes(r), Nodes(p'), Nodes(q'), Leaves(p'), Leaves(q')
  {
    && Leaves(p) != [] && Around(n, l, r, Leaves(p)[0], tail) && Exchanged(p, q, p', q')
    && Free(n, l, r, Nodes(p) + Nodes(q)) && Linked(Leaves(p') + Leaves(q'), Behind(r, tail))
    && !n.leaf && n.keys == keys && |l| + 1 + |r| == |keys| && n.children == Tops(l + [p, q] + r)
  }

  /** Puts an exchanged pair back, with its new separator. */
  lemma {:induction false} PutBack(n: TreeNode, keys: seq<Expiration>, l: seq<Shape>, p: Shape, q: Shape, r: seq<Shape>,
                                   p': Shape, q': Shape, tail: TreeNode?)
    requires PairOut(n, keys, l, p, q, r, p', q', tail)
    ensures NodeDone(n, Head(l, Leaves(p)[0]), {n} + AllNodes(l) + (Nodes(p) + Nodes(q)) + AllNodes(r), tail,
                     NodeAt(n, keys, l + [p', q'] + r))
  {
    TwoChained(p', q', Behind(r, tail));
    SameTops(l, p, q, r, p', q');
    PutIn(n, keys, l, [p', q'], r, Leaves(p)[0], tail);
  }

  method ExchangeLeft(n: TreeNode, j: nat, ghost l: seq<Shape>, ghost p: Shape, ghost q: Shape, ghost r: seq<Shape>,
                      ghost tail: TreeNode?)
    returns (key: Expiration, ghost p': Shape, ghost q': Shape)
    requires PairIn(n, n.keys, l, p, q, r, tail) && j == |l| && |p.keys| >= 2
    modifies p.node`keys, p.node`children, q.node`keys, q.node`children
    ensures n.keys == old(n.keys) && PairOut(n, n.keys, l, p, q, r, p', q', tail)
    ensures LendLast(PairOf(p, n.keys[j], q)) == PairOf(p', key, q')
  {
    SameTops(l, p, q, r, p, q);
    ghost var around := Around(n, l, r, Leaves(p)[0], tail);
    assert allocated(l) && allocated(AllNodes(l)) && allocated(r) && allocated(AllNodes(r));
    key, p', q' := BorrowFromLeft(n.children[j], n.children[j + 1], n.keys[j], p, q, Behind(r, tail));
    assert Around(n, l, r, Leaves(p)[0], tail) == around;
  }

  method BorrowLeft(n: TreeNode, j: nat, ghost l: seq<Shape>, ghost p: Shape, ghost q: Shape, ghost r: seq<Shape>,
                    ghost tail: TreeNode?)
    returns (ghost b: Shape)
    requires PairIn(n, n.keys, l, p, q, r, tail) && j == |l| && |p.keys| >= 2
    modifies n`keys, p.node`keys, p.node`children, q.node`keys, q.node`children
    ensures NodeDone(n, Head(l, Leaves(p)[0]), {n} + AllNodes(l) + (Nodes(p) + Nodes(q)) + AllNodes(r), tail, b)
    ensures var t := Plain(NodeAt(n, old(n.keys), l + [p, q] + r));
            Proper(t) && Plain(b) == PutPair(t, j, LendLast(PairAt(t, j)))
  {
    PairValue(n, n.keys, l, p, q, r);
    ghost var keys := n.keys;
    var key, p', q' := ExchangeLeft(n, j, l, p, q, r, tail);
    ghost var around := Around(n, l, r, Leaves(p)[0], tail);
    n.keys := n.keys[j := key];
    assert Around(n, l, r, Leaves(p)[0], tail) == around;
    PutBack(n, n.keys, l, p, q, r, p', q', tail);
    PutPairValue(n, keys, l, p, q, r, p', key, q');
    b := NodeAt(n, n.keys, l + [p', q'] + r);
  }

  method ExchangeRight(n: TreeNode, j: nat, ghost l: seq<Shape>, ghost p: Shape, ghost q: Shape, ghost r: seq<Shape>,
                       ghost tail: TreeNode?)
    returns (key: Expiration, ghost p': Shape, ghost q': Shape)
    requires PairIn(n, n.keys, l, p, q, r, tail) && j == |l| && |q.keys| >= 2
    modifies p.node`keys, p.node`children, q.node`keys, q.node`children
    ensures n.keys == old(n.keys) && PairOut(n, n.keys, l, p, q, r, p', q', tail)
    ensures LendFirst(PairOf(p, n.keys[j], q)) == PairOf(p', key, q')
  {
    SameTops(l, p, q, r, p, q);
    ghost var around := Around(n, l, r, Leaves(p)[0], tail);
    assert allocated(l) && allocated(AllNodes(l)) && allocated(r) && allocated(AllNodes(r));
    key, p', q' := BorrowFromRight(n.children[j], n.children[j + 1], n.keys[j], p, q, Behind(r, tail));
    assert Around(n, l, r, Leaves(p)[0], tail) == around;
  }

  method BorrowRight(n: TreeNode, j: nat, ghost l: seq<Shape>, ghost p: Shape, ghost q: Shape, ghost r: seq<Shape>,
                     ghost tail: TreeNode?)
    returns (ghost b: Shape)
    requires PairIn(n, n.keys, l, p, q, r, tail) && j == |l| && |q.keys| >= 2
    modifies n`keys, p.node`keys, p.node`children, q.node`keys, q.node`children
    ensures NodeDone(n, Head(l, Leaves(p)[0]), {n} + AllNodes(l) + (Nodes(p) + Nodes(q)) + AllNodes(r), tail, b)
    ensures var t := Plain(NodeAt(n, old(n.keys), l + [p, q] + r));
            Proper(t) && Plain(b) == PutPair(t, j, LendFirst(PairAt(t, j)))
  {
    PairValue(n, n.keys, l, p, q, r);
    ghost var keys := n.keys;
    var key, p', q' := ExchangeRight(n, j, l, p, q, r, tail);
    ghost var around := Around(n, l, r, Leaves(p)[0], tail);
    n.keys := n.keys[j := key];
    assert Around(n, l, r, Leaves(p)[0], tail) == around;
    PutBack(n, n.keys, l, p, q, r, p', q', tail);
    PutPairValue(n, keys, l, p, q, r, p', key, q');
    b := NodeAt(n, n.keys, l + [p', q'] + r);
  }

  lemma {:induction false} TopsJoined(l: seq<Shape>, p: Shape, q: Shape, r: seq<Shape>, m: Shape)
    requires m.node == p.node
    ensures RemoveAt(Tops(l + [p, q] + r), |l| + 1) == Tops(l + [m] + r)
  {
    TopsParts(l, [p, q], r);
    TopsParts(l, [m], r);
    TwoFlat(p, q);
    assert Tops([m]) == [p.node];
    RemoveSecond(Tops(l), p.node, q.node, Tops(r), |l| + 1);
  }

  lemma RemoveSecond<T>(a: seq<T>, x: T, y: T, b: seq<T>, i: nat)
    requires i == |a| + 1
    ensures RemoveAt(a + [x, y] + b, i) == a + [x] + b
  {
  }

  /** The pair has become one, and everything else is as it was. */
  ghost predicate PairMerged(n: TreeNode, l: seq<Shape>, p: Shape, q: Shape, r: seq<Shape>, m: Shape, tail: TreeNode?)
    reads AllNodes(l), AllNodes(r), Nodes(m), Leaves(m)
  {
    && Leaves(p) != [] && Around(n, l, r, Leaves(p)[0], tail) && BTreeDelete.Merged(p, q, m, Behind(r, tail))
    && Free(n, l, r, Nodes(p) + Nodes(q))
  }

  /** Puts a merged pair back. */
  lemma {:induction false} PutMerged(n: TreeNode, keys: seq<Expiration>, l: seq<Shape>, p: Shape, q: Shape, r: seq<Shape>,
                                     m: Shape, tail: TreeNode?, i: nat)
    requires PairMerged(n, l, p, q, r, m, tail)
    requires i == |l| + 1 < |Tops(l + [p, q] + r)| && n.children == RemoveAt(Tops(l + [p, q] + r), i)
    requires !n.leaf && n.keys == keys && |l| + |r| == |keys|
    ensures NodeDone(n, Head(l, Leaves(p)[0]), {n} + AllNodes(l) + (Nodes(p) + Nodes(q)) + AllNodes(r), tail,
                     NodeAt(n, keys, l + [m] + r))
  {
    OneChained(m, Behind(r, tail));
    TopsJoined(l, p, q, r, m);
    PutIn(n, keys, l, [m], r, Leaves(p)[0], tail);
  }

  method MergePair(n: TreeNode, j: nat, ghost l: seq<Shape>, ghost p: Shape, ghost q: Shape, ghost r: seq<Shape>,
                   ghost tail: TreeNode?)
    returns (ghost m: Shape)
    requires PairIn(n, n.keys, l, p, q, r, tail) && j == |l|
    modifies p.node
    ensures n.keys == old(n.keys) && n.children == old(n.children) && !n.leaf && PairMerged(n, l, p, q, r, m, tail)
    ensures Join(PairOf(p, n.keys[j], q)) == Plain(m)
  {
    SameTops(l, p, q, r, p, q);
    ghost var around := Around(n, l, r, Leaves(p)[0], tail);
    assert allocated(l) && allocated(AllNodes(l)) && allocated(r) && allocated(AllNodes(r));
    m := Merge(n.children[j], n.children[j + 1], n.keys[j], p, q, Behind(r, tail));
    assert Around(n, l, r, Leaves(p)[0], tail) == around;
  }

  method DropRight(n: TreeNode, j: nat, ghost l: seq<Shape>, ghost p: Shape, ghost q: Shape, ghost r: seq<Shape>,
                   ghost m: Shape, ghost tail: TreeNode?)
    requires PairMerged(n, l, p, q, r, m, tail) && j < |n.keys| && j + 1 < |n.children|
    modifies n`keys, n`children
    ensures PairMerged(n, l, p, q, r, m, tail)
    ensures n.keys == RemoveAt(old(n.keys), j) && n.children == RemoveAt(old(n.children), j + 1)
  {
    n.keys := RemoveAt(n.keys, j);
    n.children := RemoveAt(n.children, j + 1);
  }

  /** Two neighbouring children become one; the node loses their separator and the right one. */
  method MergeAt(n: TreeNode, j: nat, ghost l: seq<Shape>, ghost p: Shape, ghost q: Shape, ghost r: seq<Shape>,
                 ghost tail: TreeNode?)
    returns (ghost b: Shape)
    requires PairIn(n, n.keys, l, p, q, r, tail) && j == |l|
    modifies n`keys, n`children, p.node
    ensures NodeDone(n, Head(l, Leaves(p)[0]), {n} + AllNodes(l) + (Nodes(p) + Nodes(q)) + AllNodes(r), tail, b)
    ensures var t := Plain(NodeAt(n, old(n.keys), l + [p, q] + r));
            Proper(t) && Plain(b) == PutJoined(t, j, Join(PairAt(t, j)))
  {
    PairValue(n, n.keys, l, p, q, r);
    ghost var keys := n.keys;
    ghost var m := MergePair(n, j, l, p, q, r, tail);
    DropRight(n, j, l, p, q, r, m, tail);
    PutMerged(n, n.keys, l, p, q, r, m, tail, j + 1);
    PutJoinedValue(n, keys, l, p, q, r, m);
    b := NodeAt(n, n.keys, l + [m] + r);
  }

  /** The children of a node are all leaves or all internal. */
  ghost predicate SameKind(cs: seq<Shape>) {
    forall i :: 0 < i < |cs| ==> (cs[i].LeafAt? <==> cs[i - 1].LeafAt?)
  }

  method FixByLeft(n: TreeNode, j: nat, ghost a: Shape, ghost tail: TreeNode?) returns (ghost b: Shape)
    requires Own(a) && a.NodeAt? && a.node == n && j + 1 < |a.kids| && SameKind(a.kids) && Linked(Leaves(a), tail)
    requires |a.kids[j].keys| >= 2
    modifies Nodes(a)
    ensures Leaves(a) != [] && NodeDone(n, Leaves(a)[0], Nodes(a), tail, b)
    ensures var t := Plain(a); Proper(t) && j < |t.keys| && Plain(b) == PutPair(t, j, LendLast(PairAt(t, j)))
  {
    ghost var l, p, q, r := CutPair(a.kids, j);
    TakeOutPair(n, a.keys, l, p, q, r, tail);
    b := BorrowLeft(n, j, l, p, q, r, tail);
  }

  method FixByRight(n: TreeNode, j: nat, ghost a: Shape, ghost tail: TreeNode?) returns (ghost b: Shape)
    requires Own(a) && a.NodeAt? && a.node == n && j + 1 < |a.kids| && SameKind(a.kids) && Linked(Leaves(a), tail)
    requires |a.kids[j + 1].keys| >= 2
    modifies Nodes(a)
    ensures Leaves(a) != [] && NodeDone(n, Leaves(a)[0], Nodes(a), tail, b)
    ensures var t := Plain(a); Proper(t) && j < |t.keys| && Plain(b) == PutPair(t, j, LendFirst(PairAt(t, j)))
  {
    ghost var l, p, q, r := CutPair(a.kids, j);
    TakeOutPair(n, a.keys, l, p, q, r, tail);
    b := BorrowRight(n, j, l, p, q, r, tail);
  }

  method FixByMerge(n: TreeNode, j: nat, ghost a: Shape, ghost tail: TreeNode?) returns (ghost b: Shape)
    requires Own(a) && a.NodeAt? && a.node == n && j + 1 < |a.kids| && SameKind(a.kids) && Linked(Leaves(a), tail)
    modifies Nodes(a)
    ensures Leaves(a) != [] && NodeDone(n, Leaves(a)[0], Nodes(a), tail, b)
    ensures var t := Plain(a); Proper(t) && j < |t.keys| && Plain(b) == PutJoined(t, j, Join(PairAt(t, j)))
  {
    ghost var l, p, q, r := CutPair(a.kids, j);
    TakeOutPair(n, a.keys, l, p, q, r, tail);
    b := MergeAt(n, j, l, p, q, r, tail);
  }

  /** Restores the occupancy of child idx by borrowing or merging, exactly as `FixChild` does on values. */
  method FixNode(n: TreeNode, idx: nat, ghost a: Shape, ghost tail: TreeNode?) returns (ghost b: Shape)
    requires Own(a) && a.NodeAt? && a.node == n && idx < |a.kids| && a.keys != [] && SameKind(a.kids)
    requires Linked(Leaves(a), tail)
    modifies Nodes(a)
    ensures Leaves(a) != [] && NodeDone(n, Leaves(a)[0], Nodes(a), tail, b)
    ensures Proper(Plain(a)) && Plain(b) == FixChild(Plain(a), idx)
  {
    KidFields(a, idx);
    var child := n.children[idx];
    if |child.keys| >= MIN_KEYS {
      HasLeaf(a);
      return a;
    }
    if idx > 0 { KidFields(a, idx - 1); }
    if idx < |n.children| - 1 { KidFields(a, idx + 1); }
    if idx > 0 && |n.children[idx - 1].keys| > MIN_KEYS {
      b := FixByLeft(n, idx - 1, a, tail);
    } else if idx < |n.children| - 1 && |n.children[idx + 1].keys| > MIN_KEYS {
      b := FixByRight(n, idx, a, tail);
    } else if idx > 0 {
      b := FixByMerge(n, idx - 1, a, tail);
    } else {
      b := FixByMerge(n, idx, a, tail);
    }
  }

  /** What a child object says is what its shape says. */
  lemma {:induction false} KidFields(a: Shape, i: nat)
    requires Own(a) && a.NodeAt? && i < |a.kids|
    ensures |a.kids| == |a.keys| + 1 && a.node.children[i] == a.kids[i].node
    ensures a.kids[i].node.keys == a.kids[i].keys == Plain(a.kids[i]).keys && AllPlain(a.kids)[i] == Plain(a.kids[i])
    ensures a.kids[i].node in Nodes(a)
  {
    var l, k, r := CutAround(a.kids, i);
    PartsAt(l, [k], r);
    One(k);
    OneAt(k);
    PlainAt(a.kids, i);
  }
}
