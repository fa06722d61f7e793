/** Insertion in memory: the recursive method, the two splits and the splicing of the leaf chain. */
module BTreeInsert {
  import opened Options
  import opened BTreeOrder
  import opened BTreeSpec
  import opened BTreeGood
  import opened BTreeHeap

  /** What an insertion leaves behind: the same node, and a right sibling if it was split. The first leaf stays. */
  ghost predicate InsertDone(node: TreeNode, first: TreeNode, r: Inserted, tail: TreeNode?,
                             key: Expiration, right: TreeNode?, b: Shape, c: Shape)
    reads Nodes(b), Nodes(c), Leaves(b), Leaves(c)
  {
    && Own(b) && b.node == node && Leaves(b) != [] && Leaves(b)[0] == first
    && (right == null ==> r == Fits(Plain(b)) && Linked(Leaves(b), tail))
    && (right != null ==>
          && Own(c) && c.node == right && Nodes(b) !! Nodes(c)
          && r == Split(Plain(b), key, Plain(c)) && Linked(Leaves(b) + Leaves(c), tail))
  }

  // ---- leaves ----

  /** The upper half of the keys moves to a new leaf, which follows this one in the chain. */
  method SplitLeafNode(n: TreeNode, ghost a: Shape, ghost tail: TreeNode?)
    returns (key: Expiration, right: TreeNode, ghost b: Shape, ghost c: Shape)
    requires Own(a) && a == LeafAt(n, n.keys) && |n.keys| > MAX_KEYS && n.next == tail
    modifies n
    ensures InsertDone(n, n, SplitLeaf(a.keys), tail, key, right, b, c)
    ensures fresh(right) && Nodes(b) == {n} && Nodes(c) == {right}
  {
    var mid := |n.keys| / 2;
    right := new TreeNode(true, n.keys[mid..], [], n.next);
    n.keys := n.keys[..mid];
    n.next := right;
    key := right.keys[0];
    b, c := LeafAt(n, n.keys), LeafAt(right, right.keys);
    assert Leaves(b) + Leaves(c) == [n, right];
  }

  method InsertLeaf(n: TreeNode, x: Expiration, ghost a: Shape, ghost tail: TreeNode?)
    returns (key: Expiration, right: TreeNode?, ghost b: Shape, ghost c: Shape)
    requires Own(a) && a.LeafAt? && a.node == n && Sorted(a.keys) && Linked(Leaves(a), tail)
    modifies n
    ensures InsertDone(n, n, InsertInKeys(a.keys, x), tail, key, right, b, c)
    ensures Nodes(b) == {n} && (right != null ==> fresh(right) && Nodes(c) == {right})
  {
    var idx := FindLowerBound(n.keys, x);
    key, right, b, c := x, null, a, a;
    assert Leaves(a)[0] == n;
    if idx < |n.keys| && n.keys[idx] == x { return; }
    n.keys := InsertAt(n.keys, idx, x);
    b, c := LeafAt(n, n.keys), LeafAt(n, n.keys);
    if |n.keys| <= MAX_KEYS { return; }
    key, right, b, c := SplitLeafNode(n, b, tail);
  }

  // ---- internal nodes ----

  /** The two halves of a node own what it owned, and the leaves stay in order. */
  lemma {:induction false} Halves(node: TreeNode, right: TreeNode, l: seq<Shape>, r: seq<Shape>,
                                  lk: seq<Expiration>, rk: seq<Expiration>)
    requires AllApart(l + r) && AllAt(l + r) && node !in AllNodes(l + r) && right !in AllNodes(l + r) && node != right
    requires !node.leaf && node.keys == lk && |l| == |lk| + 1 && node.children == Tops(l)
    requires !right.leaf && right.keys == rk && |r| == |rk| + 1 && right.children == Tops(r)
    ensures var b, c := NodeAt(node, lk, l), NodeAt(right, rk, r);
            && Own(b) && Own(c) && Nodes(b) !! Nodes(c) && Nodes(b) + Nodes(c) == {node, right} + AllNodes(l + r)
            && Leaves(b) + Leaves(c) == AllLeaves(l + r) && Leaves(b) != []
  {
    Concat(l, r);
    ConcatAt(l, r);
    HasLeaf(NodeAt(node, lk, l));
  }

  lemma {:induction false} HalvesValue(keys: seq<Expiration>, l: seq<Shape>, r: seq<Shape>, mid: nat)
    requires |l + r| == |keys| + 1 && |keys| > MAX_KEYS && mid == |keys| / 2 && |l| == mid + 1
    ensures SplitNode(keys, AllPlain(l + r))
            == Split(Node(keys[..mid], AllPlain(l)), keys[mid], Node(keys[mid + 1..], AllPlain(r)))
  {
    PlainConcat(l, r);
  }

  /** The upper half of an internal node moves to a new node; its middle key is promoted. */
  method MoveUpperHalf(n: TreeNode, mid: nat) returns (key: Expiration, right: TreeNode)
    requires mid < |n.keys| && |n.children| == |n.keys| + 1
    modifies n`keys, n`children
    ensures fresh(right) && !right.leaf && key == old(n.keys[mid])
    ensures n.keys == old(n.keys[..mid]) && right.keys == old(n.keys[mid + 1..])
    ensures n.children == old(n.children[..mid + 1]) && right.children == old(n.children[mid + 1..])
  {
    key := n.keys[mid];
    right := new TreeNode(false, n.keys[mid + 1..], n.children[mid + 1..], null);
    n.keys := n.keys[..mid];
    n.children := n.children[..mid + 1];
  }

  method SplitInternal(n: TreeNode, ghost a: Shape, ghost tail: TreeNode?)
    returns (key: Expiration, right: TreeNode, ghost b: Shape, ghost c: Shape)
    requires Own(a) && a.NodeAt? && a.node == n && |a.keys| > MAX_KEYS && Linked(Leaves(a), tail) && Leaves(a) != []
    modifies n`keys, n`children
    ensures InsertDone(n, Leaves(a)[0], SplitNode(a.keys, AllPlain(a.kids)), tail, key, right, b, c)
    ensures fresh(right) && Nodes(b) + Nodes(c) == {n, right} + AllNodes(a.kids)
  {
    var mid := |n.keys| / 2;
    ghost var l, r := CutAt(a.kids, mid + 1);
    ghost var ls := Leaves(a);
    TopsConcat(l, r);
    AllLeavesInNodes(l + r);
    assert allocated(a) && allocated(AllNodes(a.kids)) && allocated(ls);
    key, right := MoveUpperHalf(n, mid);
    assert Linked(ls, tail);
    Halves(n, right, l, r, a.keys[..mid], a.keys[mid + 1..]);
    HalvesValue(a.keys, l, r, mid);
    b, c := NodeAt(n, a.keys[..mid], l), NodeAt(right, a.keys[mid + 1..], r);
  }

  /** The child is still one tree: the node itself has not changed. */
  lemma {:induction false} FitsValue(node: TreeNode, keys: seq<Expiration>, l: seq<Shape>, k: Shape, r: seq<Shape>,
                                     kb: Shape, x: Expiration)
    requires |l| + 1 + |r| == |keys| + 1 && |l| == ChildIndex(keys, x) && Insert(Plain(k), x) == Fits(Plain(kb))
    ensures Insert(Plain(NodeAt(node, keys, l + [k] + r)), x) == Fits(Plain(NodeAt(node, keys, l + [kb] + r)))
  {
    PlainParts(l, [k], r);
    PlainParts(l, [kb], r);
    One(k);
    One(kb);
    var ts, i := AllPlain(l + [k] + r), |l|;
    assert ts[i] == Plain(k) && ts[i := Plain(kb)] == AllPlain(l) + [Plain(kb)] + AllPlain(r);
  }

  lemma {:induction false} SplitValue(node: TreeNode, keys: seq<Expiration>, l: seq<Shape>, k: Shape, r: seq<Shape>,
                                      kb: Shape, key: Expiration, kc: Shape, x: Expiration)
    requires |l| + 1 + |r| == |keys| + 1 && |l| == ChildIndex(keys, x)
    requires Insert(Plain(k), x) == Split(Plain(kb), key, Plain(kc))
    ensures |l + [kb, kc] + r| == |InsertAt(keys, |l|, key)| + 1
    ensures Insert(Plain(NodeAt(node, keys, l + [k] + r)), x)
            == SplitNode(InsertAt(keys, |l|, key), AllPlain(l + [kb, kc] + r))
  {
    PlainParts(l, [k], r);
    PlainParts(l, [kb, kc], r);
    One(k);
    TwoFlat(kb, kc);
    TwoForOne(AllPlain(l), Plain(k), Plain(kb), Plain(kc), AllPlain(r));
  }

  lemma TwoForOne<T>(a: seq<T>, x: T, y: T, z: T, b: seq<T>)
    ensures (a + [x] + b)[|a|] == x
    ensures InsertAt((a + [x] + b)[|a| := y], |a| + 1, z) == a + [y, z] + b
  {
  }

  lemma {:induction false} TopsSplit(l: seq<Shape>, k: Shape, r: seq<Shape>, kb: Shape, kc: Shape)
    requires kb.node == k.node
    ensures InsertAt(Tops(l + [k] + r), |l| + 1, kc.node) == Tops(l + [kb, kc] + r)
  {
    TopsParts(l, [k], r);
    TopsParts(l, [kb, kc], r);
    TwoFlat(kb, kc);
    assert Tops([k]) == [k.node];
    InsertAfter(Tops(l), k.node, Tops(r), kc.node);
  }

  lemma {:induction false} InsertAfter<T>(l: seq<T>, y: T, r: seq<T>, x: T)
    ensures InsertAt(l + [y] + r, |l| + 1, x) == l + [y, x] + r
  {
  }

  /** Takes in a key and a child, and splits in turn if that is one too many. */
  method TakeSplit(n: TreeNode, idx: nat, childKey: Expiration, childRight: TreeNode, ghost l: seq<Shape>, ghost k: Shape,
                   ghost r: seq<Shape>, ghost first: TreeNode, ghost kb: Shape, ghost kc: Shape, ghost tail: TreeNode?)
    returns (key: Expiration, right: TreeNode?, ghost b: Shape, ghost c: Shape)
    requires Around(n, l, r, first, tail) && !n.leaf && |l| + |r| == |n.keys| && idx == |l|
    requires n.children == Tops(l + [k] + r)
    requires Own(kb) && Own(kc) && Nodes(kb) !! Nodes(kc) && kb.node == k.node && kc.node == childRight
    requires Free(n, l, r, Nodes(kb) + Nodes(kc)) && Linked(Leaves(kb) + Leaves(kc), Behind(r, tail))
    requires Leaves(kb) != [] && Leaves(kb)[0] == first
    modifies n`keys, n`children
    ensures InsertDone(n, Head(l, first), SplitNode(InsertAt(old(n.keys), idx, childKey), AllPlain(l + [kb, kc] + r)),
                       tail, key, right, b, c)
    ensures forall m :: m in Nodes(b) ==> m in {n} + AllNodes(l) + (Nodes(kb) + Nodes(kc)) + AllNodes(r) || fresh(m)
    ensures right != null ==>
              forall m :: m in Nodes(c) ==> m in {n} + AllNodes(l) + (Nodes(kb) + Nodes(kc)) + AllNodes(r) || fresh(m)
  {
    TopsSplit(l, k, r, kb, kc);
    TwoChained(kb, kc, Behind(r, tail));
    n.keys := InsertAt(n.keys, idx, childKey);
    n.children := InsertAt(n.children, idx + 1, childRight);
    PutIn(n, n.keys, l, [kb, kc], r, first, tail);
    b := NodeAt(n, n.keys, l + [kb, kc] + r);
    c, key, right := b, childKey, null;
    if |n.keys| > MAX_KEYS {
      key, right, b, c := SplitInternal(n, b, tail);
    }
  }

  /** The node takes note of what became of its child. */
  method Settle(n: TreeNode, idx: nat, x: Expiration, childKey: Expiration, childRight: TreeNode?,
                ghost l: seq<Shape>, ghost k: Shape, ghost r: seq<Shape>, ghost first: TreeNode,
                ghost kb: Shape, ghost kc: Shape, ghost tail: TreeNode?)
    returns (key: Expiration, right: TreeNode?, ghost b: Shape, ghost c: Shape)
    requires Around(n, l, r, first, tail) && !n.leaf && |l| + |r| == |n.keys| && idx == |l| == ChildIndex(n.keys, x)
    requires n.children == Tops(l + [k] + r)
    requires InsertDone(k.node, first, Insert(Plain(k), x), Behind(r, tail), childKey, childRight, kb, kc)
    requires Free(n, l, r, Nodes(kb)) && (childRight != null ==> Free(n, l, r, Nodes(kc)))
    modifies n`keys, n`children
    ensures InsertDone(n, Head(l, first), Insert(Plain(NodeAt(n, old(n.keys), l + [k] + r)), x), tail, key, right, b, c)
    ensures var more := if childRight == null then {} else Nodes(kc);
            var all := {n} + AllNodes(l) + (Nodes(kb) + more) + AllNodes(r);
            && (forall m :: m in Nodes(b) ==> m in all || fresh(m))
            && (right != null ==> forall m :: m in Nodes(c) ==> m in all || fresh(m))
  {
    if childRight == null {
      key, right := x, null;
      FitsValue(n, n.keys, l, k, r, kb, x);
      OneChained(kb, Behind(r, tail));
      TopsParts(l, [k], r);
      TopsParts(l, [kb], r);
      PutIn(n, n.keys, l, [kb], r, first, tail);
      b, c := NodeAt(n, n.keys, l + [kb] + r), NodeAt(n, n.keys, l + [kb] + r);
    } else {
      SplitValue(n, n.keys, l, k, r, kb, childKey, kc, x);
      key, right, b, c := TakeSplit(n, idx, childKey, childRight, l, k, r, first, kb, kc, tail);
    }
  }

  lemma {:induction false} KidGood(a: Shape, h: nat, lo: Option<Expiration>, hi: Option<Expiration>, i: nat)
    requires a.NodeAt? && Good(Plain(a), h, lo, hi) && i < |a.kids|
    ensures h > 0 && Sorted(a.keys) && |a.kids| == |a.keys| + 1
    ensures Good(Plain(a.kids[i]), h - 1, Lo(a.keys, i, lo), Hi(a.keys, i, hi))
  {
    PlainAt(a.kids, i);
  }

  /** Taking one child out of a node. */
  lemma {:induction false} TakeOutChild(node: TreeNode, keys: seq<Expiration>, l: seq<Shape>, k: Shape, r: seq<Shape>,
                                        tail: TreeNode?)
    requires Own(NodeAt(node, keys, l + [k] + r)) && Linked(AllLeaves(l + [k] + r), tail)
    ensures Own(k) && Leaves(k) != [] && Linked(Leaves(k), Behind(r, tail))
    ensures Around(node, l, r, Leaves(k)[0], tail) && Free(node, l, r, Nodes(k))
    ensures Nodes(NodeAt(node, keys, l + [k] + r)) == {node} + AllNodes(l) + Nodes(k) + AllNodes(r)
    ensures AllLeaves(l + [k] + r) != [] && AllLeaves(l + [k] + r)[0] == Head(l, Leaves(k)[0])
  {
    PartsAt(l, [k], r);
    One(k);
    OneAt(k);
    HasLeaf(k);
    TakeOut(node, keys, l, [k], r, tail);
    ChainedOne(k, Leaves(k)[0], Behind(r, tail));
    HeadIs(l, [k], r);
  }

  /** The recursive insertion. It computes `Insert` on the tree that the node stands for, touches only the nodes of that
      subtree, and keeps the chain through the leaves. */
  method InsertNode(n: TreeNode, x: Expiration, ghost a: Shape, ghost h: nat,
                    ghost lo: Option<Expiration>, ghost hi: Option<Expiration>, ghost tail: TreeNode?)
    returns (key: Expiration, right: TreeNode?, ghost b: Shape, ghost c: Shape)
    requires Own(a) && a.node == n && Good(Plain(a), h, lo, hi) && Linked(Leaves(a), tail)
    modifies Nodes(a)
    decreases a, 1
    ensures Leaves(a) != [] && InsertDone(n, Leaves(a)[0], Insert(Plain(a), x), tail, key, right, b, c)
    ensures forall m :: m in Nodes(b) ==> m in Nodes(a) || fresh(m)
    ensures right != null ==> forall m :: m in Nodes(c) ==> m in Nodes(a) || fresh(m)
  {
    if n.leaf {
      key, right, b, c := InsertLeaf(n, x, a, tail);
      return;
    }
    KidGood(a, h, lo, hi, 0);
    LeavesInNodes(a);
    ghost var ls := Leaves(a);
    assert allocated(a) && allocated(Nodes(a)) && allocated(ls);
    var idx := FindChildIndex(n.keys, x);
    assert Own(a) && Linked(ls, tail);
    KidGood(a, h, lo, hi, idx);
    key, right, b, c := InsertBelow(n, idx, x, a, h - 1, Lo(a.keys, idx, lo), Hi(a.keys, idx, hi), tail);
  }

  method InsertBelow(n: TreeNode, idx: nat, x: Expiration, ghost a: Shape, ghost h: nat,
                     ghost lo: Option<Expiration>, ghost hi: Option<Expiration>, ghost tail: TreeNode?)
    returns (key: Expiration, right: TreeNode?, ghost b: Shape, ghost c: Shape)
    requires Own(a) && a.NodeAt? && a.node == n && Linked(Leaves(a), tail)
    requires |a.kids| == |a.keys| + 1 && idx == ChildIndex(a.keys, x) && Good(Plain(a.kids[idx]), h, lo, hi)
    modifies Nodes(a)
    decreases a, 0
    ensures Leaves(a) != [] && InsertDone(n, Leaves(a)[0], Insert(Plain(a), x), tail, key, right, b, c)
    ensures forall m :: m in Nodes(b) ==> m in Nodes(a) || fresh(m)
    ensures right != null ==> forall m :: m in Nodes(c) ==> m in Nodes(a) || fresh(m)
  {
    ghost var l, k, r := CutAround(a.kids, idx);
    TakeOutChild(n, a.keys, l, k, r, tail);
    ghost var first := Leaves(k)[0];
    assert allocated(a) && allocated(Nodes(a));
    ghost var around := Around(n, l, r, first, tail);
    var childKey, childRight, kb, kc :=
      InsertNode(n.children[idx], x, k, h, lo, hi, Behind(r, tail));
    assert Around(n, l, r, first, tail) == around;
    key, right, b, c := Settle(n, idx, x, childKey, childRight, l, k, r, first, kb, kc, tail);
  }
}
