/** The recursive deletion in memory. */
module BTreeErase {
  import opened Options
  import opened BTreeOrder
  import opened BTreeSpec
  import opened BTreeGood
  import opened BTreeHeap
  import opened BTreeInsert
  import opened BTreeFix

  method DeleteLeaf(n: TreeNode, x: Expiration, ghost a: Shape, ghost tail: TreeNode?)
    returns (found: bool, ghost b: Shape)
    requires Own(a) && a.LeafAt? && a.node == n && Sorted(a.keys) && Linked(Leaves(a), tail)
    modifies n
    ensures NodeDone(n, n, {n}, tail, b)
    ensures found == DeleteFromKeys(a.keys, x).Some?
    ensures Plain(b) == if found then DeleteFromKeys(a.keys, x).value else Plain(a)
  {
    assert Leaves(a) == [n] && n.next == After(Leaves(a), 0, tail);
    var idx := FindLowerBound(n.keys, x);
    if idx >= |n.keys| || n.keys[idx] != x { return false, a; }
    n.keys := RemoveAt(n.keys, idx);
    b := LeafAt(n, n.keys);
    return true, b;
  }

  lemma {:induction false} DeleteKind(t: Tree, x: Expiration)
    requires Delete(t, x).Some?
    ensures Delete(t, x).value.Leaf? <==> t.Leaf?
  {
  }

  lemma {:induction false} KidsKind(a: Shape, h: nat, lo: Option<Expiration>, hi: Option<Expiration>)
    requires a.NodeAt? && Good(Plain(a), h, lo, hi)
    ensures SameKind(a.kids)
  {
    forall i | 0 <= i < |a.kids| ensures a.kids[i].LeafAt? <==> h == 1 {
      PlainAt(a.kids, i);
    }
  }

  lemma {:induction false} KidFilled(a: Shape, h: nat, lo: Option<Expiration>, hi: Option<Expiration>, i: nat)
    requires a.NodeAt? && Good(Plain(a), h, lo, hi) && i < |a.kids|
    ensures a.kids[i].keys != []
  {
    PlainAt(a.kids, i);
  }

  lemma {:induction false} ReplaceValue(n: TreeNode, keys: seq<Expiration>, l: seq<Shape>, k: Shape, r: seq<Shape>, kb: Shape)
    ensures var ts := AllPlain(l + [k] + r);
            ts[|l|] == Plain(k) && AllPlain(l + [kb] + r) == ts[|l| := Plain(kb)]
  {
    PlainParts(l, [k], r);
    PlainParts(l, [kb], r);
    One(k);
    One(kb);
    var a, b, i := AllPlain(l), AllPlain(r), |l|;
    assert (a + [Plain(k)] + b)[i := Plain(kb)] == a + [Plain(kb)] + b;
  }

  /** Puts a child back that may have changed: the node itself has not. */
  lemma {:induction false} PutChild(n: TreeNode, keys: seq<Expiration>, l: seq<Shape>, k: Shape, r: seq<Shape>,
                                    kb: Shape, tail: TreeNode?)
    requires Leaves(k) != [] && Around(n, l, r, Leaves(k)[0], tail) && Free(n, l, r, Nodes(k))
    requires NodeDone(k.node, Leaves(k)[0], Nodes(k), Behind(r, tail), kb)
    requires !n.leaf && n.keys == keys && |l| + |r| == |keys| && n.children == Tops(l + [k] + r)
    ensures NodeDone(n, Head(l, Leaves(k)[0]), {n} + AllNodes(l) + Nodes(k) + AllNodes(r), tail,
                     NodeAt(n, keys, l + [kb] + r))
  {
    OneChained(kb, Behind(r, tail));
    TopsParts(l, [k], r);
    TopsParts(l, [kb], r);
    assert Tops([k]) == [k.node];
    PutIn(n, keys, l, [kb], r, Leaves(k)[0], tail);
  }

  lemma {:induction false} SameKindAfter(l: seq<Shape>, k: Shape, r: seq<Shape>, kb: Shape)
    requires SameKind(l + [k] + r) && (kb.LeafAt? <==> k.LeafAt?)
    ensures SameKind(l + [kb] + r)
  {
    var a, b := l + [k] + r, l + [kb] + r;
    assert forall i :: 0 <= i < |a| ==> (a[i].LeafAt? <==> b[i].LeafAt?);
  }

  /** The recursive deletion. It computes `Delete` on the tree that the node stands for, touches only the nodes of that
      subtree, and keeps the chain through the leaves. */
  method DeleteNode(n: TreeNode, x: Expiration, ghost a: Shape, ghost h: nat,
                    ghost lo: Option<Expiration>, ghost hi: Option<Expiration>, ghost tail: TreeNode?)
    returns (found: bool, ghost b: Shape)
    requires Own(a) && a.node == n && Good(Plain(a), h, lo, hi) && Linked(Leaves(a), tail)
    requires h > 0 ==> a.keys != []
    modifies Nodes(a)
    decreases a, 1
    ensures Leaves(a) != [] && NodeDone(n, Leaves(a)[0], Nodes(a), tail, b)
    ensures found == Delete(Plain(a), x).Some?
    ensures Plain(b) == if found then Delete(Plain(a), x).value else Plain(a)
  {
    if n.leaf {
      found, b := DeleteLeaf(n, x, a, tail);
      return;
    }
    KidGood(a, h, lo, hi, 0);
    LeavesInNodes(a);
    ghost var ls := Leaves(a);
    assert allocated(a) && allocated(Nodes(a)) && allocated(ls);
    var idx := FindChildIndex(n.keys, x);
    assert Own(a) && Linked(ls, tail);
    KidGood(a, h, lo, hi, idx);
    KidFilled(a, h, lo, hi, idx);
    KidsKind(a, h, lo, hi);
    found, b := DeleteBelow(n, idx, x, a, h - 1, Lo(a.keys, idx, lo), Hi(a.keys, idx, hi), tail);
  }

  /** The node puts its child back, and repairs it if it has lost a key. */
  method SettleDelete(n: TreeNode, idx: nat, found: bool, ghost l: seq<Shape>, ghost k: Shape, ghost r: seq<Shape>,
                      ghost kb: Shape, ghost tail: TreeNode?)
    returns (ghost b: Shape)
    requires Leaves(k) != [] && Around(n, l, r, Leaves(k)[0], tail) && Free(n, l, r, Nodes(k))
    requires NodeDone(k.node, Leaves(k)[0], Nodes(k), Behind(r, tail), kb)
    requires !n.leaf && |l| + |r| == |n.keys| && n.children == Tops(l + [k] + r) && n.keys != [] && idx == |l|
    requires found ==> SameKind(l + [kb] + r)
    modifies {n} + AllNodes(l) + Nodes(k) + AllNodes(r)
    ensures NodeDone(n, Head(l, Leaves(k)[0]), {n} + AllNodes(l) + Nodes(k) + AllNodes(r), tail, b)
    ensures var t := Node(old(n.keys), AllPlain(l + [kb] + r));
            Proper(t) && Plain(b) == if found then FixChild(t, idx) else t
  {
    PutChild(n, n.keys, l, k, r, kb, tail);
    b := NodeAt(n, n.keys, l + [kb] + r);
    if found { b := FixNode(n, idx, b, tail); }
  }

  lemma {:induction false} DeleteValue(a: Shape, l: seq<Shape>, k: Shape, r: seq<Shape>, kb: Shape, x: Expiration, found: bool)
    requires a.NodeAt? && a.kids == l + [k] + r && |a.kids| == |a.keys| + 1 && |l| == ChildIndex(a.keys, x)
    requires found == Delete(Plain(k), x).Some?
    requires Plain(kb) == if found then Delete(Plain(k), x).value else Plain(k)
    ensures found == Delete(Plain(a), x).Some?
    ensures var t := Node(a.keys, AllPlain(l + [kb] + r));
            Proper(t) && (if found then Delete(Plain(a), x).value == FixChild(t, |l|) else Plain(a) == t)
  {
    ReplaceValue(a.node, a.keys, l, k, r, kb);
    var ts := AllPlain(a.kids);
    assert ts[|l| := ts[|l|]] == ts;
  }

  method DeleteBelow(n: TreeNode, idx: nat, x: Expiration, ghost a: Shape, ghost h: nat,
                     ghost lo: Option<Expiration>, ghost hi: Option<Expiration>, ghost tail: TreeNode?)
    returns (found: bool, ghost b: Shape)
    requires Own(a) && a.NodeAt? && a.node == n && Linked(Leaves(a), tail) && SameKind(a.kids)
    requires a.keys != [] && |a.kids| == |a.keys| + 1 && idx == ChildIndex(a.keys, x)
    requires Good(Plain(a.kids[idx]), h, lo, hi) && a.kids[idx].keys != []
    modifies Nodes(a)
    decreases a, 0
    ensures Leaves(a) != [] && NodeDone(n, Leaves(a)[0], Nodes(a), tail, b)
    ensures found == Delete(Plain(a), x).Some?
    ensures Plain(b) == if found then Delete(Plain(a), x).value else Plain(a)
  {
    ghost var l, k, r := CutAround(a.kids, idx);
    TakeOutChild(n, a.keys, l, k, r, tail);
    assert allocated(a) && allocated(Nodes(a));
    ghost var around := Around(n, l, r, Leaves(k)[0], tail);
    ghost var kb;
    found, kb := DeleteNode(n.children[idx], x, k, h, lo, hi, Behind(r, tail));
    assert Around(n, l, r, Leaves(k)[0], tail) == around;
    DeleteValue(a, l, k, r, kb, x, found);
    if found {
      DeleteKind(Plain(k), x);
      SameKindAfter(l, k, r, kb);
    }
    b := SettleDelete(n, idx, found, l, k, r, kb, tail);
  }
}
