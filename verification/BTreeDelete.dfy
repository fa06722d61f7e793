/** Deletion in memory: borrowing from a neighbour, merging with one, and the recursive method. */
module BTreeDelete {
  import opened Options
  import opened BTreeOrder
  import opened BTreeSpec
  import opened BTreeGood
  import opened BTreeHeap

  // ---- two neighbours ----

  /** Two neighbouring subtrees of the same kind. */
  ghost predicate Neighbours(p: Shape, q: Shape)
    reads Nodes(p), Nodes(q)
  {
    Own(p) && Own(q) && Nodes(p) !! Nodes(q) && (p.LeafAt? <==> q.LeafAt?)
  }

  ghost function PairOf(p: Shape, key: Expiration, q: Shape): Pair {
    Pair(Plain(p), key, Plain(q))
  }

  /** Two neighbours have exchanged something: the same objects, and the same leaves in the same order. */
  ghost predicate Exchanged(p: Shape, q: Shape, p': Shape, q': Shape)
    reads Nodes(p'), Nodes(q')
  {
    && Neighbours(p', q') && p'.node == p.node && q'.node == q.node
    && Nodes(p') + Nodes(q') == Nodes(p) + Nodes(q) && Leaves(p') + Leaves(q') == Leaves(p) + Leaves(q)
    && Leaves(p') != [] && Leaves(p) != [] && Leaves(p')[0] == Leaves(p)[0]
  }

  /** Two lists of children that share nothing with each other or with their parents. */
  ghost predicate Kids(pn: TreeNode, qn: TreeNode, l: seq<Shape>, r: seq<Shape>)
    reads AllNodes(l), AllNodes(r)
  {
    && pn != qn && AllApart(l) && AllApart(r) && AllAt(l) && AllAt(r) && AllNodes(l) !! AllNodes(r)
    && pn !in AllNodes(l) && pn !in AllNodes(r) && qn !in AllNodes(l) && qn !in AllNodes(r)
  }

  lemma {:induction false} MoveKid(pn: TreeNode, qn: TreeNode, l: seq<Shape>, k: Shape, r: seq<Shape>)
    ensures Kids(pn, qn, l + [k], r) <==> Kids(pn, qn, l, [k] + r)
    ensures AllNodes(l + [k]) + AllNodes(r) == AllNodes(l) + AllNodes([k] + r)
    ensures AllLeaves(l + [k]) + AllLeaves(r) == AllLeaves(l) + AllLeaves([k] + r)
  {
    Concat(l, [k]);
    Concat([k], r);
    ConcatAt(l, [k]);
    ConcatAt([k], r);
  }

  lemma {:induction false} KidsOf(p: Shape, q: Shape)
    requires Neighbours(p, q) && p.NodeAt?
    ensures Kids(p.node, q.node, p.kids, q.kids)
  {
  }

  /** Two internal nodes after children have moved between them. */
  lemma {:induction false} MovedKids(p: Shape, q: Shape, p': Shape, q': Shape)
    requires p.NodeAt? && q.NodeAt? && p'.NodeAt? && q'.NodeAt? && p'.node == p.node && q'.node == q.node
    requires Kids(p.node, q.node, p'.kids, q'.kids)
    requires AllNodes(p'.kids) + AllNodes(q'.kids) == AllNodes(p.kids) + AllNodes(q.kids)
    requires AllLeaves(p'.kids) + AllLeaves(q'.kids) == AllLeaves(p.kids) + AllLeaves(q.kids)
    requires !p.node.leaf && p.node.keys == p'.keys && p.node.children == Tops(p'.kids) && |p'.kids| == |p'.keys| + 1
    requires !q.node.leaf && q.node.keys == q'.keys && q.node.children == Tops(q'.kids) && |q'.kids| == |q'.keys| + 1
    requires AllLeaves(p.kids) != []
    ensures Exchanged(p, q, p', q')
  {
    HasLeaf(p');
    assert (AllLeaves(p'.kids) + AllLeaves(q'.kids))[0] == AllLeaves(p'.kids)[0];
  }

  // ---- borrowing from the left ----

  method BorrowKeyFromLeft(left: TreeNode, child: TreeNode, ghost p: Shape, ghost q: Shape, ghost key: Expiration)
    returns (key': Expiration, ghost p': Shape, ghost q': Shape)
    requires Neighbours(p, q) && p.node == left && q.node == child && |p.keys| >= 2 && p.LeafAt?
    modifies left`keys, child`keys
    ensures Exchanged(p, q, p', q') && LendLast(PairOf(p, key, q)) == PairOf(p', key', q')
  {
    var last := |left.keys| - 1;
    var moved := left.keys[last];
    left.keys := left.keys[..last];
    child.keys := [moved] + child.keys;
    key' := child.keys[0];
    p', q' := LeafAt(left, left.keys), LeafAt(child, child.keys);
  }

  lemma {:induction false} LendLastValue(p: Shape, key: Expiration, q: Shape, l: seq<Shape>, k: Shape)
    requires p.NodeAt? && q.NodeAt? && p.kids == l + [k] && |p.kids| == |p.keys| + 1 && p.keys != []
    ensures var last := |p.keys| - 1;
            LendLast(PairOf(p, key, q)) ==
            Pair(Node(p.keys[..last], AllPlain(l)), p.keys[last], Node([key] + q.keys, AllPlain([k] + q.kids)))
  {
    PlainConcat(l, [k]);
    PlainConcat([k], q.kids);
    One(k);
    assert AllPlain(p.kids)[..|l|] == AllPlain(l) && AllPlain(p.kids)[|l|] == Plain(k);
  }

  /** Moves the last child of one node to the front of the other. */
  method MoveLast(left: TreeNode, child: TreeNode, key: Expiration) returns (key': Expiration)
    requires left != child && |left.keys| >= 1 && |left.children| == |left.keys| + 1
    modifies left`keys, left`children, child`keys, child`children
    ensures var last := old(|left.keys|) - 1;
            && key' == old(left.keys)[last] && left.keys == old(left.keys)[..last]
            && left.children == old(left.children)[..last + 1]
            && child.keys == [key] + old(child.keys) && child.children == [old(left.children)[last + 1]] + old(child.children)
  {
    var last := |left.keys| - 1;
    var moved := left.children[last + 1];
    child.keys := [key] + child.keys;
    child.children := [moved] + child.children;
    key' := left.keys[last];
    left.keys := left.keys[..last];
    left.children := left.children[..last + 1];
  }

  method BorrowChildFromLeft(left: TreeNode, child: TreeNode, key: Expiration, ghost p: Shape, ghost q: Shape)
    returns (key': Expiration, ghost p': Shape, ghost q': Shape)
    requires Neighbours(p, q) && p.node == left && q.node == child && |p.keys| >= 2 && p.NodeAt?
    modifies left`keys, left`children, child`keys, child`children
    ensures Exchanged(p, q, p', q') && LendLast(PairOf(p, key, q)) == PairOf(p', key', q')
  {
    KidsOf(p, q);
    HasLeaf(p);
    ghost var l, k, none := CutAround(p.kids, |p.keys|);
    assert p.kids == l + [k];
    MoveKid(left, child, l, k, q.kids);
    LendLastValue(p, key, q, l, k);
    TopsConcat(l, [k]);
    TopsConcat([k], q.kids);
    assert allocated(p) && allocated(q) && allocated(AllNodes(p.kids)) && allocated(AllNodes(q.kids));
    ghost var kids := Kids(left, child, l, [k] + q.kids);
    key' := MoveLast(left, child, key);
    assert Kids(left, child, l, [k] + q.kids) == kids;
    p', q' := NodeAt(left, left.keys, l), NodeAt(child, child.keys, [k] + q.kids);
    MovedKids(p, q, p', q');
  }

  /** The left neighbour lends its last key, or its last child; the chain is not touched. */
  method BorrowFromLeft(left: TreeNode, child: TreeNode, key: Expiration, ghost p: Shape, ghost q: Shape,
                        ghost after: TreeNode?)
    returns (key': Expiration, ghost p': Shape, ghost q': Shape)
    requires Neighbours(p, q) && p.node == left && q.node == child && |p.keys| >= 2 && Linked(Leaves(p) + Leaves(q), after)
    modifies left`keys, left`children, child`keys, child`children
    ensures Exchanged(p, q, p', q') && LendLast(PairOf(p, key, q)) == PairOf(p', key', q')
    ensures Linked(Leaves(p') + Leaves(q'), after)
  {
    ghost var ls := Leaves(p) + Leaves(q);
    assert allocated(p) && allocated(q) && allocated(Leaves(p)) && allocated(Leaves(q)) && allocated(ls);
    if child.leaf {
      key', p', q' := BorrowKeyFromLeft(left, child, p, q, key);
    } else {
      key', p', q' := BorrowChildFromLeft(left, child, key, p, q);
    }
    assert Linked(ls, after);
  }

  // ---- borrowing from the right ----

  method BorrowKeyFromRight(child: TreeNode, right: TreeNode, ghost p: Shape, ghost q: Shape, ghost key: Expiration)
    returns (key': Expiration, ghost p': Shape, ghost q': Shape)
    requires Neighbours(p, q) && p.node == child && q.node == right && |q.keys| >= 2 && p.LeafAt?
    modifies child`keys, right`keys
    ensures Exchanged(p, q, p', q') && LendFirst(PairOf(p, key, q)) == PairOf(p', key', q')
  {
    var moved := right.keys[0];
    right.keys := right.keys[1..];
    child.keys := child.keys + [moved];
    key' := right.keys[0];
    p', q' := LeafAt(child, child.keys), LeafAt(right, right.keys);
  }

  lemma {:induction false} LendFirstValue(p: Shape, key: Expiration, q: Shape, k: Shape, r: seq<Shape>)
    requires p.NodeAt? && q.NodeAt? && q.kids == [k] + r && |q.kids| == |q.keys| + 1 && |q.keys| >= 2
    ensures LendFirst(PairOf(p, key, q)) ==
            Pair(Node(p.keys + [key], AllPlain(p.kids + [k])), q.keys[0], Node(q.keys[1..], AllPlain(r)))
  {
    PlainConcat(p.kids, [k]);
    PlainConcat([k], r);
    One(k);
    assert AllPlain(q.kids)[1..] == AllPlain(r) && AllPlain(q.kids)[0] == Plain(k);
  }

  /** Moves the first child of one node to the end of the other. */
  method MoveFirst(child: TreeNode, right: TreeNode, key: Expiration) returns (key': Expiration)
    requires child != right && |right.keys| >= 1 && |right.children| == |right.keys| + 1
    modifies child`keys, child`children, right`keys, right`children
    ensures key' == old(right.keys)[0] && right.keys == old(right.keys)[1..] && right.children == old(right.children)[1..]
    ensures child.keys == old(child.keys) + [key] && child.children == old(child.children) + [old(right.children)[0]]
  {
    var moved := right.children[0];
    child.keys := child.keys + [key];
    child.children := child.children + [moved];
    key' := right.keys[0];
    right.keys := right.keys[1..];
    right.children := right.children[1..];
  }

  method BorrowChildFromRight(child: TreeNode, right: TreeNode, key: Expiration, ghost p: Shape, ghost q: Shape)
    returns (key': Expiration, ghost p': Shape, ghost q': Shape)
    requires Neighbours(p, q) && p.node == child && q.node == right && |q.keys| >= 2 && p.NodeAt?
    modifies child`keys, child`children, right`keys, right`children
    ensures Exchanged(p, q, p', q') && LendFirst(PairOf(p, key, q)) == PairOf(p', key', q')
  {
    KidsOf(p, q);
    HasLeaf(p);
    ghost var none, k, r := CutAround(q.kids, 0);
    assert q.kids == [k] + r;
    MoveKid(child, right, p.kids, k, r);
    LendFirstValue(p, key, q, k, r);
    TopsConcat(p.kids, [k]);
    TopsConcat([k], r);
    assert allocated(p) && allocated(q) && allocated(AllNodes(p.kids)) && allocated(AllNodes(q.kids));
    ghost var kids := Kids(child, right, p.kids + [k], r);
    key' := MoveFirst(child, right, key);
    assert Kids(child, right, p.kids + [k], r) == kids;
    p', q' := NodeAt(child, child.keys, p.kids + [k]), NodeAt(right, right.keys, r);
    MovedKids(p, q, p', q');
  }

  /** The right neighbour lends its first key, or its first child; the chain is not touched. */
  method BorrowFromRight(child: TreeNode, right: TreeNode, key: Expiration, ghost p: Shape, ghost q: Shape,
                         ghost after: TreeNode?)
    returns (key': Expiration, ghost p': Shape, ghost q': Shape)
    requires Neighbours(p, q) && p.node == child && q.node == right && |q.keys| >= 2 && Linked(Leaves(p) + Leaves(q), after)
    modifies child`keys, child`children, right`keys, right`children
    ensures Exchanged(p, q, p', q') && LendFirst(PairOf(p, key, q)) == PairOf(p', key', q')
    ensures Linked(Leaves(p') + Leaves(q'), after)
  {
    ghost var ls := Leaves(p) + Leaves(q);
    assert allocated(p) && allocated(q) && allocated(Leaves(p)) && allocated(Leaves(q)) && allocated(ls);
    if child.leaf {
      key', p', q' := BorrowKeyFromRight(child, right, p, q, key);
    } else {
      key', p', q' := BorrowChildFromRight(child, right, key, p, q);
    }
    assert Linked(ls, after);
  }

  // ---- merging ----

  /** Two neighbours have become one, in the place of the left one. */
  ghost predicate Merged(p: Shape, q: Shape, m: Shape, after: TreeNode?)
    reads Nodes(m), Leaves(m)
  {
    && Own(m) && m.node == p.node && Nodes(m) <= Nodes(p) + Nodes(q) && Linked(Leaves(m), after)
    && Leaves(m) != [] && Leaves(p) != [] && Leaves(m)[0] == Leaves(p)[0]
  }

  /** The right leaf drops out of the chain. */
  method MergeLeaves(left: TreeNode, right: TreeNode, ghost p: Shape, ghost q: Shape, ghost key: Expiration,
                     ghost after: TreeNode?)
    returns (ghost m: Shape)
    requires Neighbours(p, q) && p.node == left && q.node == right && p.LeafAt? && Linked(Leaves(p) + Leaves(q), after)
    modifies left`keys, left`next
    ensures Merged(p, q, m, after) && Join(PairOf(p, key, q)) == Plain(m)
  {
    assert Leaves(p) + Leaves(q) == [left, right];
    assert right.next == After(Leaves(p) + Leaves(q), 1, after);
    left.keys := left.keys + right.keys;
    left.next := right.next;
    m := LeafAt(left, left.keys);
  }

  lemma {:induction false} JoinedKids(p: Shape, key: Expiration, q: Shape, after: TreeNode?)
    requires p.NodeAt? && q.NodeAt? && Kids(p.node, q.node, p.kids, q.kids) && AllLeaves(p.kids) != []
    requires |p.kids| == |p.keys| + 1 && |q.kids| == |q.keys| + 1
    requires !p.node.leaf && p.node.keys == p.keys + [key] + q.keys && p.node.children == Tops(p.kids) + Tops(q.kids)
    requires Linked(AllLeaves(p.kids) + AllLeaves(q.kids), after)
    ensures var m := NodeAt(p.node, p.keys + [key] + q.keys, p.kids + q.kids);
            Merged(p, q, m, after) && Join(PairOf(p, key, q)) == Plain(m)
  {
    Concat(p.kids, q.kids);
    ConcatAt(p.kids, q.kids);
    TopsConcat(p.kids, q.kids);
    PlainConcat(p.kids, q.kids);
  }

  method MergeInternals(left: TreeNode, right: TreeNode, key: Expiration, ghost p: Shape, ghost q: Shape,
                        ghost after: TreeNode?)
    returns (ghost m: Shape)
    requires Neighbours(p, q) && p.node == left && q.node == right && p.NodeAt? && Linked(Leaves(p) + Leaves(q), after)
    modifies left`keys, left`children
    ensures Merged(p, q, m, after) && Join(PairOf(p, key, q)) == Plain(m)
  {
    KidsOf(p, q);
    HasLeaf(p);
    ghost var ls := Leaves(p) + Leaves(q);
    left.keys := left.keys + [key];
    left.keys := left.keys + right.keys;
    left.children := left.children + right.children;
    assert Linked(ls, after);
    assert Kids(left, right, p.kids, q.kids);
    JoinedKids(p, key, q, after);
    m := NodeAt(left, p.keys + [key] + q.keys, p.kids + q.kids);
  }

  /** The right neighbour is merged into the left one; a leaf takes over its place in the chain. */
  method Merge(left: TreeNode, right: TreeNode, key: Expiration, ghost p: Shape, ghost q: Shape, ghost after: TreeNode?)
    returns (ghost m: Shape)
    requires Neighbours(p, q) && p.node == left && q.node == right && Linked(Leaves(p) + Leaves(q), after)
    modifies left
    ensures Merged(p, q, m, after) && Join(PairOf(p, key, q)) == Plain(m)
  {
    if left.leaf {
      m := MergeLeaves(left, right, p, q, key, after);
    } else {
      m := MergeInternals(left, right, key, p, q, after);
    }
  }
}
