/** The B+Tree object: insertion, deletion, the first entry and range queries, specified by the set it holds. */
module BPlusTree {
  import opened Options
  import opened BTreeOrder
  import opened BTreeSpec
  import opened BTreeGood
  import opened BTreeHeap
  import opened BTreeInsert
  import opened BTreeFix
  import opened BTreeErase
  import opened BTreeTheorems

  // ---- contents along the chain ----

  /** The keys met on a walk through the leaves. */
  ghost function KeysOf(ls: seq<TreeNode>): seq<Expiration>
    reads ls
  {
    if ls == [] then [] else ls[0].keys + KeysOf(ls[1..])
  }

  lemma {:induction false} KeysConcat(a: seq<TreeNode>, b: seq<TreeNode>)
    ensures KeysOf(a + b) == KeysOf(a) + KeysOf(b)
    decreases |a|
  {
    if a == [] {
      assert a + b == b;
    } else {
      assert (a + b)[1..] == a[1..] + b;
      KeysConcat(a[1..], b);
    }
  }

  /** The leaves hold the contents, in order. */
  lemma {:induction false} ChainHoldsContents(a: Shape)
    requires At(a)
    ensures KeysOf(Leaves(a)) == Contents(Plain(a))
    decreases a, 0
  {
    if a.LeafAt? {
      assert [a.node][1..] == [] && KeysOf([]) == [];
    } else {
      ChainHoldsAll(a.kids);
    }
  }

  lemma {:induction false} ChainHoldsAll(cs: seq<Shape>)
    requires AllAt(cs)
    ensures KeysOf(AllLeaves(cs)) == Flat(AllPlain(cs))
    decreases cs, 1
  {
    if cs != [] {
      ChainHoldsContents(cs[0]);
      ChainHoldsAll(cs[1..]);
      KeysConcat(Leaves(cs[0]), AllLeaves(cs[1..]));
      assert AllPlain(cs)[1..] == AllPlain(cs[1..]);
    }
  }

  class Tree {
    var root: TreeNode
    ghost var shape: Shape
    ghost var height: nat

    ghost predicate Valid()
      reads this, Nodes(shape), Leaves(shape)
    {
      Rooted(root, shape, height)
    }

    /** The entries, as a plain set. */
    ghost function Set(): set<Expiration>
      reads this
    {
      Members(Plain(shape))
    }

    constructor ()
      ensures Valid() && Set() == {} && fresh(Nodes(shape))
    {
      var leaf := new TreeNode(true, [], [], null);
      root, shape, height := leaf, LeafAt(leaf, []), 0;
      new;
      assert Leaves(shape) == [leaf];
    }

    /** Adds an entry; adding one that is there changes nothing. */
    method Insert(exp: int, key: string)
      requires Valid()
      modifies this, Nodes(shape)
      ensures Valid() && Set() == old(Set()) + {Expiration(key, exp)}
      ensures forall m :: m in Nodes(shape) ==> m in old(Nodes(shape)) || fresh(m)
    {
      var top, b, h := InsertAtRoot(root, Expiration(key, exp), shape, height);
      root, shape, height := top, b, h;
    }

    /** Removes an entry; reports whether it was there. */
    method Delete(exp: int, key: string) returns (found: bool)
      requires Valid()
      modifies this, Nodes(shape)
      ensures Valid() && Nodes(shape) <= old(Nodes(shape))
      ensures found <==> Expiration(key, exp) in old(Set())
      ensures Set() == old(Set()) - {Expiration(key, exp)}
    {
      ghost var b, h;
      var top;
      found, top, b, h := DeleteAtRoot(root, Expiration(key, exp), shape, height);
      root, shape, height := top, b, h;
    }

    /** Descends to the leftmost leaf, which is empty only if the tree is. */
    method Leftmost() returns (n: TreeNode)
      requires Valid()
      ensures Valid() && Leaves(shape) != [] && n == Leaves(shape)[0] && (n.keys == [] ==> Set() == {})
    {
      HasLeaf(shape);
      n := root;
      ghost var s, h, lo, hi := shape, height, None, None;
      while !n.leaf
        invariant Valid() && At(s) && s.node == n && Leaves(s) != [] && Leaves(s)[0] == Leaves(shape)[0]
        invariant Good(Plain(s), h, lo, hi) && (s == shape || s.keys != [])
        decreases s
      {
        FirstKid(s, h, lo, hi);
        n, s, h, lo, hi := n.children[0], s.kids[0], h - 1, lo, Hi(s.keys, 0, hi);
      }
    }

    /** The entry that expires first. */
    method First() returns (r: Option<Expiration>)
      requires Valid()
      ensures Valid() && (r.None? <==> Set() == {})
      ensures r.Some? ==> r.value in Set() && forall x :: x in Set() ==> x == r.value || Less(r.value, x)
    {
      var n := Leftmost();
      Minimum(shape, height, n);
      if |n.keys| == 0 { return None; }
      return Some(n.keys[0]);
    }

    /** All entries that expire up to `end`, in ascending order. */
    method Range(end: int) returns (r: seq<Expiration>)
      requires Valid()
      ensures Sorted(r) && forall x :: x in r <==> x in Set() && x.exp <= end
    {
      var first := Leftmost();
      ChainHoldsContents(shape);
      RangeIsAll(Plain(shape), height, end);
      r := Walk(first, end, Leaves(shape), Contents(Plain(shape)));
    }
  }

  /** A whole tree of nodes under `root`. */
  ghost predicate Rooted(root: TreeNode, a: Shape, h: nat)
    reads Nodes(a), Leaves(a)
  {
    a.node == root && Own(a) && Linked(Leaves(a), null) && GoodRoot(Plain(a), h)
  }

  method InsertAtRoot(root: TreeNode, x: Expiration, ghost a: Shape, ghost h: nat)
    returns (top: TreeNode, ghost b: Shape, ghost h': nat)
    requires Rooted(root, a, h)
    modifies Nodes(a)
    ensures Rooted(top, b, h') && Members(Plain(b)) == Members(Plain(a)) + {x}
    ensures forall m :: m in Nodes(b) ==> m in Nodes(a) || fresh(m)
  {
    ghost var goal := InsertRoot(Plain(a), x);
    h' := InsertRootKeeps(Plain(a), h, x);
    var k, right;
    ghost var c;
    top := root;
    k, right, b, c := InsertNode(root, x, a, h, None, None, null);
    if right != null {
      top, b := MakeRoot(root, k, right, b, c);
    }
    assert Plain(b) == goal;
  }

  method DeleteAtRoot(root: TreeNode, x: Expiration, ghost a: Shape, ghost h: nat)
    returns (found: bool, top: TreeNode, ghost b: Shape, ghost h': nat)
    requires Rooted(root, a, h)
    modifies Nodes(a)
    ensures Rooted(top, b, h') && Nodes(b) <= Nodes(a)
    ensures (found <==> x in Members(Plain(a))) && Members(Plain(b)) == Members(Plain(a)) - {x}
  {
    ghost var goal;
    h', goal := Erased(Plain(a), h, x);
    top := root;
    found, b := DeleteNode(root, x, a, h, None, None, null);
    if found {
      top, b := DropRoot(root, b);
    }
    assert Plain(b) == goal;
  }

  lemma {:induction false} UpToConcat(a: seq<Expiration>, b: seq<Expiration>, end: int)
    ensures UpTo(a + b, end) == if |UpTo(a, end)| < |a| then UpTo(a, end) else a + UpTo(b, end)
    ensures |UpTo(a, end)| <= |a|
    decreases |a|
  {
    if a == [] {
      assert a + b == b;
    } else {
      assert (a + b)[1..] == a[1..] + b && (a + b)[0] == a[0];
      UpToConcat(a[1..], b, end);
      assert a[0].exp <= end ==> [a[0]] + (a[1..] + UpTo(b, end)) == a + UpTo(b, end);
    }
  }

  /** The loop over the keys of one leaf, which stops at the first later expiry. */
  method Collect(keys: seq<Expiration>, end: int) returns (r: seq<Expiration>, stopped: bool)
    ensures r == UpTo(keys, end) && (stopped <==> |r| < |keys|)
    ensures !stopped ==> r == keys
  {
    r := [];
    var j := 0;
    while j < |keys|
      invariant 0 <= j <= |keys| && r == keys[..j] && keys[..j] + UpTo(keys[j..], end) == UpTo(keys, end)
    {
      assert keys[j..][0] == keys[j] && keys[j..][1..] == keys[j + 1..];
      if keys[j].exp > end { return r, true; }
      assert keys[..j + 1] == keys[..j] + [keys[j]];
      assert keys[..j] + ([keys[j]] + UpTo(keys[j + 1..], end)) == keys[..j + 1] + UpTo(keys[j + 1..], end);
      r := r + [keys[j]];
      j := j + 1;
    }
    assert keys[..j] == keys && keys[j..] == [];
    return r, false;
  }

  lemma {:induction false} RangeIsAll(t: BTreeSpec.Tree, h: nat, end: int)
    requires GoodRoot(t, h)
    ensures var r := UpTo(Contents(t), end); Sorted(r) && forall x :: x in r <==> x in Members(t) && x.exp <= end
  {
    ContentsSorted(t, h, None, None);
    UpToIsAll(Contents(t), end);
  }

  lemma {:induction false} NextLeaf(ls: seq<TreeNode>, i: nat)
    requires Linked(ls, null) && i < |ls|
    ensures KeysOf(ls[i..]) == ls[i].keys + KeysOf(ls[i + 1..])
    ensures ls[i].next == if i + 1 < |ls| then ls[i + 1] else null
  {
    assert ls[i..][0] == ls[i] && ls[i..][1..] == ls[i + 1..];
    assert ls[i].next == After(ls, i, null);
  }

  lemma {:induction false} OneMoreLeaf(r: seq<Expiration>, keys: seq<Expiration>, rest: seq<Expiration>, end: int)
    ensures var more := UpTo(keys, end);
            r + UpTo(keys + rest, end) == if |more| < |keys| then r + more else r + keys + UpTo(rest, end)
  {
    UpToConcat(keys, rest, end);
    assert r + (keys + UpTo(rest, end)) == r + keys + UpTo(rest, end);
  }

  /** The walk along the chain of leaves. */
  method Walk(first: TreeNode, end: int, ghost ls: seq<TreeNode>, ghost all: seq<Expiration>)
    returns (r: seq<Expiration>)
    requires Linked(ls, null) && ls != [] && first == ls[0] && all == KeysOf(ls)
    ensures r == UpTo(all, end)
  {
    r := [];
    var n: TreeNode? := first;
    ghost var i, todo := 0, all;
    assert ls[0..] == ls && [] + UpTo(all, end) == UpTo(all, end);
    while n != null
      invariant 0 <= i <= |ls| && n == (if i < |ls| then ls[i] else null)
      invariant Linked(ls, null) && todo == KeysOf(ls[i..]) && r + UpTo(todo, end) == UpTo(all, end)
      decreases |ls| - i
    {
      NextLeaf(ls, i);
      ghost var rest := KeysOf(ls[i + 1..]);
      OneMoreLeaf(r, n.keys, rest, end);
      var next := n.next;
      var more, stopped := Collect(n.keys, end);
      r := r + more;
      if stopped { return; }
      n, i, todo := next, i + 1, rest;
    }
    assert ls[i..] == [];
  }

  /** The first key of the leftmost leaf is the least entry. */
  lemma {:induction false} Minimum(a: Shape, h: nat, n: TreeNode)
    requires At(a) && GoodRoot(Plain(a), h) && Leaves(a) != [] && n == Leaves(a)[0]
    ensures n.keys != [] ==>
              n.keys[0] in Members(Plain(a)) && forall x :: x in Members(Plain(a)) ==> x == n.keys[0] || Less(n.keys[0], x)
  {
    var ls, all := Leaves(a), Contents(Plain(a));
    ChainHoldsContents(a);
    ContentsSorted(Plain(a), h, None, None);
    assert all == n.keys + KeysOf(ls[1..]);
    if n.keys != [] { assert all[0] == n.keys[0]; }
  }

  lemma {:induction false} FirstKid(s: Shape, h: nat, lo: Option<Expiration>, hi: Option<Expiration>)
    requires At(s) && s.NodeAt? && Good(Plain(s), h, lo, hi)
    ensures h > 0 && s.kids != [] && At(s.kids[0]) && s.kids[0].node == s.node.children[0]
    ensures Leaves(s.kids[0]) != [] && Leaves(s) != [] && Leaves(s.kids[0])[0] == Leaves(s)[0] && s.kids[0].keys != []
    ensures Good(Plain(s.kids[0]), h - 1, lo, Hi(s.keys, 0, hi))
  {
    HasLeaf(s.kids[0]);
    PlainAt(s.kids, 0);
  }

  /** The tree that a deletion is to leave behind. */
  lemma {:induction false} Erased(t: BTreeSpec.Tree, h: nat, x: Expiration) returns (h': nat, goal: BTreeSpec.Tree)
    requires GoodRoot(t, h)
    ensures GoodRoot(goal, h') && Members(goal) == Members(t) - {x}
    ensures BTreeSpec.Delete(t, x).Some? <==> x in Members(t)
    ensures BTreeSpec.Delete(t, x).None? ==> goal == t
    ensures BTreeSpec.Delete(t, x).Some? ==>
              var t' := BTreeSpec.Delete(t, x).value;
              goal == if t'.Node? && |t'.children| == 1 then t'.children[0] else t'
  {
    h' := DeleteRootKeeps(t, h, x);
    goal := if DeleteRoot(t, x).Some? then DeleteRoot(t, x).value else t;
    if DeleteRoot(t, x).None? { h' := h; }
  }

  /** A new root above the two halves of a split one. */
  method MakeRoot(left: TreeNode, k: Expiration, right: TreeNode, ghost b: Shape, ghost c: Shape)
    returns (top: TreeNode, ghost a: Shape)
    requires Own(b) && Own(c) && b.node == left && c.node == right && Nodes(b) !! Nodes(c)
    requires Linked(Leaves(b) + Leaves(c), null)
    ensures fresh(top) && a.node == top && Own(a) && Linked(Leaves(a), null) && Nodes(a) == {top} + Nodes(b) + Nodes(c)
    ensures Plain(a) == Node([k], [Plain(b), Plain(c)])
  {
    ghost var ls := Leaves(b) + Leaves(c);
    assert allocated(b) && allocated(c) && allocated(Nodes(b)) && allocated(Nodes(c));
    assert allocated(Leaves(b)) && allocated(Leaves(c)) && allocated(ls);
    top := new TreeNode(false, [k], [left, right], null);
    assert Linked(ls, null);
    NewRoot(top, k, b, c);
    a := NodeAt(top, [k], [b, c]);
  }

  /** A root with a single child gives way to it. */
  method DropRoot(root: TreeNode, ghost b: Shape) returns (top: TreeNode, ghost a: Shape)
    requires Own(b) && b.node == root && Linked(Leaves(b), null)
    ensures a.node == top && Own(a) && Linked(Leaves(a), null) && Nodes(a) <= Nodes(b)
    ensures var t := Plain(b); Plain(a) == if t.Node? && |t.children| == 1 then t.children[0] else t
  {
    if !root.leaf && |root.children| == 1 {
      OnlyKid(b);
      return root.children[0], b.kids[0];
    }
    return root, b;
  }

  lemma {:induction false} NewRoot(top: TreeNode, k: Expiration, b: Shape, c: Shape)
    requires Own(b) && Own(c) && Nodes(b) !! Nodes(c) && top !in Nodes(b) + Nodes(c)
    requires !top.leaf && top.keys == [k] && top.children == [b.node, c.node] && Linked(Leaves(b) + Leaves(c), null)
    ensures var a := NodeAt(top, [k], [b, c]);
            Own(a) && Leaves(a) == Leaves(b) + Leaves(c) && Plain(a) == Node([k], [Plain(b), Plain(c)])
            && Nodes(a) == {top} + Nodes(b) + Nodes(c)
  {
    TwoChained(b, c, null);
    TwoFlat(b, c);
    assert [b, c] == [b] + [c];
    Concat([b], [c]);
    One(b);
    One(c);
  }

  lemma {:induction false} OnlyKid(b: Shape)
    requires Own(b) && b.NodeAt? && |b.node.children| == 1
    ensures |b.kids| == 1 && Own(b.kids[0]) && b.kids[0].node == b.node.children[0] && Nodes(b.kids[0]) <= Nodes(b)
    ensures Leaves(b.kids[0]) == Leaves(b) && Plain(b) == Node(b.keys, [Plain(b.kids[0])])
  {
    assert b.kids == [b.kids[0]];
    One(b.kids[0]);
    OneAt(b.kids[0]);
  }
}
