/** Deletion keeps the invariant, removes exactly the given entry, and fails exactly when the entry is absent. */
module BTreeRemove {
  import opened Options
  import opened BTreeOrder
  import opened BTreeSpec
  import opened BTreeGood
  import opened BTreeUpdate

  // ---- neighbours ----

  /** Two good neighbours with their separator between them. */
  predicate GoodPair(p: Pair, h: nat, lo: Option<Expiration>, hi: Option<Expiration>) {
    Good(p.left, h, lo, Some(p.key)) && Good(p.right, h, Some(p.key), hi) && Inside(p.key, lo, hi)
  }

  function PairContents(p: Pair): seq<Expiration> {
    Contents(p.left) + Contents(p.right)
  }

  lemma {:induction false} LendLastLeaf(p: Pair, lo: Option<Expiration>, hi: Option<Expiration>)
    requires GoodPair(p, 0, lo, hi) && |p.left.keys| > MIN_KEYS
    ensures GoodPair(LendLast(p), 0, lo, hi) && PairContents(LendLast(p)) == PairContents(p)
  {
    TotalOrder();
    var l, r := p.left.keys, p.right.keys;
    var last := |l| - 1;
    EntriesPart(l, lo, Some(p.key), last);
    assert l == l[..last] + [l[last]];
    assert l[last..] == [l[last]];
    EntriesConcat(l[last..], p.key, r, Some(l[last]), hi);
    assert l[..last] + ([l[last]] + r) == l + r;
  }

  lemma {:induction false} LendLastNode(p: Pair, h: nat, lo: Option<Expiration>, hi: Option<Expiration>)
    requires GoodPair(p, h + 1, lo, hi) && |p.left.keys| > MIN_KEYS
    ensures GoodPair(LendLast(p), h + 1, lo, hi)
  {
    var l, r := p.left, p.right;
    var last := |l.keys| - 1;
    GoodIsRow(l.keys, l.children, h, lo, Some(p.key));
    GoodIsRow(r.keys, r.children, h, Some(p.key), hi);
    RowSplit(l.keys, l.children, h, lo, Some(p.key), last);
    assert l.keys[last + 1..] == [] && l.children[last + 1..] == [l.children[last + 1]];
    GoodIsRow(l.keys[..last], l.children[..last + 1], h, lo, Some(l.keys[last]));
    InsideWider(l.keys[last], lo, p.key, hi);
    RowJoin([], [l.children[last + 1]], p.key, r.keys, r.children, h, Some(l.keys[last]), hi);
    assert [] + [p.key] + r.keys == [p.key] + r.keys;
    GoodIsRow([p.key] + r.keys, [l.children[last + 1]] + r.children, h, Some(l.keys[last]), hi);
  }

  /** What is strictly below a separator is between the outer bounds, and the separator is above it. */
  lemma {:induction false} InsideWider(k: Expiration, lo: Option<Expiration>, sep: Expiration, hi: Option<Expiration>)
    requires Inside(k, lo, Some(sep)) && Inside(sep, lo, hi)
    ensures Inside(k, lo, hi) && Inside(sep, Some(k), hi)
  {
    TotalOrder();
  }

  lemma {:induction false} InsideWiderRight(k: Expiration, lo: Option<Expiration>, sep: Expiration, hi: Option<Expiration>)
    requires Inside(k, Some(sep), hi) && Inside(sep, lo, hi)
    ensures Inside(k, lo, hi) && Inside(sep, lo, Some(k))
  {
    TotalOrder();
  }

  lemma {:induction false} LendLastContents(p: Pair)
    requires p.left.Node? && p.right.Node? && Proper(p.left) && p.left.keys != []
    ensures PairContents(LendLast(p)) == PairContents(p)
  {
    var l, r, last := p.left.children, p.right.children, |p.left.keys| - 1;
    assert l == l[..last + 1] + [l[last + 1]];
    FlatConcat(l[..last + 1], [l[last + 1]]);
    FlatConcat([l[last + 1]], r);
  }

  lemma {:induction false} LendFirstLeaf(p: Pair, lo: Option<Expiration>, hi: Option<Expiration>)
    requires GoodPair(p, 0, lo, hi) && |p.right.keys| > MIN_KEYS
    ensures GoodPair(LendFirst(p), 0, lo, hi) && PairContents(LendFirst(p)) == PairContents(p)
  {
    TotalOrder();
    var l, r := p.left.keys, p.right.keys;
    EntriesPart(r, Some(p.key), hi, 1);
    assert r[..1] == [r[0]] && r == [r[0]] + r[1..];
    EntriesConcat(l, p.key, r[..1], lo, Some(r[1]));
    assert l + [r[0]] + r[1..] == l + r;
  }

  lemma {:induction false} LendFirstNode(p: Pair, h: nat, lo: Option<Expiration>, hi: Option<Expiration>)
    requires GoodPair(p, h + 1, lo, hi) && |p.right.keys| > MIN_KEYS
    ensures GoodPair(LendFirst(p), h + 1, lo, hi)
  {
    var l, r := p.left, p.right;
    GoodIsRow(l.keys, l.children, h, lo, Some(p.key));
    GoodIsRow(r.keys, r.children, h, Some(p.key), hi);
    RowSplit(r.keys, r.children, h, Some(p.key), hi, 0);
    assert r.keys[..0] == [] && r.children[..1] == [r.children[0]];
    InsideWiderRight(r.keys[0], lo, p.key, hi);
    RowJoin(l.keys, l.children, p.key, [], [r.children[0]], h, lo, Some(r.keys[0]));
    assert l.keys + [p.key] + [] == l.keys + [p.key];
    GoodIsRow(l.keys + [p.key], l.children + [r.children[0]], h, lo, Some(r.keys[0]));
    GoodIsRow(r.keys[1..], r.children[1..], h, Some(r.keys[0]), hi);
  }

  lemma {:induction false} LendFirstContents(p: Pair)
    requires p.left.Node? && p.right.Node? && Proper(p.right) && |p.right.keys| >= 2
    ensures PairContents(LendFirst(p)) == PairContents(p)
  {
    var l, r := p.left.children, p.right.children;
    FlatConcat(l, [r[0]]);
    FlatOne(r[0]);
    assert Flat(r) == Contents(r[0]) + Flat(r[1..]);
  }

  lemma {:induction false} JoinLeaf(p: Pair, lo: Option<Expiration>, hi: Option<Expiration>)
    requires GoodPair(p, 0, lo, hi)
    ensures Good(Join(p), 0, lo, hi) && Contents(Join(p)) == PairContents(p)
  {
    EntriesConcat(p.left.keys, p.key, p.right.keys, lo, hi);
  }

  lemma {:induction false} JoinNode(p: Pair, h: nat, lo: Option<Expiration>, hi: Option<Expiration>)
    requires GoodPair(p, h + 1, lo, hi)
    ensures Good(Join(p), h + 1, lo, hi) && Contents(Join(p)) == PairContents(p)
  {
    var l, r := p.left, p.right;
    GoodIsRow(l.keys, l.children, h, lo, Some(p.key));
    GoodIsRow(r.keys, r.children, h, Some(p.key), hi);
    RowJoin(l.keys, l.children, p.key, r.keys, r.children, h, lo, hi);
    GoodIsRow(l.keys + [p.key] + r.keys, l.children + r.children, h, lo, hi);
    FlatConcat(l.children, r.children);
  }

  /** The three repairs, at any height. `FilledPair` says that the neighbours may stay as they are. */
  predicate FilledPair(p: Pair) {
    Filled(p.left) && Filled(p.right)
  }

  lemma {:induction false} LendLastGood(p: Pair, h: nat, lo: Option<Expiration>, hi: Option<Expiration>)
    requires GoodPair(p, h, lo, hi) && MIN_KEYS < |p.left.keys| <= MAX_KEYS && |p.right.keys| == MIN_KEYS - 1
    ensures GoodPair(LendLast(p), h, lo, hi) && FilledPair(LendLast(p)) && PairContents(LendLast(p)) == PairContents(p)
  {
    if h == 0 {
      LendLastLeaf(p, lo, hi);
    } else {
      LendLastNode(p, h - 1, lo, hi);
      LendLastContents(p);
    }
  }

  lemma {:induction false} LendFirstGood(p: Pair, h: nat, lo: Option<Expiration>, hi: Option<Expiration>)
    requires GoodPair(p, h, lo, hi) && MIN_KEYS < |p.right.keys| <= MAX_KEYS && |p.left.keys| == MIN_KEYS - 1
    ensures GoodPair(LendFirst(p), h, lo, hi) && FilledPair(LendFirst(p))
    ensures PairContents(LendFirst(p)) == PairContents(p)
  {
    if h == 0 {
      LendFirstLeaf(p, lo, hi);
    } else {
      LendFirstNode(p, h - 1, lo, hi);
      LendFirstContents(p);
    }
  }

  lemma {:induction false} JoinGood(p: Pair, h: nat, lo: Option<Expiration>, hi: Option<Expiration>)
    requires GoodPair(p, h, lo, hi) && 2 * MIN_KEYS - 1 == |p.left.keys| + |p.right.keys|
    ensures Good(Join(p), h, lo, hi) && Filled(Join(p)) && Contents(Join(p)) == PairContents(p)
  {
    if h == 0 { JoinLeaf(p, lo, hi); } else { JoinNode(p, h - 1, lo, hi); }
  }

  // ---- repairs in a row ----

  lemma {:induction false} PutPairRow(keys: seq<Expiration>, cs: seq<Tree>, h: nat, lo: Option<Expiration>, hi: Option<Expiration>,
                   j: nat, q: Pair)
    requires Row(keys, cs, h, lo, hi) && j < |keys|
    requires GoodPair(q, h, Lo(keys, j, lo), Hi(keys, j + 1, hi)) && FilledPair(q)
    ensures Row(keys[j := q.key], cs[j := q.left][j + 1 := q.right], h, lo, hi)
  {
    PairRow(q.left, q.key, q.right, h, Lo(keys, j, lo), Hi(keys, j + 1, hi));
    RowReplace(keys, cs, h, lo, hi, j, j + 1, [q.key], [q.left, q.right]);
    assert keys[..j] + [q.key] + keys[j + 1..] == keys[j := q.key];
    assert cs[..j] + [q.left, q.right] + cs[j + 2..] == cs[j := q.left][j + 1 := q.right];
  }

  lemma {:induction false} PutJoinedRow(keys: seq<Expiration>, cs: seq<Tree>, h: nat, lo: Option<Expiration>, hi: Option<Expiration>,
                     j: nat, c: Tree)
    requires Row(keys, cs, h, lo, hi) && j < |keys|
    requires Good(c, h, Lo(keys, j, lo), Hi(keys, j + 1, hi)) && Filled(c)
    ensures Row(RemoveAt(keys, j), RemoveAt(cs[j := c], j + 1), h, lo, hi)
  {
    SingleRow(c, h, Lo(keys, j, lo), Hi(keys, j + 1, hi));
    RowReplace(keys, cs, h, lo, hi, j, j + 1, [], [c]);
    assert keys[..j] + [] + keys[j + 1..] == RemoveAt(keys, j);
    assert cs[..j] + [c] + cs[j + 2..] == RemoveAt(cs[j := c], j + 1);
  }

  lemma {:induction false} FlatPair(cs: seq<Tree>, j: nat, k: Expiration)
    requires j + 1 < |cs|
    ensures Flat(cs) == Flat(cs[..j]) + PairContents(Pair(cs[j], k, cs[j + 1])) + Flat(cs[j + 2..])
  {
    FlatAround(cs, j, j + 2);
    assert cs[j..j + 2] == [cs[j]] + [cs[j + 1]];
    FlatConcat([cs[j]], [cs[j + 1]]);
    FlatOne(cs[j]);
    FlatOne(cs[j + 1]);
  }

  lemma {:induction false} PutPairFlat(cs: seq<Tree>, j: nat, q: Pair, k: Expiration)
    requires j + 1 < |cs| && PairContents(q) == PairContents(Pair(cs[j], k, cs[j + 1]))
    ensures Flat(cs[j := q.left][j + 1 := q.right]) == Flat(cs)
  {
    var cs' := cs[j := q.left][j + 1 := q.right];
    FlatPair(cs, j, k);
    FlatPair(cs', j, q.key);
    assert cs'[..j] == cs[..j] && cs'[j + 2..] == cs[j + 2..];
  }

  lemma {:induction false} PutJoinedFlat(cs: seq<Tree>, j: nat, c: Tree, k: Expiration)
    requires j + 1 < |cs| && Contents(c) == PairContents(Pair(cs[j], k, cs[j + 1]))
    ensures Flat(RemoveAt(cs[j := c], j + 1)) == Flat(cs)
  {
    var cs' := RemoveAt(cs[j := c], j + 1);
    FlatPair(cs, j, k);
    FlatAround(cs', j, j + 1);
    FlatOne(c);
    assert cs'[..j] == cs[..j] && cs'[j..j + 1] == [c] && cs'[j + 1..] == cs[j + 2..];
  }

  /** A node one of whose children has lost a key. */
  predicate Short(keys: seq<Expiration>, cs: seq<Tree>, h: nat, lo: Option<Expiration>, hi: Option<Expiration>,
                  i: nat, c: Tree)
  {
    && Row(keys, cs, h, lo, hi) && i <= |keys|
    && Good(c, h, Lo(keys, i, lo), Hi(keys, i, hi)) && MIN_KEYS - 1 <= |c.keys| <= MAX_KEYS
  }

  lemma {:induction false} PairOfShort(keys: seq<Expiration>, cs: seq<Tree>, h: nat, lo: Option<Expiration>, hi: Option<Expiration>,
                    i: nat, c: Tree, j: nat)
    requires Short(keys, cs, h, lo, hi, i, c) && j < |keys| && (i == j || i == j + 1)
    ensures GoodPair(Pair(cs[i := c][j], keys[j], cs[i := c][j + 1]), h, Lo(keys, j, lo), Hi(keys, j + 1, hi))
  {
    assert Good(cs[j], h, Lo(keys, j, lo), Hi(keys, j, hi));
    assert Good(cs[j + 1], h, Lo(keys, j + 1, lo), Hi(keys, j + 1, hi));
  }

  /** A repaired node: good, with the given contents and at most one key less. */
  predicate Fixed(r: Tree, keys: seq<Expiration>, flat: seq<Expiration>, h: nat,
                  lo: Option<Expiration>, hi: Option<Expiration>)
  {
    Good(r, h, lo, hi) && Contents(r) == flat && |keys| - 1 <= |r.keys| <= |keys|
  }

  lemma {:induction false} FixByPair(keys: seq<Expiration>, cs: seq<Tree>, h: nat, lo: Option<Expiration>, hi: Option<Expiration>,
                  i: nat, c: Tree, j: nat, q: Pair)
    requires Short(keys, cs, h, lo, hi, i, c) && j < |keys| && (i == j || i == j + 1)
    requires GoodPair(q, h, Lo(keys, j, lo), Hi(keys, j + 1, hi)) && FilledPair(q)
    requires PairContents(q) == PairContents(PairAt(Node(keys, cs[i := c]), j))
    ensures Fixed(PutPair(Node(keys, cs[i := c]), j, q), keys, Flat(cs[i := c]), h + 1, lo, hi)
  {
    PutPairRow(keys, cs, h, lo, hi, j, q);
    assert cs[i := c][j := q.left][j + 1 := q.right] == cs[j := q.left][j + 1 := q.right];
    PutPairFlat(cs[i := c], j, q, keys[j]);
    GoodIsRow(keys[j := q.key], cs[j := q.left][j + 1 := q.right], h, lo, hi);
  }

  lemma {:induction false} FixByJoin(keys: seq<Expiration>, cs: seq<Tree>, h: nat, lo: Option<Expiration>, hi: Option<Expiration>,
                  i: nat, c: Tree, j: nat)
    requires Short(keys, cs, h, lo, hi, i, c) && j < |keys| && (i == j || i == j + 1)
    requires 2 * MIN_KEYS - 1 == |cs[i := c][j].keys| + |cs[i := c][j + 1].keys|
    ensures var t := Node(keys, cs[i := c]);
            Fixed(PutJoined(t, j, Join(PairAt(t, j))), keys, Flat(cs[i := c]), h + 1, lo, hi)
  {
    var cs' := cs[i := c];
    var p := Pair(cs'[j], keys[j], cs'[j + 1]);
    PairOfShort(keys, cs, h, lo, hi, i, c, j);
    JoinGood(p, h, Lo(keys, j, lo), Hi(keys, j + 1, hi));
    PutJoinedRow(keys, cs, h, lo, hi, j, Join(p));
    assert RemoveAt(cs'[j := Join(p)], j + 1) == RemoveAt(cs[j := Join(p)], j + 1);
    PutJoinedFlat(cs', j, Join(p), keys[j]);
    GoodIsRow(RemoveAt(keys, j), RemoveAt(cs'[j := Join(p)], j + 1), h, lo, hi);
  }

  lemma {:induction false} FixFromLeft(keys: seq<Expiration>, cs: seq<Tree>, h: nat, lo: Option<Expiration>, hi: Option<Expiration>,
                    i: nat, c: Tree)
    requires Short(keys, cs, h, lo, hi, i, c) && |c.keys| < MIN_KEYS && i > 0 && |cs[i - 1].keys| > MIN_KEYS
    ensures var t := Node(keys, cs[i := c]);
            Fixed(PutPair(t, i - 1, LendLast(PairAt(t, i - 1))), keys, Flat(cs[i := c]), h + 1, lo, hi)
  {
    var t := Node(keys, cs[i := c]);
    PairOfShort(keys, cs, h, lo, hi, i, c, i - 1);
    LendLastGood(PairAt(t, i - 1), h, Lo(keys, i - 1, lo), Hi(keys, i, hi));
    FixByPair(keys, cs, h, lo, hi, i, c, i - 1, LendLast(PairAt(t, i - 1)));
  }

  lemma {:induction false} FixFromRight(keys: seq<Expiration>, cs: seq<Tree>, h: nat, lo: Option<Expiration>, hi: Option<Expiration>,
                     i: nat, c: Tree)
    requires Short(keys, cs, h, lo, hi, i, c) && |c.keys| < MIN_KEYS && i < |keys| && |cs[i + 1].keys| > MIN_KEYS
    ensures var t := Node(keys, cs[i := c]);
            Fixed(PutPair(t, i, LendFirst(PairAt(t, i))), keys, Flat(cs[i := c]), h + 1, lo, hi)
  {
    var t := Node(keys, cs[i := c]);
    PairOfShort(keys, cs, h, lo, hi, i, c, i);
    LendFirstGood(PairAt(t, i), h, Lo(keys, i, lo), Hi(keys, i + 1, hi));
    FixByPair(keys, cs, h, lo, hi, i, c, i, LendFirst(PairAt(t, i)));
  }

  lemma {:induction false} FixNothing(keys: seq<Expiration>, cs: seq<Tree>, h: nat, lo: Option<Expiration>, hi: Option<Expiration>,
                   i: nat, c: Tree)
    requires Short(keys, cs, h, lo, hi, i, c) && |c.keys| >= MIN_KEYS
    ensures Fixed(Node(keys, cs[i := c]), keys, Flat(cs[i := c]), h + 1, lo, hi)
  {
    InsertInRow(keys, cs, h, lo, hi, i, Fits(c));
    GoodIsRow(keys, cs[i := c], h, lo, hi);
  }

  /** The repair of a child that has lost a key gives a good node again, with the same contents and at most one key
      less. */
  lemma {:induction false} FixKeeps(keys: seq<Expiration>, cs: seq<Tree>, h: nat, lo: Option<Expiration>, hi: Option<Expiration>,
                 i: nat, c: Tree)
    requires Short(keys, cs, h, lo, hi, i, c) && keys != []
    ensures Fixed(FixChild(Node(keys, cs[i := c]), i), keys, Flat(cs[i := c]), h + 1, lo, hi)
  {
    var t := Node(keys, cs[i := c]);
    assert t.children[i] == c && forall j :: 0 <= j < |cs| && j != i ==> t.children[j] == cs[j];
    if |c.keys| >= MIN_KEYS {
      FixNothing(keys, cs, h, lo, hi, i, c);
    } else if i > 0 && |cs[i - 1].keys| > MIN_KEYS {
      FixFromLeft(keys, cs, h, lo, hi, i, c);
    } else if i < |keys| && |cs[i + 1].keys| > MIN_KEYS {
      FixFromRight(keys, cs, h, lo, hi, i, c);
    } else {
      FixByJoin(keys, cs, h, lo, hi, i, c, if i > 0 then i - 1 else i);
    }
  }

  // ---- deletion ----

  lemma {:induction false} DeleteInLeaf(keys: seq<Expiration>, lo: Option<Expiration>, hi: Option<Expiration>, x: Expiration)
    requires Entries(keys, lo, hi)
    ensures var r := DeleteFromKeys(keys, x);
            && (r.Some? <==> x in keys)
            && (r.Some? ==> Good(r.value, 0, lo, hi) && |r.value.keys| == |keys| - 1
                            && Adds(Contents(r.value), x, keys))
  {
    FindEntry(keys, x);
    if x in keys {
      var i := LowerBound(keys, x);
      EntriesRemove(keys, lo, hi, i);
      RemovedAdds(keys, i);
    }
  }

  lemma {:induction false} RemovedAdds(keys: seq<Expiration>, i: nat)
    requires i < |keys|
    ensures Adds(RemoveAt(keys, i), keys[i], keys)
  {
    assert keys == InsertAt(RemoveAt(keys, i), i, keys[i]);
  }

  /** What deletion from a subtree leaves behind. */
  predicate GoodDeleted(t: Tree, r: Tree, h: nat, lo: Option<Expiration>, hi: Option<Expiration>) {
    Good(r, h, lo, hi) && |t.keys| - 1 <= |r.keys| <= |t.keys|
  }

  lemma {:induction false} PutDeletedGood(t: Tree, h: nat, lo: Option<Expiration>, hi: Option<Expiration>, i: nat, c: Tree, r: Tree)
    requires h > 0 && Good(t, h, lo, hi) && t.keys != [] && i <= |t.keys|
    requires GoodDeleted(t.children[i], c, h - 1, Lo(t.keys, i, lo), Hi(t.keys, i, hi))
    requires r == FixChild(Node(t.keys, t.children[i := c]), i)
    ensures GoodDeleted(t, r, h, lo, hi) && Contents(r) == Flat(t.children[i := c])
  {
    ShortChild(t, h - 1, lo, hi, i, c);
    FixKeeps(t.keys, t.children, h - 1, lo, hi, i, c);
  }

  lemma {:induction false} ShortChild(t: Tree, h: nat, lo: Option<Expiration>, hi: Option<Expiration>, i: nat, c: Tree)
    requires Good(t, h + 1, lo, hi) && i <= |t.keys|
    requires GoodDeleted(t.children[i], c, h, Lo(t.keys, i, lo), Hi(t.keys, i, hi))
    ensures Short(t.keys, t.children, h, lo, hi, i, c)
  {
    GoodIsRow(t.keys, t.children, h, lo, hi);
  }

  /** Deletion from a subtree keeps it good; at most the top node loses a key. */
  lemma {:induction false} DeleteGood(t: Tree, h: nat, lo: Option<Expiration>, hi: Option<Expiration>, x: Expiration)
    returns (r: Option<Tree>)
    requires Good(t, h, lo, hi) && Within(x, lo, hi) && (h > 0 ==> t.keys != [])
    ensures r == Delete(t, x)
    ensures r.Some? ==> GoodDeleted(t, r.value, h, lo, hi)
    decreases h
  {
    if h == 0 {
      DeleteInLeaf(t.keys, lo, hi, x);
      r := DeleteFromKeys(t.keys, x);
    } else {
      var i := ChildIndex(t.keys, x);
      Descend(t, h, lo, hi, x);
      var c := DeleteGood(t.children[i], h - 1, Lo(t.keys, i, lo), Hi(t.keys, i, hi), x);
      r := PutDeleted(t.keys, t.children, i, c);
      if c.Some? { PutDeletedGood(t, h, lo, hi, i, c.value, r.value); }
    }
  }

  lemma {:induction false} PutDeletedContents(t: Tree, h: nat, lo: Option<Expiration>, hi: Option<Expiration>, x: Expiration, c: Tree,
                           r: Tree)
    requires h > 0 && Good(t, h, lo, hi) && t.keys != [] && Within(x, lo, hi)
    requires var i := ChildIndex(t.keys, x);
             && Adds(Contents(c), x, Contents(t.children[i])) && Contents(r) == Flat(t.children[i := c])
    ensures Adds(Contents(r), x, Contents(t))
  {
    var i, cs := ChildIndex(t.keys, x), t.children;
    ChosenFlat(t, h, lo, hi, x);
    InsertFlat(cs, i, Fits(c));
    AddsAround(Flat(cs[..i]), Contents(c), Flat(cs[i + 1..]), x, Contents(cs[i]));
  }

  /** Deletion succeeds exactly when the entry is there, and then removes exactly that entry. */
  lemma {:induction false} DeleteContents(t: Tree, h: nat, lo: Option<Expiration>, hi: Option<Expiration>, x: Expiration)
    returns (r: Option<Tree>)
    requires Good(t, h, lo, hi) && Within(x, lo, hi) && (h > 0 ==> t.keys != [])
    ensures r == Delete(t, x)
    ensures r.Some? <==> x in Contents(t)
    ensures r.Some? ==> Adds(Contents(r.value), x, Contents(t))
    decreases h
  {
    if h == 0 {
      DeleteInLeaf(t.keys, lo, hi, x);
      r := DeleteFromKeys(t.keys, x);
    } else {
      var i := ChildIndex(t.keys, x);
      Descend(t, h, lo, hi, x);
      ChosenFlat(t, h, lo, hi, x);
      var c := DeleteContents(t.children[i], h - 1, Lo(t.keys, i, lo), Hi(t.keys, i, hi), x);
      r := PutDeleted(t.keys, t.children, i, c);
      if c.Some? {
        FixedContents(t, h, lo, hi, x, i, c.value, r.value);
        PutDeletedContents(t, h, lo, hi, x, c.value, r.value);
      }
    }
  }

  lemma {:induction false} FixedContents(t: Tree, h: nat, lo: Option<Expiration>, hi: Option<Expiration>, x: Expiration, i: nat, c: Tree,
                      r: Tree)
    requires h > 0 && Good(t, h, lo, hi) && t.keys != [] && Within(x, lo, hi) && i == ChildIndex(t.keys, x)
    requires Some(c) == Delete(t.children[i], x) && r == FixChild(Node(t.keys, t.children[i := c]), i)
    ensures Contents(r) == Flat(t.children[i := c])
  {
    Descend(t, h, lo, hi, x);
    var c' := DeleteGood(t.children[i], h - 1, Lo(t.keys, i, lo), Hi(t.keys, i, hi), x);
    PutDeletedGood(t, h, lo, hi, i, c, r);
  }
}
