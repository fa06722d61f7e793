/** Insertion and deletion keep the invariant and change the contents by exactly one entry. */
module BTreeUpdate {
  import opened Options
  import opened BTreeOrder
  import opened BTreeSpec
  import opened BTreeGood

  // ---- leaves ----

  lemma {:induction false} FindEntry(keys: seq<Expiration>, x: Expiration)
    requires Sorted(keys)
    ensures var i := LowerBound(keys, x); x in keys <==> i < |keys| && keys[i] == x
  {
    TotalOrder();
  }

  lemma {:induction false} EntriesInsert(keys: seq<Expiration>, lo: Option<Expiration>, hi: Option<Expiration>, x: Expiration)
    requires Entries(keys, lo, hi) && Within(x, lo, hi) && x !in keys
    ensures Entries(InsertAt(keys, LowerBound(keys, x), x), lo, hi)
  {
    var i := LowerBound(keys, x);
    var s := InsertAt(keys, i, x);
    AfterLowerBound(keys, x);
    forall a | 0 <= a < |s| ensures Within(s[a], lo, hi) {
      if a < i { assert s[a] == keys[a]; } else if a > i { assert s[a] == keys[a - 1]; }
    }
    forall a, b | 0 <= a < b < |s| ensures Less(s[a], s[b]) {
      if a < i { assert s[a] == keys[a]; } else if a > i { assert s[a] == keys[a - 1]; }
      if b < i { assert s[b] == keys[b]; } else if b > i { assert s[b] == keys[b - 1]; }
    }
  }

  lemma {:induction false} AfterLowerBound(keys: seq<Expiration>, x: Expiration)
    requires Sorted(keys) && x !in keys
    ensures forall j :: LowerBound(keys, x) <= j < |keys| ==> Less(x, keys[j])
  {
    TotalOrder();
  }

  lemma {:induction false} EntriesPart(keys: seq<Expiration>, lo: Option<Expiration>, hi: Option<Expiration>, i: nat)
    requires Entries(keys, lo, hi) && i < |keys|
    ensures Entries(keys[..i], lo, Some(keys[i])) && Entries(keys[i..], Some(keys[i]), hi)
    ensures i > 0 ==> Inside(keys[i], lo, hi)
  {
    TotalOrder();
    assert Within(keys[0], lo, hi) && Within(keys[i], lo, hi);
  }

  lemma {:induction false} EntriesRemove(keys: seq<Expiration>, lo: Option<Expiration>, hi: Option<Expiration>, i: nat)
    requires Entries(keys, lo, hi) && i < |keys|
    ensures Entries(RemoveAt(keys, i), lo, hi)
  {
    var s := RemoveAt(keys, i);
    assert forall j :: 0 <= j < |s| ==> s[j] == if j < i then keys[j] else keys[j + 1];
  }

  // ---- insertion ----

  /** One tree, or two with a separator, between the bounds; a split leaves both halves filled. */
  predicate GoodInserted(r: Inserted, h: nat, lo: Option<Expiration>, hi: Option<Expiration>) {
    match r
    case Fits(t) => Good(t, h, lo, hi) && |t.keys| <= MAX_KEYS
    case Split(l, k, r) =>
      && Good(l, h, lo, Some(k)) && Filled(l) && Good(r, h, Some(k), hi) && Filled(r)
      && Inside(k, lo, hi)
  }

  function InsertedContents(r: Inserted): seq<Expiration> {
    match r
    case Fits(t) => Contents(t)
    case Split(l, _, r) => Contents(l) + Contents(r)
  }

  lemma {:induction false} SplitLeafGood(keys: seq<Expiration>, lo: Option<Expiration>, hi: Option<Expiration>)
    requires Entries(keys, lo, hi) && |keys| <= MAX_KEYS + 1
    ensures GoodInserted(SplitLeaf(keys), 0, lo, hi) && InsertedContents(SplitLeaf(keys)) == keys
    ensures SplitLeaf(keys).Fits? ==> SplitLeaf(keys).tree.keys == keys
  {
    if |keys| > MAX_KEYS { EntriesPart(keys, lo, hi, |keys| / 2); }
  }

  lemma {:induction false} SplitNodeGood(keys: seq<Expiration>, cs: seq<Tree>, h: nat, lo: Option<Expiration>, hi: Option<Expiration>)
    requires Row(keys, cs, h, lo, hi) && |keys| <= MAX_KEYS + 1
    ensures GoodInserted(SplitNode(keys, cs), h + 1, lo, hi)
    ensures SplitNode(keys, cs).Fits? ==> SplitNode(keys, cs).tree.keys == keys
  {
    var mid := |keys| / 2;
    if |keys| <= MAX_KEYS {
      GoodIsRow(keys, cs, h, lo, hi);
    } else {
      RowSplit(keys, cs, h, lo, hi, mid);
      GoodIsRow(keys[..mid], cs[..mid + 1], h, lo, Some(keys[mid]));
      GoodIsRow(keys[mid + 1..], cs[mid + 1..], h, Some(keys[mid]), hi);
    }
  }

  /** The result of an insertion put in the place of child i. */
  lemma {:induction false} InsertInRow(keys: seq<Expiration>, cs: seq<Tree>, h: nat, lo: Option<Expiration>, hi: Option<Expiration>,
                    i: nat, r: Inserted)
    requires Row(keys, cs, h, lo, hi) && i <= |keys|
    requires GoodInserted(r, h, Lo(keys, i, lo), Hi(keys, i, hi)) && (r.Fits? ==> Filled(r.tree))
    ensures r.Fits? ==> Row(keys, cs[i := r.tree], h, lo, hi)
    ensures r.Split? ==> Row(InsertAt(keys, i, r.key), InsertAt(cs[i := r.left], i + 1, r.right), h, lo, hi)
  {
    if r.Fits? {
      SingleRow(r.tree, h, Lo(keys, i, lo), Hi(keys, i, hi));
      RowReplace(keys, cs, h, lo, hi, i, i, [], [r.tree]);
      assert keys[..i] + [] + keys[i..] == keys;
      assert cs[..i] + [r.tree] + cs[i + 1..] == cs[i := r.tree];
    } else {
      PairRow(r.left, r.key, r.right, h, Lo(keys, i, lo), Hi(keys, i, hi));
      RowReplace(keys, cs, h, lo, hi, i, i, [r.key], [r.left, r.right]);
      assert cs[..i] + [r.left, r.right] + cs[i + 1..] == InsertAt(cs[i := r.left], i + 1, r.right);
    }
  }

  lemma {:induction false} InsertFlat(cs: seq<Tree>, i: nat, r: Inserted)
    requires i < |cs|
    ensures r.Fits? ==> Flat(cs[i := r.tree]) == Flat(cs[..i]) + InsertedContents(r) + Flat(cs[i + 1..])
    ensures r.Split? ==> Flat(InsertAt(cs[i := r.left], i + 1, r.right))
                         == Flat(cs[..i]) + InsertedContents(r) + Flat(cs[i + 1..])
  {
    if r.Fits? {
      var cs' := cs[i := r.tree];
      FlatAround(cs', i, i + 1);
      FlatOne(r.tree);
      assert cs'[..i] == cs[..i] && cs'[i..i + 1] == [r.tree] && cs'[i + 1..] == cs[i + 1..];
    } else {
      var cs' := InsertAt(cs[i := r.left], i + 1, r.right);
      FlatAround(cs', i, i + 2);
      FlatOne(r.left);
      FlatOne(r.right);
      FlatConcat([r.left], [r.right]);
      assert [r.left] + [r.right] == [r.left, r.right];
      assert cs'[..i] == cs[..i] && cs'[i..i + 2] == [r.left, r.right] && cs'[i + 2..] == cs[i + 1..];
    }
  }

  /** A node whose child has changed is good again, or is split into two good halves. */
  lemma {:induction false} PutInsertedRow(keys: seq<Expiration>, cs: seq<Tree>, h: nat, lo: Option<Expiration>, hi: Option<Expiration>,
                       i: nat, c: Inserted)
    requires Row(keys, cs, h, lo, hi) && |keys| <= MAX_KEYS && i <= |keys|
    requires GoodInserted(c, h, Lo(keys, i, lo), Hi(keys, i, hi)) && (c.Fits? ==> Filled(c.tree))
    ensures var r := PutInserted(keys, cs, i, c);
            GoodInserted(r, h + 1, lo, hi) && (r.Fits? ==> |keys| <= |r.tree.keys|)
  {
    InsertInRow(keys, cs, h, lo, hi, i, c);
    if c.Fits? {
      GoodIsRow(keys, cs[i := c.tree], h, lo, hi);
    } else {
      SplitNodeGood(InsertAt(keys, i, c.key), InsertAt(cs[i := c.left], i + 1, c.right), h, lo, hi);
    }
  }

  lemma {:induction false} PutInsertedGood(t: Tree, h: nat, lo: Option<Expiration>, hi: Option<Expiration>, i: nat, c: Inserted)
    requires h > 0 && Good(t, h, lo, hi) && |t.keys| <= MAX_KEYS && i <= |t.keys|
    requires GoodInserted(c, h - 1, Lo(t.keys, i, lo), Hi(t.keys, i, hi)) && (c.Fits? ==> Filled(c.tree))
    ensures var r := PutInserted(t.keys, t.children, i, c);
            GoodInserted(r, h, lo, hi) && (r.Fits? ==> |t.keys| <= |r.tree.keys|)
  {
    GoodIsRow(t.keys, t.children, h - 1, lo, hi);
    PutInsertedRow(t.keys, t.children, h - 1, lo, hi, i, c);
  }

  /** The child that an operation on `x` descends to. */
  lemma {:induction false} Descend(t: Tree, h: nat, lo: Option<Expiration>, hi: Option<Expiration>, x: Expiration)
    requires Good(t, h, lo, hi) && h > 0 && Within(x, lo, hi)
    ensures var i := ChildIndex(t.keys, x); var c := t.children[i];
            && Filled(c) && Good(c, h - 1, Lo(t.keys, i, lo), Hi(t.keys, i, hi))
            && Within(x, Lo(t.keys, i, lo), Hi(t.keys, i, hi))
  {
  }

  lemma {:induction false} ChosenFlat(t: Tree, h: nat, lo: Option<Expiration>, hi: Option<Expiration>, x: Expiration)
    requires Good(t, h, lo, hi) && h > 0 && Within(x, lo, hi)
    ensures var i := ChildIndex(t.keys, x); var c := t.children[i];
            && (x in Contents(t) <==> x in Contents(c))
            && Contents(t) == Flat(t.children[..i]) + Contents(c) + Flat(t.children[i + 1..])
  {
    GoodIsRow(t.keys, t.children, h - 1, lo, hi);
    ChosenChild(t.keys, t.children, h - 1, lo, hi, x);
  }

  lemma {:induction false} InsertInLeaf(keys: seq<Expiration>, lo: Option<Expiration>, hi: Option<Expiration>, x: Expiration)
    requires Entries(keys, lo, hi) && |keys| <= MAX_KEYS && Within(x, lo, hi)
    ensures var r := InsertInKeys(keys, x);
            && GoodInserted(r, 0, lo, hi) && (r.Fits? ==> |keys| <= |r.tree.keys|)
            && (if x in keys then r == Fits(Leaf(keys)) else Adds(keys, x, InsertedContents(r)))
  {
    FindEntry(keys, x);
    if x !in keys {
      var keys' := InsertAt(keys, LowerBound(keys, x), x);
      EntriesInsert(keys, lo, hi, x);
      SplitLeafGood(keys', lo, hi);
      assert Adds(keys, x, keys');
    }
  }

  /** Insertion into a subtree keeps it good, or splits it into two good halves. */
  lemma {:induction false} InsertGood(t: Tree, h: nat, lo: Option<Expiration>, hi: Option<Expiration>, x: Expiration)
    returns (r: Inserted)
    requires Good(t, h, lo, hi) && |t.keys| <= MAX_KEYS && Within(x, lo, hi)
    ensures r == Insert(t, x)
    ensures GoodInserted(r, h, lo, hi) && (r.Fits? ==> |t.keys| <= |r.tree.keys|)
    decreases h
  {
    if h == 0 {
      InsertInLeaf(t.keys, lo, hi, x);
      r := InsertInKeys(t.keys, x);
    } else {
      var i := ChildIndex(t.keys, x);
      Descend(t, h, lo, hi, x);
      var c := InsertGood(t.children[i], h - 1, Lo(t.keys, i, lo), Hi(t.keys, i, hi), x);
      PutInsertedGood(t, h, lo, hi, i, c);
      r := PutInserted(t.keys, t.children, i, c);
    }
  }

  lemma {:induction false} PutInsertedContents(keys: seq<Expiration>, cs: seq<Tree>, i: nat, c: Inserted)
    requires |cs| == |keys| + 1 && i <= |keys|
    ensures InsertedContents(PutInserted(keys, cs, i, c)) == Flat(cs[..i]) + InsertedContents(c) + Flat(cs[i + 1..])
  {
    InsertFlat(cs, i, c);
    if c.Split? {
      var ks, cs' := InsertAt(keys, i, c.key), InsertAt(cs[i := c.left], i + 1, c.right);
      var mid := |ks| / 2;
      assert cs' == cs'[..mid + 1] + cs'[mid + 1..];
      FlatConcat(cs'[..mid + 1], cs'[mid + 1..]);
    }
  }

  /** Inserting an entry that is there changes nothing; otherwise exactly that entry is added. */
  lemma {:induction false} InsertContents(t: Tree, h: nat, lo: Option<Expiration>, hi: Option<Expiration>, x: Expiration)
    returns (r: Inserted)
    requires Good(t, h, lo, hi) && |t.keys| <= MAX_KEYS && Within(x, lo, hi)
    ensures r == Insert(t, x)
    ensures if x in Contents(t) then r == Fits(t) else Adds(Contents(t), x, InsertedContents(r))
    decreases h
  {
    if h == 0 {
      InsertInLeaf(t.keys, lo, hi, x);
      r := InsertInKeys(t.keys, x);
    } else {
      var cs := t.children;
      var i := ChildIndex(t.keys, x);
      Descend(t, h, lo, hi, x);
      var c := InsertContents(cs[i], h - 1, Lo(t.keys, i, lo), Hi(t.keys, i, hi), x);
      ChosenFlat(t, h, lo, hi, x);
      PutInsertedContents(t.keys, cs, i, c);
      r := PutInserted(t.keys, cs, i, c);
      if x in Contents(cs[i]) {
        assert cs[i := c.tree] == cs;
      } else {
        AddsAround(Flat(cs[..i]), Contents(cs[i]), Flat(cs[i + 1..]), x, InsertedContents(c));
      }
    }
  }
}
