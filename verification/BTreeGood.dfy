/** The invariant of the tree and what insertion and deletion do to its contents: equal leaf depth, 3 to 7 keys in every
    node but the root, separators that bound their subtrees, and the contents of a plain sorted set. */
module BTreeGood {
  import opened Options
  import opened BTreeOrder
  import opened BTreeSpec

  /** All entries, in order. */
  function Contents(t: Tree): seq<Expiration> {
    match t
    case Leaf(keys) => keys
    case Node(_, children) => Flat(children)
  }

  function Flat(ts: seq<Tree>): seq<Expiration> {
    if ts == [] then [] else Contents(ts[0]) + Flat(ts[1..])
  }

  // ---- the invariant ----

  /** At or above the lower bound and below the upper one, where they exist. */
  predicate Within(k: Expiration, lo: Option<Expiration>, hi: Option<Expiration>) {
    (lo.Some? ==> !Less(k, lo.value)) && (hi.Some? ==> Less(k, hi.value))
  }

  /** Strictly between the bounds. */
  predicate Inside(k: Expiration, lo: Option<Expiration>, hi: Option<Expiration>) {
    (lo.Some? ==> Less(lo.value, k)) && (hi.Some? ==> Less(k, hi.value))
  }

  /** The keys of a leaf. */
  predicate Entries(keys: seq<Expiration>, lo: Option<Expiration>, hi: Option<Expiration>) {
    Sorted(keys) && forall i :: 0 <= i < |keys| ==> Within(keys[i], lo, hi)
  }

  /** The keys of an internal node. */
  predicate Separators(keys: seq<Expiration>, lo: Option<Expiration>, hi: Option<Expiration>) {
    Sorted(keys) && forall i :: 0 <= i < |keys| ==> Inside(keys[i], lo, hi)
  }

  function Lo(keys: seq<Expiration>, i: nat, lo: Option<Expiration>): Option<Expiration>
    requires i <= |keys|
  {
    if i == 0 then lo else Some(keys[i - 1])
  }

  function Hi(keys: seq<Expiration>, i: nat, hi: Option<Expiration>): Option<Expiration>
    requires i <= |keys|
  {
    if i == |keys| then hi else Some(keys[i])
  }

  predicate Filled(t: Tree) {
    MIN_KEYS <= |t.keys| <= MAX_KEYS
  }

  /** A subtree of height `h` with its entries between the bounds. Its own top node may hold any number of keys. */
  predicate Good(t: Tree, h: nat, lo: Option<Expiration>, hi: Option<Expiration>)
    decreases h
  {
    if h == 0 then t.Leaf? && Entries(t.keys, lo, hi)
    else
      && t.Node? && |t.children| == |t.keys| + 1
      && Separators(t.keys, lo, hi)
      && forall i :: 0 <= i < |t.children| ==>
           Filled(t.children[i]) && Good(t.children[i], h - 1, Lo(t.keys, i, lo), Hi(t.keys, i, hi))
  }

  /** The children of a good node, with the separators between them. */
  predicate Row(keys: seq<Expiration>, cs: seq<Tree>, h: nat, lo: Option<Expiration>, hi: Option<Expiration>) {
    && |cs| == |keys| + 1
    && Separators(keys, lo, hi)
    && forall i :: 0 <= i < |cs| ==> Filled(cs[i]) && Good(cs[i], h, Lo(keys, i, lo), Hi(keys, i, hi))
  }

  lemma {:induction false} GoodIsRow(keys: seq<Expiration>, cs: seq<Tree>, h: nat, lo: Option<Expiration>, hi: Option<Expiration>)
    ensures Good(Node(keys, cs), h + 1, lo, hi) <==> Row(keys, cs, h, lo, hi)
  {
  }

  // ---- rows ----

  lemma {:induction false} SeparatorsSplit(keys: seq<Expiration>, lo: Option<Expiration>, hi: Option<Expiration>, i: nat)
    requires Separators(keys, lo, hi) && i < |keys|
    ensures Separators(keys[..i], lo, Some(keys[i])) && Separators(keys[i + 1..], Some(keys[i]), hi)
    ensures Inside(keys[i], lo, hi)
  {
  }

  lemma {:induction false} SeparatorsJoin(l: seq<Expiration>, k: Expiration, r: seq<Expiration>,
                       lo: Option<Expiration>, hi: Option<Expiration>)
    requires Separators(l, lo, Some(k)) && Separators(r, Some(k), hi) && Inside(k, lo, hi)
    ensures Separators(l + [k] + r, lo, hi)
  {
    TotalOrder();
    var keys := l + [k] + r;
    forall i | 0 <= i < |keys| ensures Inside(keys[i], lo, hi) {
      if i < |l| { assert keys[i] == l[i]; } else if i > |l| { assert keys[i] == r[i - |l| - 1]; }
    }
    forall i, j | 0 <= i < j < |keys| ensures Less(keys[i], keys[j]) {
      if i < |l| { assert keys[i] == l[i]; } else if i > |l| { assert keys[i] == r[i - |l| - 1]; }
      if j < |l| { assert keys[j] == l[j]; } else if j > |l| { assert keys[j] == r[j - |l| - 1]; }
    }
  }

  lemma {:induction false} RowSplit(keys: seq<Expiration>, cs: seq<Tree>, h: nat, lo: Option<Expiration>, hi: Option<Expiration>, i: nat)
    requires Row(keys, cs, h, lo, hi) && i < |keys|
    ensures Row(keys[..i], cs[..i + 1], h, lo, Some(keys[i]))
    ensures Row(keys[i + 1..], cs[i + 1..], h, Some(keys[i]), hi)
    ensures Inside(keys[i], lo, hi)
  {
    SeparatorsSplit(keys, lo, hi, i);
    var l, r, lc, rc := keys[..i], keys[i + 1..], cs[..i + 1], cs[i + 1..];
    forall j | 0 <= j < |lc| ensures Filled(lc[j]) && Good(lc[j], h, Lo(l, j, lo), Hi(l, j, Some(keys[i]))) {
      assert lc[j] == cs[j] && Lo(l, j, lo) == Lo(keys, j, lo) && Hi(l, j, Some(keys[i])) == Hi(keys, j, hi);
    }
    forall j | 0 <= j < |rc| ensures Filled(rc[j]) && Good(rc[j], h, Lo(r, j, Some(keys[i])), Hi(r, j, hi)) {
      var m := i + 1 + j;
      assert rc[j] == cs[m] && Lo(r, j, Some(keys[i])) == Lo(keys, m, lo) && Hi(r, j, hi) == Hi(keys, m, hi);
    }
  }

  lemma {:induction false} RowJoin(lk: seq<Expiration>, lc: seq<Tree>, k: Expiration, rk: seq<Expiration>, rc: seq<Tree>,
                h: nat, lo: Option<Expiration>, hi: Option<Expiration>)
    requires Row(lk, lc, h, lo, Some(k)) && Row(rk, rc, h, Some(k), hi) && Inside(k, lo, hi)
    ensures Row(lk + [k] + rk, lc + rc, h, lo, hi)
  {
    SeparatorsJoin(lk, k, rk, lo, hi);
    var keys, cs := lk + [k] + rk, lc + rc;
    forall j | 0 <= j < |cs| ensures Filled(cs[j]) && Good(cs[j], h, Lo(keys, j, lo), Hi(keys, j, hi)) {
      if j <= |lk| {
        assert cs[j] == lc[j] && Lo(lk, j, lo) == Lo(keys, j, lo) && Hi(lk, j, Some(k)) == Hi(keys, j, hi);
      } else {
        var i := j - |lk| - 1;
        assert cs[j] == rc[i] && Lo(rk, i, Some(k)) == Lo(keys, j, lo) && Hi(rk, i, hi) == Hi(keys, j, hi);
      }
    }
  }

  /** A row that fits in the place of everything up to child j may be put there. */
  lemma {:induction false} RowExtend(keys: seq<Expiration>, cs: seq<Tree>, h: nat, lo: Option<Expiration>, hi: Option<Expiration>,
                  from: Option<Expiration>, j: nat, k2: seq<Expiration>, c2: seq<Tree>)
    requires Row(keys, cs, h, lo, hi) && j <= |keys| && Row(k2, c2, h, from, Hi(keys, j, hi))
    requires j < |keys| ==> Inside(keys[j], from, hi)
    ensures Row(k2 + keys[j..], c2 + cs[j + 1..], h, from, hi)
  {
    if j < |keys| {
      RowSplit(keys, cs, h, lo, hi, j);
      RowJoin(k2, c2, keys[j], keys[j + 1..], cs[j + 1..], h, from, hi);
      assert k2 + [keys[j]] + keys[j + 1..] == k2 + keys[j..];
    } else {
      assert k2 + keys[j..] == k2 && c2 + cs[j + 1..] == c2;
    }
  }

  /** Children i to j, and the separators between them, may be replaced by any row that fits in their place. */
  lemma {:induction false} RowReplace(keys: seq<Expiration>, cs: seq<Tree>, h: nat, lo: Option<Expiration>, hi: Option<Expiration>,
                   i: nat, j: nat, k2: seq<Expiration>, c2: seq<Tree>)
    requires Row(keys, cs, h, lo, hi) && i <= j <= |keys|
    requires Row(k2, c2, h, Lo(keys, i, lo), Hi(keys, j, hi))
    ensures Row(keys[..i] + k2 + keys[j..], cs[..i] + c2 + cs[j + 1..], h, lo, hi)
  {
    RowExtend(keys, cs, h, lo, hi, Lo(keys, i, lo), j, k2, c2);
    RowPrepend(keys, cs, h, lo, hi, i, k2 + keys[j..], c2 + cs[j + 1..]);
    assert keys[..i] + (k2 + keys[j..]) == keys[..i] + k2 + keys[j..];
    assert cs[..i] + (c2 + cs[j + 1..]) == cs[..i] + c2 + cs[j + 1..];
  }

  lemma {:induction false} RowPrepend(keys: seq<Expiration>, cs: seq<Tree>, h: nat, lo: Option<Expiration>, hi: Option<Expiration>,
                   i: nat, k3: seq<Expiration>, c3: seq<Tree>)
    requires Row(keys, cs, h, lo, hi) && i <= |keys| && Row(k3, c3, h, Lo(keys, i, lo), hi)
    ensures Row(keys[..i] + k3, cs[..i] + c3, h, lo, hi)
  {
    if i > 0 {
      RowSplit(keys, cs, h, lo, hi, i - 1);
      RowJoin(keys[..i - 1], cs[..i], keys[i - 1], k3, c3, h, lo, hi);
      assert keys[..i - 1] + [keys[i - 1]] + k3 == keys[..i] + k3;
    } else {
      assert keys[..i] + k3 == k3 && cs[..i] + c3 == c3;
    }
  }

  lemma {:induction false} SingleRow(c: Tree, h: nat, lo: Option<Expiration>, hi: Option<Expiration>)
    requires Filled(c) && Good(c, h, lo, hi)
    ensures Row([], [c], h, lo, hi)
  {
  }

  lemma {:induction false} PairRow(l: Tree, k: Expiration, r: Tree, h: nat, lo: Option<Expiration>, hi: Option<Expiration>)
    requires Filled(l) && Good(l, h, lo, Some(k)) && Filled(r) && Good(r, h, Some(k), hi) && Inside(k, lo, hi)
    ensures Row([k], [l, r], h, lo, hi)
  {
    SingleRow(l, h, lo, Some(k));
    SingleRow(r, h, Some(k), hi);
    RowJoin([], [l], k, [], [r], h, lo, hi);
    assert [] + [k] + [] == [k] && [l] + [r] == [l, r];
  }

  // ---- contents ----

  lemma {:induction false} FlatConcat(a: seq<Tree>, b: seq<Tree>)
    ensures Flat(a + b) == Flat(a) + Flat(b)
    decreases |a|
  {
    if a == [] {
      assert a + b == b;
    } else {
      assert (a + b)[1..] == a[1..] + b;
      FlatConcat(a[1..], b);
    }
  }

  lemma {:induction false} FlatOne(t: Tree)
    ensures Flat([t]) == Contents(t)
  {
    assert [t][1..] == [] && Flat([]) == [];
  }

  lemma {:induction false} EntriesConcat(a: seq<Expiration>, k: Expiration, b: seq<Expiration>,
                      lo: Option<Expiration>, hi: Option<Expiration>)
    requires Entries(a, lo, Some(k)) && Entries(b, Some(k), hi) && Inside(k, lo, hi)
    ensures Entries(a + b, lo, hi)
  {
    TotalOrder();
    var s := a + b;
    forall i | 0 <= i < |s| ensures Within(s[i], lo, hi) {
      if i < |a| { assert s[i] == a[i]; } else { assert s[i] == b[i - |a|]; }
    }
    forall i, j | 0 <= i < j < |s| ensures Less(s[i], s[j]) {
      if i < |a| { assert s[i] == a[i]; } else { assert s[i] == b[i - |a|]; }
      if j < |a| { assert s[j] == a[j]; } else { assert s[j] == b[j - |a|]; }
    }
  }

  /** The contents of a good tree are strictly ascending and between the bounds. */
  lemma {:induction false} ContentsSorted(t: Tree, h: nat, lo: Option<Expiration>, hi: Option<Expiration>)
    requires Good(t, h, lo, hi)
    ensures Entries(Contents(t), lo, hi)
    decreases h, 0
  {
    if h > 0 {
      GoodIsRow(t.keys, t.children, h - 1, lo, hi);
      FlatSorted(t.keys, t.children, h - 1, lo, hi);
    }
  }

  lemma {:induction false} FlatSorted(keys: seq<Expiration>, cs: seq<Tree>, h: nat,
                                      lo: Option<Expiration>, hi: Option<Expiration>)
    requires Row(keys, cs, h, lo, hi)
    ensures Entries(Flat(cs), lo, hi)
    decreases h, 1, |keys|
  {
    ContentsSorted(cs[0], h, Lo(keys, 0, lo), Hi(keys, 0, hi));
    if keys == [] {
      assert cs == [cs[0]];
      FlatOne(cs[0]);
    } else {
      RowSplit(keys, cs, h, lo, hi, 0);
      FlatSorted(keys[1..], cs[1..], h, Some(keys[0]), hi);
      EntriesConcat(Contents(cs[0]), keys[0], Flat(cs[1..]), lo, hi);
    }
  }

  /** `s'` is `s` with `x` put in somewhere. */
  ghost predicate Adds(s: seq<Expiration>, x: Expiration, s': seq<Expiration>) {
    exists p :: 0 <= p <= |s| && s' == InsertAt(s, p, x)
  }

  lemma {:induction false} AddsAround(a: seq<Expiration>, s: seq<Expiration>, b: seq<Expiration>, x: Expiration, s': seq<Expiration>)
    requires Adds(s, x, s')
    ensures Adds(a + s + b, x, a + s' + b)
  {
    var p :| 0 <= p <= |s| && s' == InsertAt(s, p, x);
    assert a + s' + b == InsertAt(a + s + b, |a| + p, x);
  }

  lemma {:induction false} AddsMember(s: seq<Expiration>, x: Expiration, s': seq<Expiration>)
    requires Adds(s, x, s')
    ensures forall y :: y in s' <==> y in s || y == x
    ensures |s'| == |s| + 1
  {
    var p :| 0 <= p <= |s| && s' == InsertAt(s, p, x);
    assert s == s[..p] + s[p..];
    forall y ensures y in s' <==> y in s || y == x {
      assert y in s <==> y in s[..p] || y in s[p..];
    }
  }

  /** The contents around one child. */
  lemma {:induction false} FlatAround(cs: seq<Tree>, i: nat, j: nat)
    requires i <= j <= |cs|
    ensures Flat(cs) == Flat(cs[..i]) + Flat(cs[i..j]) + Flat(cs[j..])
  {
    assert cs == cs[..j] + cs[j..] && cs[..j] == cs[..i] + cs[i..j];
    FlatConcat(cs[..j], cs[j..]);
    FlatConcat(cs[..i], cs[i..j]);
  }

  /** The child chosen for `x` is the only one that can hold it. */
  lemma {:induction false} ChosenChild(keys: seq<Expiration>, cs: seq<Tree>, h: nat, lo: Option<Expiration>, hi: Option<Expiration>,
                    x: Expiration)
    requires Row(keys, cs, h, lo, hi) && Within(x, lo, hi)
    ensures var i := ChildIndex(keys, x);
            && Within(x, Lo(keys, i, lo), Hi(keys, i, hi))
            && (x in Flat(cs) <==> x in Contents(cs[i]))
            && Flat(cs) == Flat(cs[..i]) + Contents(cs[i]) + Flat(cs[i + 1..])
  {
    TotalOrder();
    var i := ChildIndex(keys, x);
    FlatAround(cs, i, i + 1);
    assert cs[i..i + 1] == [cs[i]];
    FlatOne(cs[i]);
    if i > 0 {
      RowSplit(keys, cs, h, lo, hi, i - 1);
      FlatSorted(keys[..i - 1], cs[..i], h, lo, Some(keys[i - 1]));
    }
    if i < |keys| {
      RowSplit(keys, cs, h, lo, hi, i);
      FlatSorted(keys[i + 1..], cs[i + 1..], h, Some(keys[i]), hi);
    }
    assert x !in Flat(cs[..i]) && x !in Flat(cs[i + 1..]);
  }
}
