/** The whole tree, over any sequence of insertions and deletions, against a plain set. */
module BTreeTheorems {
  import opened Options
  import opened BTreeOrder
  import opened BTreeSpec
  import opened BTreeGood
  import opened BTreeUpdate
  import opened BTreeRemove

  /** A whole tree of height `h`: only the root may hold fewer than three keys. */
  predicate GoodRoot(t: Tree, h: nat) {
    Good(t, h, None, None) && |t.keys| <= MAX_KEYS && (h > 0 ==> t.keys != [])
  }

  function Members(t: Tree): set<Expiration> {
    set k | k in Contents(t)
  }

  lemma {:induction false} RootRow(l: Tree, k: Expiration, r: Tree, h: nat)
    requires GoodInserted(Split(l, k, r), h, None, None)
    ensures GoodRoot(Node([k], [l, r]), h + 1) && Contents(Node([k], [l, r])) == Contents(l) + Contents(r)
  {
    PairRow(l, k, r, h, None, None);
    GoodIsRow([k], [l, r], h, None, None);
    assert [l, r] == [l] + [r];
    FlatConcat([l], [r]);
    FlatOne(l);
    FlatOne(r);
  }

  lemma {:induction false} InsertRootGood(t: Tree, h: nat, x: Expiration) returns (h': nat)
    requires GoodRoot(t, h)
    ensures h <= h' <= h + 1 && GoodRoot(InsertRoot(t, x), h')
    ensures Contents(InsertRoot(t, x)) == InsertedContents(Insert(t, x))
  {
    var r := InsertGood(t, h, None, None, x);
    h' := if r.Fits? then h else h + 1;
    if r.Split? { RootRow(r.left, r.key, r.right, h); }
  }

  /** Insertion keeps the whole tree good, and adds the entry unless it is there. */
  lemma {:induction false} InsertRootKeeps(t: Tree, h: nat, x: Expiration) returns (h': nat)
    requires GoodRoot(t, h)
    ensures h <= h' <= h + 1 && GoodRoot(InsertRoot(t, x), h')
    ensures Members(InsertRoot(t, x)) == Members(t) + {x}
    ensures if x in Contents(t) then InsertRoot(t, x) == t else Adds(Contents(t), x, Contents(InsertRoot(t, x)))
  {
    h' := InsertRootGood(t, h, x);
    var r := InsertContents(t, h, None, None, x);
    if x !in Contents(t) { AddsMember(Contents(t), x, Contents(InsertRoot(t, x))); }
  }

  lemma {:induction false} OnlyChild(t: Tree, h: nat)
    requires Good(t, h, None, None) && t.Node? && |t.children| == 1
    ensures h > 0 && GoodRoot(t.children[0], h - 1) && Contents(t.children[0]) == Contents(t)
  {
    assert t.children == [t.children[0]];
    FlatOne(t.children[0]);
  }

  /** Deletion succeeds exactly when the entry is there; it keeps the whole tree good and removes just that entry. */
  lemma {:induction false} DeleteRootKeeps(t: Tree, h: nat, x: Expiration) returns (h': nat)
    requires GoodRoot(t, h)
    ensures DeleteRoot(t, x).Some? <==> x in Contents(t)
    ensures DeleteRoot(t, x).Some? ==>
              var t' := DeleteRoot(t, x).value;
              && h - 1 <= h' <= h && GoodRoot(t', h')
              && Members(t') == Members(t) - {x} && Adds(Contents(t'), x, Contents(t))
  {
    var r := DeleteGood(t, h, None, None, x);
    var r' := DeleteContents(t, h, None, None, x);
    h' := h;
    if r.Some? {
      if r.value.Node? && |r.value.children| == 1 {
        OnlyChild(r.value, h);
        h' := h - 1;
      }
      WithoutOne(DeleteRoot(t, x).value, t, h', h, x);
    }
  }

  /** Entries are never there twice, so removing one occurrence removes the entry. */
  lemma {:induction false} WithoutOne(t': Tree, t: Tree, h': nat, h: nat, x: Expiration)
    requires Good(t', h', None, None) && Good(t, h, None, None) && Adds(Contents(t'), x, Contents(t))
    ensures Members(t') == Members(t) - {x}
  {
    TotalOrder();
    ContentsSorted(t, h, None, None);
    AddsMember(Contents(t'), x, Contents(t));
    var s, s' := Contents(t), Contents(t');
    var p :| 0 <= p <= |s'| && s == InsertAt(s', p, x);
    assert x !in s' by {
      forall i | 0 <= i < |s'| ensures s'[i] != x {
        assert s[p] == x && s'[i] == s[if i < p then i else i + 1];
      }
    }
  }

  // ---- runs ----

  datatype Op = Insertion(x: Expiration) | Deletion(x: Expiration)

  function Apply(t: Tree, op: Op): Tree {
    match op
    case Insertion(x) => InsertRoot(t, x)
    case Deletion(x) => match DeleteRoot(t, x) case None => t case Some(t') => t'
  }

  function Run(ops: seq<Op>): Tree {
    if ops == [] then Leaf([]) else Apply(Run(ops[..|ops| - 1]), ops[|ops| - 1])
  }

  /** The same operations on a plain set. */
  function RunOnSet(ops: seq<Op>): set<Expiration> {
    if ops == [] then {}
    else
      var s, op := RunOnSet(ops[..|ops| - 1]), ops[|ops| - 1];
      if op.Insertion? then s + {op.x} else s - {op.x}
  }

  /** After any sequence of operations the tree is good, holds exactly what a plain set would, and its next deletion
      reports a missing entry exactly when the set does not hold it. */
  lemma {:induction false} RefinesSet(ops: seq<Op>) returns (h: nat)
    ensures GoodRoot(Run(ops), h) && Members(Run(ops)) == RunOnSet(ops) && Sorted(Contents(Run(ops)))
    ensures forall x :: DeleteRoot(Run(ops), x).None? <==> x !in RunOnSet(ops)
    decreases |ops|
  {
    if ops == [] {
      h := 0;
    } else {
      var t, op := Run(ops[..|ops| - 1]), ops[|ops| - 1];
      var g := RefinesSet(ops[..|ops| - 1]);
      if op.Insertion? {
        h := InsertRootKeeps(t, g, op.x);
      } else {
        h := DeleteRootKeeps(t, g, op.x);
        if DeleteRoot(t, op.x).None? { h := g; }
      }
    }
    ContentsSorted(Run(ops), h, None, None);
    MissingOnly(Run(ops), h);
  }

  lemma {:induction false} MissingOnly(t: Tree, h: nat)
    requires GoodRoot(t, h)
    ensures forall x :: DeleteRoot(t, x).None? <==> x !in Members(t)
  {
    forall x ensures DeleteRoot(t, x).None? <==> x !in Members(t) {
      var h' := DeleteRootKeeps(t, h, x);
    }
  }

  // ---- queries ----

  /** The entries that expire up to `end`: a prefix of the contents. */
  function UpTo(s: seq<Expiration>, end: int): (r: seq<Expiration>) {
    if s == [] || s[0].exp > end then [] else [s[0]] + UpTo(s[1..], end)
  }

  /** Cutting sorted contents at the first later expiry gives all entries up to `end`, in order. */
  lemma {:induction false} UpToIsAll(s: seq<Expiration>, end: int)
    requires Sorted(s)
    ensures UpTo(s, end) <= s && Sorted(UpTo(s, end))
    ensures forall x :: x in UpTo(s, end) <==> x in s && x.exp <= end
    decreases |s|
  {
    if s != [] {
      assert Sorted(s[1..]);
      UpToIsAll(s[1..], end);
      assert s == [s[0]] + s[1..];
      assert forall i :: 0 < i < |s| ==> s[i].exp >= s[0].exp;
    }
  }
}
