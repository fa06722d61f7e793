/** The transitions that the derivation of an epoch counts are those that the chain rule of the replica commits. */
module HsDerive {
  import opened Options
  import opened HsTypes
  import opened HsSpec
  import opened HsRecovery
  import opened HsDurable
  import HsEpoch
  import S = HsStamps

  /** What the blocks carry as far as membership goes. */
  type Labels = BlockId -> S.Block

  /** The branch up to `b` as the derivation sees it: a block certifies its parent if its justification is for it. */
  function Seen(blocks: map<BlockId, Block>, labels: Labels, b: BlockId): seq<S.Block> {
    if b.Genesis? || b !in blocks then []
    else Seen(blocks, labels, b.parent) + [labels(b).(certifies := blocks[b].justify.node == b.parent)]
  }

  lemma {:induction false} SeenAt(r: Replica, labels: Labels, b: BlockId)
    requires Sound(r) && b in r.blocks
    ensures var p, branch := Path(b), Seen(r.blocks, labels, b);
            && |branch| == |p|
            && forall i :: 0 <= i < |p| ==>
                 && p[i] in r.blocks && !p[i].Genesis?
                 && branch[i] == labels(p[i]).(certifies := r.blocks[p[i]].justify.node == p[i].parent)
    decreases b
  {
    if !b.Genesis? { SeenAt(r, labels, b.parent); }
  }

  lemma {:induction false} PathLinks(b: BlockId, i: nat)
    requires i < |Path(b)|
    ensures !Path(b)[i].Genesis? && Path(Path(b)[i]) == Path(b)[..i + 1]
    ensures Path(b)[i].parent == if i == 0 then Genesis else Path(b)[i - 1]
    decreases b
  {
    if i < |Path(b)| - 1 {
      PathLinks(b.parent, i);
    } else {
      assert Path(b)[..i + 1] == Path(b);
      if i > 0 { PathEnds(b.parent); }
    }
  }

  lemma PathEnds(b: BlockId)
    requires !b.Genesis?
    ensures |Path(b)| > 0 && Path(b)[|Path(b)| - 1] == b
  {
  }

  /** A replica that has executed nothing yet commits exactly up to `t` by the justification that `b` carries. */
  predicate Commits(r: Replica, b: BlockId, t: BlockId)
    requires Sound(r) && b in r.blocks && !b.Genesis?
  {
    r.blocks[b].justify.node == b.parent && Fold(r, b.parent).bExec == t
  }

  lemma ChainCommits(r: Replica, b: BlockId)
    requires Sound(r) && r.bExec == Genesis && b in r.blocks && !b.Genesis? && !b.parent.Genesis? && !b.parent.parent.Genesis?
    requires Height(b.parent.parent.parent) > 0
    ensures Commits(r, b, b.parent.parent.parent) <==>
            && r.blocks[b].justify.node == b.parent && r.blocks[b.parent].justify.node == b.parent.parent
            && r.blocks[b.parent.parent].justify.node == b.parent.parent.parent
  {
    var t := b.parent.parent.parent;
    SpanLast(r.blocks, t, r.bExec);
  }

  /** A transition is counted in the ancestry of a block if and only if some block of that ancestry carries the
      justification by which the replica commits it. */
  lemma SettledIff(r: Replica, labels: Labels, b: BlockId, i: nat)
    requires Sound(r) && r.bExec == Genesis && b in r.blocks && i < |Path(b)| && Height(Path(b)[i]) > 0
    ensures |Seen(r.blocks, labels, b)| == |Path(b)| && forall x :: x in Path(b) ==> x in r.blocks && !x.Genesis?
    ensures S.Settled(Seen(r.blocks, labels, b), i) <==>
            && labels(Path(b)[i]).kind.Transition? && i + 3 < |Path(b)| && Commits(r, Path(b)[i + 3], Path(b)[i])
  {
    SeenAt(r, labels, b);
    if i + 3 < |Path(b)| {
      PathLinks(b, i + 1);
      PathLinks(b, i + 2);
      PathLinks(b, i + 3);
      ChainCommits(r, Path(b)[i + 3]);
    }
  }

  // ---- trees of accepted blocks ----

  /** Every block is higher than its parent and certifies it, as the checks of a proposal demand. */
  predicate Chained(blocks: map<BlockId, Block>) {
    forall b :: b in blocks && !b.Genesis? ==> b.height > Height(b.parent) && blocks[b].justify.node == b.parent
  }

  function Kinds(labels: Labels, p: seq<BlockId>): (ks: seq<S.Kind>)
    ensures |ks| == |p| && forall i :: 0 <= i < |p| ==> ks[i] == labels(p[i]).kind
  {
    seq(|p|, i requires 0 <= i < |p| => labels(p[i]).kind)
  }

  /** What the replica has executed once it has taken in the justification of `b`. */
  function ExecutedBy(r: Replica, b: BlockId): BlockId
    requires Sound(r) && b in r.blocks
  {
    if b.Genesis? then Genesis else Fold(r, r.blocks[b].justify.node).bExec
  }

  function Up(b: BlockId): BlockId {
    if b.Genesis? then b else b.parent
  }

  lemma UpPath(b: BlockId)
    ensures Path(Up(b)) == Path(b)[..S.Short(|Path(b)|, 1)]
  {
  }

  lemma UpThreePath(b: BlockId)
    ensures Path(Up(Up(Up(b)))) == Path(b)[..S.Short(|Path(b)|, 3)]
  {
    UpPath(b);
    UpPath(Up(b));
    UpPath(Up(Up(b)));
    var p := Path(b);
    assert p[..S.Short(|p|, 1)][..S.Short(|p|, 2)] == p[..S.Short(|p|, 2)];
    assert p[..S.Short(|p|, 2)][..S.Short(|p|, 3)] == p[..S.Short(|p|, 3)];
  }

  lemma ExecutesThird(r: Replica, b: BlockId)
    requires Sound(r) && Chained(r.blocks) && r.bExec == Genesis && b in r.blocks
    ensures ExecutedBy(r, b) == Up(Up(Up(b)))
  {
    if !b.Genesis? && !b.parent.Genesis? && !b.parent.parent.Genesis? {
      var t := b.parent.parent.parent;
      if !t.Genesis? { SpanLast(r.blocks, t, r.bExec); }
    }
  }

  /** In a tree of accepted blocks the changes that are derived for a block are exactly those of the blocks which the replica
      commits by the justification of that block. */
  lemma DerivedIsCommitted(r: Replica, labels: Labels, b: BlockId)
    requires Sound(r) && Chained(r.blocks) && r.bExec == Genesis && b in r.blocks
    ensures S.Derived(Seen(r.blocks, labels, b)) == S.ChangesOf(Kinds(labels, Path(ExecutedBy(r, b))))
  {
    var branch, p := Seen(r.blocks, labels, b), Path(b);
    var kinds, n := Kinds(labels, p), S.Short(|p|, 3);
    SeenAt(r, labels, b);
    S.DirectSettled(branch, kinds, 0);
    ExecutesThird(r, b);
    UpThreePath(b);
    KindsOf(labels, p, n);
    Nothing(kinds, S.Derived(branch));
  }

  lemma KindsOf(labels: Labels, p: seq<BlockId>, n: nat)
    requires n <= |p|
    ensures Kinds(labels, p)[..n] == Kinds(labels, p[..n])
  {
  }

  lemma Nothing(kinds: seq<S.Kind>, changes: seq<Option<HsEpoch.Change>>)
    ensures S.ChangesOf(kinds[..0]) + changes == changes
  {
  }
}
