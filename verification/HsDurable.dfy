/** What the durable log says at every moment, also in the middle of a handler. `Holds` ties a journal to the tree, the
    pointers and the vote height that a recovery from it would find. */
module HsDurable {
  import opened Options
  import opened HsTypes
  import opened HsSpec
  import opened HsRecovery

  predicate TreeSound(blocks: map<BlockId, Block>) {
    && Genesis in blocks
    && (forall b :: b in blocks ==> blocks[b].id == b && blocks[b].height == Height(b))
    && (forall b :: b in blocks ==> if b.Genesis? then blocks[b].parent.None?
                                    else blocks[b].parent == Some(b.parent) && b.parent in blocks)
  }

  datatype Summary = Summary(blocks: map<BlockId, Block>, p: Pointers, vHeight: nat)

  /** A recovery from `j` finds `s`: every certificate on record is for a known block, and the executed watermark is no
      higher than what the certificates imply. */
  predicate Holds(c: Config, j: seq<Effect>, s: Summary) {
    var t := Replay(c, j);
    && s == Summary(t.blocks, RaiseAll(t.blocks, Start(c), t.qcs), t.vHeight)
    && TreeSound(s.blocks) && s.p.qcHigh.node in s.blocks && s.p.lock in s.blocks && s.p.exec in s.blocks
    && (forall i :: 0 <= i < |t.qcs| ==> t.qcs[i].node in s.blocks)
    && (t.exec.Some? ==> t.exec.value in s.blocks && Height(t.exec.value) <= Height(s.p.exec))
  }

  /** The votes that have left the replica rise in height, also across restarts, and stay at or below `top`. */
  predicate VotesRise(j: seq<Effect>, top: nat) {
    && (forall i :: 0 <= i < |j| && j[i].Send? ==> j[i].vote.height <= top)
    && (forall i, k :: 0 <= i < k < |j| && j[i].Send? && j[k].Send? ==> j[i].vote.height < j[k].vote.height)
  }

  function SummaryOf(r: Replica, vHeight: nat): Summary {
    Summary(r.blocks, Pointers(r.qcHigh, r.bLock, r.bExec), vHeight)
  }

  function VotedUpTo(c: Config, j: seq<Effect>): nat {
    Replay(c, j).vHeight
  }

  /** The durable log of a replica describes it. */
  predicate Tracks(c: Config, r: Replica) {
    var v := VotedUpTo(c, r.journal);
    Holds(c, r.journal, SummaryOf(r, v)) && v <= r.vHeight && VotesRise(r.journal, v)
  }

  lemma FreshTracks(c: Config, id: Id)
    ensures Tracks(c, NewReplica(c, id))
  {
  }

  /** Recovery restores highest certificate, lock, committed block and durable vote height. */
  lemma RecoverFinds(c: Config, id: Id, j: seq<Effect>, s: Summary)
    requires Holds(c, j, s)
    ensures Recover(c, id, j) == Replica(id, s.blocks, s.p.qcHigh, s.p.qcHigh.node, s.p.lock, s.p.exec, s.vHeight,
                                         map[], {}, Path(s.p.exec), j)
  {
  }

  // ---- one more effect ----

  lemma Snoc(c: Config, j: seq<Effect>, e: Effect)
    ensures Replay(c, j + [e]) == if e.Write? then ApplyRecovered(Replay(c, j), e.rec) else Replay(c, j)
  {
    assert (j + [e])[..|j|] == j;
  }

  predicate Grown(blocks: map<BlockId, Block>, blocks': map<BlockId, Block>) {
    forall b :: b in blocks ==> b in blocks' && blocks'[b] == blocks[b]
  }

  lemma {:induction false} RaiseStable(blocks: map<BlockId, Block>, blocks': map<BlockId, Block>, p: Pointers, qcs: seq<QC>)
    requires TreeSound(blocks) && Grown(blocks, blocks') && forall i :: 0 <= i < |qcs| ==> qcs[i].node in blocks
    ensures RaiseAll(blocks', p, qcs) == RaiseAll(blocks, p, qcs)
    decreases |qcs|
  {
    if qcs != [] {
      RaiseStable(blocks, blocks', p, qcs[..|qcs| - 1]);
      RaiseOneStable(blocks, blocks', RaiseAll(blocks, p, qcs[..|qcs| - 1]), qcs[|qcs| - 1]);
    }
  }

  lemma RaiseOneStable(blocks: map<BlockId, Block>, blocks': map<BlockId, Block>, p: Pointers, qc: QC)
    requires TreeSound(blocks) && Grown(blocks, blocks') && qc.node in blocks
    ensures Raise(blocks', p, qc) == Raise(blocks, p, qc)
  {
  }

  lemma TreeAdd(blocks: map<BlockId, Block>, b: Block)
    requires TreeSound(blocks) && Content(b) == Some(b.id) && b.parent.value in blocks && b.id !in blocks
    ensures TreeSound(blocks[b.id := b]) && Grown(blocks, blocks[b.id := b])
  {
  }

  lemma AddBlock(c: Config, j: seq<Effect>, s: Summary, b: Block)
    requires Holds(c, j, s) && Content(b) == Some(b.id) && b.parent.value in s.blocks && b.id !in s.blocks
    ensures Holds(c, j + [Write(BlockRecord(b))], s.(blocks := s.blocks[b.id := b]))
  {
    Snoc(c, j, Write(BlockRecord(b)));
    TreeAdd(s.blocks, b);
    RaiseStable(s.blocks, s.blocks[b.id := b], Start(c), Replay(c, j).qcs);
  }

  lemma RaiseKnown(blocks: map<BlockId, Block>, p: Pointers, qc: QC)
    requires TreeSound(blocks) && qc.node in blocks && p.qcHigh.node in blocks && p.lock in blocks && p.exec in blocks
    ensures var p' := Raise(blocks, p, qc);
            p'.qcHigh.node in blocks && p'.lock in blocks && p'.exec in blocks && Height(p.exec) <= Height(p'.exec)
  {
  }

  lemma AddQC(c: Config, j: seq<Effect>, s: Summary, qc: QC)
    requires Holds(c, j, s) && qc.node in s.blocks
    ensures Holds(c, j + [Write(QCRecord(qc))], s.(p := Raise(s.blocks, s.p, qc)))
  {
    Snoc(c, j, Write(QCRecord(qc)));
    RaiseSnoc(s.blocks, Start(c), Replay(c, j).qcs, qc);
    RaiseKnown(s.blocks, s.p, qc);
  }

  lemma RaiseSnoc(blocks: map<BlockId, Block>, p: Pointers, qcs: seq<QC>, qc: QC)
    ensures RaiseAll(blocks, p, qcs + [qc]) == Raise(blocks, RaiseAll(blocks, p, qcs), qc)
  {
    assert (qcs + [qc])[..|qcs|] == qcs;
  }

  /** Effects that a recovery does not see, or that only repeat what the certificates imply. */
  predicate Quiet(s: Summary, e: Effect) {
    e.Run? || (e.Write? && e.rec.AppliedRecord? && e.rec.exec in s.blocks && Height(e.rec.exec) <= Height(s.p.exec))
  }

  lemma AddQuiet(c: Config, j: seq<Effect>, s: Summary, e: Effect)
    requires Holds(c, j, s) && (Quiet(s, e) || e.Send?)
    ensures Holds(c, j + [e], s)
  {
    Snoc(c, j, e);
  }

  lemma AddVoted(c: Config, j: seq<Effect>, s: Summary, h: nat)
    requires Holds(c, j, s) && h > s.vHeight
    ensures Holds(c, j + [Write(VotedRecord(h))], s.(vHeight := h))
  {
    Snoc(c, j, Write(VotedRecord(h)));
  }

  // ---- any log ----

  /** Whatever is in the log, replay builds a proper tree, and the watermark is in it. */
  lemma {:induction false} ReplayBuilds(c: Config, j: seq<Effect>)
    ensures var t := Replay(c, j); TreeSound(t.blocks) && (t.exec.Some? ==> t.exec.value in t.blocks)
    decreases |j|
  {
    if j != [] {
      ReplayBuilds(c, j[..|j| - 1]);
      RecoveredBuilds(Replay(c, j[..|j| - 1]), j[|j| - 1]);
    }
  }

  lemma RecoveredBuilds(t: Rebuild, e: Effect)
    requires TreeSound(t.blocks) && (t.exec.Some? ==> t.exec.value in t.blocks)
    ensures var t' := if e.Write? then ApplyRecovered(t, e.rec) else t;
            TreeSound(t'.blocks) && (t'.exec.Some? ==> t'.exec.value in t'.blocks)
  {
    if e.Write? && e.rec.BlockRecord? && ApplyRecovered(t, e.rec) != t { TreeAdd(t.blocks, e.rec.block); }
  }

  /** Whatever is in the log, recovery does not fall below the watermark of executed blocks, unless the block of its
      highest certificate is missing: then it goes back to the root. */
  lemma WatermarkKept(c: Config, id: Id, j: seq<Effect>)
    ensures var t, x := Replay(c, j), Recover(c, id, j);
            var high := RaiseAll(t.blocks, Start(c), t.qcs).qcHigh;
            if high.node in t.blocks then t.exec.Some? ==> Height(t.exec.value) <= Height(x.bExec)
            else x.qcHigh == GenesisQC(c) && x.bExec == Genesis
  {
    ReplayBuilds(c, j);
  }

  // ---- several effects ----

  lemma Assoc<T>(a: seq<T>, b: seq<T>, c: seq<T>)
    ensures (a + b) + c == a + (b + c)
  {
  }

  lemma CutTail<T>(a: seq<T>, b: seq<T>, n: nat)
    requires |a| <= n <= |a| + |b|
    ensures (a + b)[..n] == a + b[..n - |a|] && (a + b)[|a|..] == b
  {
  }

  /** Replay of quiet effects moves at most the watermark. */
  predicate Rested(s: Summary, t: Rebuild, t': Rebuild) {
    && t' == t.(exec := t'.exec)
    && (t'.exec == t.exec || (t'.exec.Some? && t'.exec.value in s.blocks && Height(t'.exec.value) <= Height(s.p.exec)))
  }

  lemma {:induction false} ReplayQuiet(c: Config, j: seq<Effect>, s: Summary, tail: seq<Effect>)
    requires forall e :: e in tail ==> Quiet(s, e)
    ensures Rested(s, Replay(c, j), Replay(c, j + tail))
    decreases |tail|
  {
    if tail == [] {
      assert j + tail == j;
    } else {
      var front, e := tail[..|tail| - 1], tail[|tail| - 1];
      ReplayQuiet(c, j, s, front);
      assert e in tail && j + tail == (j + front) + [e];
      Snoc(c, j + front, e);
      RestedMore(s, Replay(c, j), Replay(c, j + front), e);
    }
  }

  lemma RestedMore(s: Summary, t: Rebuild, t': Rebuild, e: Effect)
    requires Rested(s, t, t') && Quiet(s, e)
    ensures Rested(s, t, if e.Write? then ApplyRecovered(t', e.rec) else t')
  {
  }

  lemma AllQuiet(c: Config, j: seq<Effect>, s: Summary, tail: seq<Effect>)
    requires Holds(c, j, s) && forall e :: e in tail ==> Quiet(s, e)
    ensures Holds(c, j + tail, s)
  {
    ReplayQuiet(c, j, s, tail);
  }

  /** The effects of a commit. */
  function CommitTail(r: Replica, gp: BlockId): seq<Effect> {
    var span := Span(r.blocks, gp, r.bExec);
    Commands(r.blocks, span) + [Write(AppliedRecord(if span == [] then r.bExec else span[|span| - 1]))]
  }

  lemma {:induction false} CommandsRun(blocks: map<BlockId, Block>, span: seq<BlockId>)
    ensures forall e :: e in Commands(blocks, span) ==> e.Run?
    decreases |span|
  {
    if span != [] { CommandsRun(blocks, span[..|span| - 1]); }
  }

  /** What a certificate leaves behind in the journal after its own record. */
  function FoldTail(r: Replica, node: BlockId): seq<Effect>
    requires Sound(r)
  {
    if Fold(r, node).bExec == r.bExec then [] else CommitTail(r, Fold(r, node).bExec)
  }

  lemma {:induction false} SpanLast(blocks: map<BlockId, Block>, b: BlockId, stop: BlockId)
    requires b in blocks && b != stop
    ensures var span := Span(blocks, b, stop); span != [] && span[|span| - 1] == b
  {
  }

  lemma CommitJournal(r: Replica, gp: BlockId)
    ensures CommitUpTo(r, gp).journal == r.journal + CommitTail(r, gp)
  {
    var span := Span(r.blocks, gp, r.bExec);
    Assoc(r.journal, Commands(r.blocks, span),
          [Write(AppliedRecord(if span == [] then r.bExec else span[|span| - 1]))]);
  }

  lemma {:induction false} FoldJournal(r: Replica, node: BlockId)
    requires Sound(r)
    ensures Fold(r, node).journal == r.journal + FoldTail(r, node)
  {
    assert r.journal + [] == r.journal;
    if node in r.blocks && !node.Genesis? && !node.parent.Genesis? {
      var gp := node.parent.parent;
      if Height(gp) > Height(r.bExec) {
        SpanLast(r.blocks, gp, r.bExec);
        CommitJournal(r, gp);
        CommitJournal(r.(bLock := node.parent), gp);
      }
    }
  }

  /** The handler and recovery follow the same chain rules. */
  lemma FoldIsRaise(r: Replica, qc: QC)
    requires Sound(r) && qc.node in r.blocks && qc.height > r.qcHigh.height
    ensures var r' := Fold(r.(qcHigh := qc, journal := r.journal + [Write(QCRecord(qc))]), qc.node);
            Pointers(r'.qcHigh, r'.bLock, r'.bExec) == Raise(r.blocks, Pointers(r.qcHigh, r.bLock, r.bExec), qc)
            && r'.blocks == r.blocks && r'.bExec in r.blocks
  {
    var node := qc.node;
    if !node.Genesis? && !node.parent.Genesis? {
      var gp := node.parent.parent;
      if Height(gp) > Height(r.bExec) { SpanLast(r.blocks, gp, r.bExec); }
    }
  }

  lemma TailQuiet(r: Replica, node: BlockId, s: Summary)
    requires Sound(r) && s.blocks == r.blocks && s.p.exec == Fold(r, node).bExec && s.p.exec in r.blocks
    ensures forall e :: e in FoldTail(r, node) ==> Quiet(s, e)
  {
    var r' := Fold(r, node);
    if r'.bExec != r.bExec {
      CommandsRun(r.blocks, Span(r.blocks, r'.bExec, r.bExec));
      SpanLast(r.blocks, r'.bExec, r.bExec);
    }
  }

  /** A crash while a certificate is taken in: before its record recovery finds the old state, afterwards the new one,
      no matter how much of the commit was carried out. */
  lemma CertificateCut(c: Config, r: Replica, qc: QC, v: nat, n: nat)
    requires Sound(r) && Holds(c, r.journal, SummaryOf(r, v)) && qc.node in r.blocks && qc.height > r.qcHigh.height
    requires var r' := Fold(r.(qcHigh := qc, journal := r.journal + [Write(QCRecord(qc))]), qc.node);
             |r.journal| < n <= |r'.journal|
    ensures var r' := Fold(r.(qcHigh := qc, journal := r.journal + [Write(QCRecord(qc))]), qc.node);
            r.journal <= r'.journal && Holds(c, r'.journal[..n], SummaryOf(r', v))
  {
    var r1 := r.(qcHigh := qc, journal := r.journal + [Write(QCRecord(qc))]);
    var r' := Fold(r1, qc.node);
    FoldJournal(r1, qc.node);
    FoldIsRaise(r, qc);
    AddQC(c, r.journal, SummaryOf(r, v), qc);
    var tail := FoldTail(r1, qc.node);
    TailQuiet(r1, qc.node, SummaryOf(r', v));
    CutTail(r1.journal, tail, n);
    AllQuiet(c, r1.journal, SummaryOf(r', v), tail[..n - |r1.journal|]);
  }

  /** The effects of taking in a certificate. */
  function CertificateTail(c: Config, k: Keys, r: Replica, qc: QC): seq<Effect>
    requires c.members != {} && Sound(r)
  {
    if !QCValid(c, k, r.blocks, qc) || qc.height <= r.qcHigh.height then []
    else [Write(QCRecord(qc))] + FoldTail(r.(qcHigh := qc, journal := r.journal + [Write(QCRecord(qc))]), qc.node)
  }

  lemma CertificateJournal(c: Config, k: Keys, r: Replica, qc: QC)
    requires c.members != {} && Sound(r)
    ensures OnNewQC(c, k, r, qc).journal == r.journal + CertificateTail(c, k, r, qc)
  {
    if !QCValid(c, k, r.blocks, qc) || qc.height <= r.qcHigh.height {
      assert r.journal + [] == r.journal;
    } else {
      var r1 := r.(qcHigh := qc, journal := r.journal + [Write(QCRecord(qc))]);
      FoldJournal(r1, qc.node);
      Assoc(r.journal, [Write(QCRecord(qc))], FoldTail(r1, qc.node));
    }
  }

  lemma CertificateSilent(c: Config, k: Keys, r: Replica, qc: QC)
    requires c.members != {} && Sound(r)
    ensures forall e :: e in CertificateTail(c, k, r, qc) ==> !e.Send?
  {
    var r1 := r.(qcHigh := qc, journal := r.journal + [Write(QCRecord(qc))]);
    var r' := Fold(r1, qc.node);
    CommandsRun(r.blocks, Span(r.blocks, r'.bExec, r.bExec));
  }

  /** A crash while a certificate is taken in, or before, or after. */
  lemma TakenCut(c: Config, k: Keys, r: Replica, qc: QC, v: nat, n: nat)
    requires c.members != {} && Sound(r) && Holds(c, r.journal, SummaryOf(r, v)) && qc.node in r.blocks
    requires |r.journal| <= n <= |OnNewQC(c, k, r, qc).journal|
    ensures var r' := OnNewQC(c, k, r, qc);
            Holds(c, r'.journal[..n], if n == |r.journal| then SummaryOf(r, v) else SummaryOf(r', v))
    ensures n == |r.journal| == |OnNewQC(c, k, r, qc).journal| ==> SummaryOf(OnNewQC(c, k, r, qc), v) == SummaryOf(r, v)
  {
    CertificateJournal(c, k, r, qc);
    if n == |r.journal| {
      CutTail(r.journal, CertificateTail(c, k, r, qc), n);
      assert r.journal + [] == r.journal;
    } else {
      CertificateCut(c, r, qc, v, n);
    }
  }

  // ---- whole handlers ----

  lemma AddVote(c: Config, r: Replica, b: Block, v: nat, n: nat)
    requires Holds(c, r.journal, SummaryOf(r, v)) && v <= r.vHeight && b.height > r.vHeight
    requires |r.journal| < n <= |r.journal| + 2
    ensures Holds(c, CastVote(r, b, true).0.journal[..n], SummaryOf(r, b.height))
  {
    var w, d := Write(VotedRecord(b.height)), Send(Vote(b.height, b.id, r.id));
    CutTail(r.journal, [w, d], n);
    AddVoted(c, r.journal, SummaryOf(r, v), b.height);
    if n == |r.journal| + 1 {
      assert [w, d][..1] == [w];
    } else {
      AddQuiet(c, r.journal + [w], SummaryOf(r, b.height), d);
      Assoc(r.journal, [w], [d]);
      assert [w, d][..2] == [w] + [d];
    }
  }

  lemma CutPrefix<T>(a: seq<T>, b: seq<T>, d: seq<T>, n: nat)
    requires a <= b <= d && n <= |b|
    ensures d[..n] == b[..n] && (n == |a| ==> d[..n] == a)
  {
  }

  /** What the vote adds. */
  lemma CastShape(r: Replica, b: Block, durable: bool)
    ensures var (r', vote) := CastVote(r, b, durable);
            && r.journal <= r'.journal && SummaryOf(r', 0) == SummaryOf(r, 0) && r'.committed == r.committed
            && (if vote.None? then r'.journal == r.journal
                else r' == CastVote(r, b, true).0 && |r'.journal| == |r.journal| + 2 && b.height > r.vHeight)
  {
  }

  /** What a certificate leaves alone. */
  lemma TakenShape(c: Config, k: Keys, r: Replica, qc: QC)
    requires c.members != {} && Sound(r)
    ensures var r' := OnNewQC(c, k, r, qc); r'.vHeight == r.vHeight && r'.id == r.id && r'.blocks == r.blocks
    ensures r.journal <= OnNewQC(c, k, r, qc).journal
  {
    CertificateJournal(c, k, r, qc);
  }

  /** A crash after the certificate was taken in, around the vote. */
  lemma VoteCut(c: Config, r2: Replica, b: Block, durable: bool, v: nat, n: nat) returns (v': nat)
    requires Holds(c, r2.journal, SummaryOf(r2, v)) && v <= r2.vHeight
    requires |r2.journal| <= n <= |CastVote(r2, b, durable).0.journal|
    ensures var (r', vote) := CastVote(r2, b, durable);
            && Holds(c, r'.journal[..n], SummaryOf(r2, v')) && (v' == v || (v' == b.height && v < v'))
            && (n == |r'.journal| ==> v' == if vote.Some? then b.height else v)
  {
    var (r', vote) := CastVote(r2, b, durable);
    CastShape(r2, b, durable);
    if n == |r2.journal| {
      v' := v;
      CutPrefix(r2.journal, r2.journal, r'.journal, n);
    } else {
      v' := b.height;
      AddVote(c, r2, b, v, n);
    }
  }

  lemma DeliverOrder(c: Config, k: Keys, r: Replica, b: Block, durable: bool)
    requires c.members != {} && Sound(r) && Content(b) == Some(b.id) && b.parent.value in r.blocks
    ensures var r' := CastVote(OnNewQC(c, k, Insert(r, b), b.justify), b, durable).0;
            r.journal <= r'.journal && |r.journal| < |r'.journal|
  {
    var r1 := Insert(r, b);
    TakenShape(c, k, r1, b.justify);
    CastShape(OnNewQC(c, k, r1, b.justify), b, durable);
    PrefixChain(r.journal, r1.journal, OnNewQC(c, k, r1, b.justify).journal);
  }

  lemma PrefixChain<T>(a: seq<T>, b: seq<T>, d: seq<T>)
    requires a <= b <= d
    ensures a <= d
  {
  }

  /** A crash in the middle of a proposal: recovery finds the replica before the block, with the block, or with the
      block and its certificate, and a vote height that was durable before or that of the block. `n` is the number of
      effects that were carried out. */
  lemma DeliverCut(c: Config, k: Keys, r: Replica, b: Block, durable: bool, v: nat, n: nat) returns (y: Replica, v': nat)
    requires c.members != {} && Sound(r) && Holds(c, r.journal, SummaryOf(r, v)) && v <= r.vHeight
    requires Content(b) == Some(b.id) && b.parent.value in r.blocks && b.id !in r.blocks && b.justify.node in r.blocks
    requires |r.journal| <= n <= |CastVote(OnNewQC(c, k, Insert(r, b), b.justify), b, durable).0.journal|
    ensures y == r || y == Insert(r, b) || y == OnNewQC(c, k, Insert(r, b), b.justify)
    ensures var (r', vote) := CastVote(OnNewQC(c, k, Insert(r, b), b.justify), b, durable);
            && Holds(c, r'.journal[..n], SummaryOf(y, v')) && r.journal <= r'.journal
            && (v' == v || (v' == b.height && v < v'))
            && (y == OnNewQC(c, k, Insert(r, b), b.justify) || r'.journal[..n] == y.journal)
            && (n == |r'.journal| ==> y == OnNewQC(c, k, Insert(r, b), b.justify)
                                      && v' == if vote.Some? then b.height else v)
  {
    DeliverOrder(c, k, r, b, durable);
    if n == |r.journal| {
      y, v' := r, v;
      var r' := CastVote(OnNewQC(c, k, Insert(r, b), b.justify), b, durable).0;
      CutPrefix(r.journal, r'.journal, r'.journal, n);
    } else {
      y, v' := StagedCut(c, k, r, b, durable, v, n);
    }
  }

  /** A crash after the block was inserted and before the vote. */
  lemma BeforeVote(c: Config, k: Keys, r: Replica, b: Block, v: nat, n: nat)
    requires c.members != {} && Sound(r) && Holds(c, r.journal, SummaryOf(r, v))
    requires Content(b) == Some(b.id) && b.parent.value in r.blocks && b.id !in r.blocks && b.justify.node in r.blocks
    requires var r2 := OnNewQC(c, k, Insert(r, b), b.justify); |r.journal| < n <= |r2.journal|
    ensures var r1 := Insert(r, b); var r2 := OnNewQC(c, k, r1, b.justify);
            && Holds(c, r2.journal[..n], SummaryOf(if n == |r1.journal| && n < |r2.journal| then r1 else r2, v))
            && (n == |r1.journal| ==> r2.journal[..n] == r1.journal)
  {
    TakenShape(c, k, Insert(r, b), b.justify);
    AddBlock(c, r.journal, SummaryOf(r, v), b);
    TakenCut(c, k, Insert(r, b), b.justify, v, n);
  }

  lemma StagedCut(c: Config, k: Keys, r: Replica, b: Block, durable: bool, v: nat, n: nat) returns (y: Replica, v': nat)
    requires c.members != {} && Sound(r) && Holds(c, r.journal, SummaryOf(r, v)) && v <= r.vHeight
    requires Content(b) == Some(b.id) && b.parent.value in r.blocks && b.id !in r.blocks && b.justify.node in r.blocks
    requires |r.journal| < n <= |CastVote(OnNewQC(c, k, Insert(r, b), b.justify), b, durable).0.journal|
    ensures y == Insert(r, b) || y == OnNewQC(c, k, Insert(r, b), b.justify)
    ensures var (r', vote) := CastVote(OnNewQC(c, k, Insert(r, b), b.justify), b, durable);
            && Holds(c, r'.journal[..n], SummaryOf(y, v')) && (v' == v || (v' == b.height && v < v'))
            && (y == OnNewQC(c, k, Insert(r, b), b.justify) || r'.journal[..n] == y.journal)
            && (n == |r'.journal| ==> y == OnNewQC(c, k, Insert(r, b), b.justify)
                                      && v' == if vote.Some? then b.height else v)
  {
    var r1 := Insert(r, b);
    var r2 := OnNewQC(c, k, r1, b.justify);
    TakenShape(c, k, r1, b.justify);
    if n < |r2.journal| {
      BeforeVote(c, k, r, b, v, n);
      y, v' := if n == |r1.journal| then r1 else r2, v;
      EarlyCut(c, r2, b, durable, n);
    } else {
      BeforeVote(c, k, r, b, v, |r2.journal|);
      assert r2.journal[..|r2.journal|] == r2.journal;
      y := r2;
      v' := VoteCut(c, r2, b, durable, v, n);
    }
  }

  lemma EarlyCut(c: Config, r2: Replica, b: Block, durable: bool, n: nat)
    requires n < |r2.journal|
    ensures var r' := CastVote(r2, b, durable).0; r'.journal[..n] == r2.journal[..n] && n < |r'.journal|
  {
  }

  function AllVoters(r: Replica, v: Vote): set<Id> {
    (if v.node in r.votes then r.votes[v.node] else {}) + {v.voter}
  }

  /** The leader with a complete quorum for a block. */
  function Counted(r: Replica, v: Vote): Replica {
    r.(votes := r.votes[v.node := AllVoters(r, v)], qcFormed := r.qcFormed + {v.node})
  }

  lemma VoteCases(c: Config, k: Keys, r: Replica, v: Vote)
    requires c.members != {} && Sound(r)
    ensures var r' := VoteForBlock(c, k, r, v);
            || r' == r.(votes := r'.votes)
            || (v.node in r.blocks && Sound(Counted(r, v))
                && r' == OnNewQC(c, k, Counted(r, v), QC(v.node, v.height, AllVoters(r, v))))
  {
  }

  /** A crash while a vote is counted: recovery finds the replica before or after. */
  lemma CountCut(c: Config, k: Keys, r: Replica, vote: Vote, v: nat, n: nat) returns (y: Replica)
    requires c.members != {} && Sound(r) && Holds(c, r.journal, SummaryOf(r, v))
    requires |r.journal| <= n <= |VoteForBlock(c, k, r, vote).journal|
    ensures var r' := VoteForBlock(c, k, r, vote);
            && r.journal <= r'.journal && Holds(c, r'.journal[..n], SummaryOf(y, v))
            && (y == r' || (y == r && r'.journal[..n] == r.journal)) && (n == |r'.journal| ==> y == r')
  {
    var r' := VoteForBlock(c, k, r, vote);
    y := if n == |r'.journal| || n > |r.journal| then r' else r;
    VoteCases(c, k, r, vote);
    if r' == r.(votes := r'.votes) {
      CutPrefix(r.journal, r.journal, r'.journal, n);
    } else {
      var x, qc := Counted(r, vote), QC(vote.node, vote.height, AllVoters(r, vote));
      TakenShape(c, k, x, qc);
      TakenCut(c, k, x, qc, v, n);
    }
  }

  /** `j'` continues `j` without sending a vote. */
  predicate Silent(j: seq<Effect>, j': seq<Effect>) {
    j <= j' && forall i :: |j| <= i < |j'| ==> !j'[i].Send?
  }

  lemma SilentTail(j: seq<Effect>, j': seq<Effect>, tail: seq<Effect>)
    requires j' == j + tail && forall e :: e in tail ==> !e.Send?
    ensures Silent(j, j')
  {
    forall i | |j| <= i < |j'| ensures !j'[i].Send? {
      assert j'[i] == tail[i - |j|];
    }
  }

  lemma TakenSilent(c: Config, k: Keys, r: Replica, qc: QC)
    requires c.members != {} && Sound(r)
    ensures Silent(r.journal, OnNewQC(c, k, r, qc).journal)
  {
    CertificateJournal(c, k, r, qc);
    CertificateSilent(c, k, r, qc);
    SilentTail(r.journal, OnNewQC(c, k, r, qc).journal, CertificateTail(c, k, r, qc));
  }

  lemma CountSilent(c: Config, k: Keys, r: Replica, vote: Vote)
    requires c.members != {} && Sound(r)
    ensures Silent(r.journal, VoteForBlock(c, k, r, vote).journal)
  {
    var r' := VoteForBlock(c, k, r, vote);
    VoteCases(c, k, r, vote);
    if r' != r.(votes := r'.votes) {
      TakenSilent(c, k, Counted(r, vote), QC(vote.node, vote.height, AllVoters(r, vote)));
    }
  }

  /** Votes rise in a journal that has sent nothing more. */
  lemma SilentVotes(j: seq<Effect>, j': seq<Effect>, n: nat, top: nat)
    requires Silent(j, j') && |j| <= n <= |j'| && VotesRise(j, top)
    ensures VotesRise(j'[..n], top)
  {
    assert forall i :: 0 <= i < |j| ==> j'[i] == j[i];
  }

  /** Votes rise in a journal whose last effect is a vote above all before. */
  lemma LastVote(j: seq<Effect>, j': seq<Effect>, rec: Effect, last: Effect, top: nat)
    requires Silent(j, j') && VotesRise(j, top) && !rec.Send? && last.Send? && last.vote.height > top
    ensures VotesRise(j' + [rec, last], last.vote.height) && VotesRise(j' + [rec], top)
  {
    assert forall i :: 0 <= i < |j| ==> j'[i] == j[i];
  }

  lemma AroundVote(r2: Replica, b: Block, durable: bool, j: seq<Effect>, v: nat, n: nat, v': nat)
    requires Silent(j, r2.journal) && VotesRise(j, v) && v <= r2.vHeight && v <= v'
    requires var (r', vote) := CastVote(r2, b, durable);
             |j| <= n <= |r'.journal| && (n == |r'.journal| ==> v' == if vote.Some? then b.height else v)
    ensures VotesRise(CastVote(r2, b, durable).0.journal[..n], v')
  {
    var (r', vote) := CastVote(r2, b, durable);
    CastShape(r2, b, durable);
    if n <= |r2.journal| {
      SilentVotes(j, r2.journal, n, v);
      CutPrefix(j, r2.journal, r'.journal, n);
    } else {
      var rec, last := Write(VotedRecord(b.height)), Send(vote.value);
      LastVote(j, r2.journal, rec, last, v);
      CutTail(r2.journal, [rec, last], n);
      assert [rec, last][..1] == [rec] && [rec, last][..2] == [rec, last];
    }
  }

  /** The votes in the journal after a crash in the middle of a proposal. */
  lemma DeliverVotes(c: Config, k: Keys, r: Replica, b: Block, durable: bool, v: nat, n: nat, v': nat)
    requires c.members != {} && Sound(r) && VotesRise(r.journal, v) && v <= r.vHeight && v <= v'
    requires Content(b) == Some(b.id) && b.parent.value in r.blocks
    requires var (r', vote) := CastVote(OnNewQC(c, k, Insert(r, b), b.justify), b, durable);
             && |r.journal| <= n <= |r'.journal|
             && (n == |r'.journal| ==> v' == if vote.Some? then b.height else v)
    ensures var r' := CastVote(OnNewQC(c, k, Insert(r, b), b.justify), b, durable).0; VotesRise(r'.journal[..n], v')
  {
    var r1 := Insert(r, b);
    TakenShape(c, k, r1, b.justify);
    TakenSilent(c, k, r1, b.justify);
    SilentTail(r.journal, r1.journal, [Write(BlockRecord(b))]);
    SilentChain(r.journal, r1.journal, OnNewQC(c, k, r1, b.justify).journal);
    AroundVote(OnNewQC(c, k, r1, b.justify), b, durable, r.journal, v, n, v');
  }

  lemma SilentChain(j: seq<Effect>, j': seq<Effect>, j'': seq<Effect>)
    requires Silent(j, j') && Silent(j', j'')
    ensures Silent(j, j'')
  {
    assert forall i :: 0 <= i < |j'| ==> j''[i] == j'[i];
  }

  // ---- completed handlers ----

  lemma InsertTracks(c: Config, r: Replica, b: Block, r1: Replica)
    requires Tracks(c, r) && Content(b) == Some(b.id) && b.parent.value in r.blocks && b.id !in r.blocks
    requires r1.journal == r.journal + [Write(BlockRecord(b))] && r1.blocks == r.blocks[b.id := b]
    requires r1.qcHigh == r.qcHigh && r1.bLock == r.bLock && r1.bExec == r.bExec && r1.vHeight == r.vHeight
    ensures Tracks(c, r1) && VotedUpTo(c, r1.journal) == VotedUpTo(c, r.journal)
  {
    var v := VotedUpTo(c, r.journal);
    AddBlock(c, r.journal, SummaryOf(r, v), b);
    SilentTail(r.journal, r1.journal, [Write(BlockRecord(b))]);
    SilentVotes(r.journal, r1.journal, |r1.journal|, v);
    assert r1.journal[..|r1.journal|] == r1.journal;
  }

  lemma CountTracks(c: Config, k: Keys, r: Replica, vote: Vote)
    requires c.members != {} && Sound(r) && Tracks(c, r)
    ensures var r' := VoteForBlock(c, k, r, vote); Tracks(c, r') && VotedUpTo(c, r'.journal) == VotedUpTo(c, r.journal)
  {
    var r', v := VoteForBlock(c, k, r, vote), VotedUpTo(c, r.journal);
    CountSilent(c, k, r, vote);
    var y := CountCut(c, k, r, vote, v, |r'.journal|);
    SilentVotes(r.journal, r'.journal, |r'.journal|, v);
    assert r'.journal[..|r'.journal|] == r'.journal;
    CountShape(c, k, r, vote);
  }

  lemma CountShape(c: Config, k: Keys, r: Replica, vote: Vote)
    requires c.members != {} && Sound(r)
    ensures var r' := VoteForBlock(c, k, r, vote); r'.vHeight == r.vHeight && r'.id == r.id && r'.blocks == r.blocks
  {
    VoteCases(c, k, r, vote);
    var r' := VoteForBlock(c, k, r, vote);
    if r' != r.(votes := r'.votes) {
      TakenShape(c, k, Counted(r, vote), QC(vote.node, vote.height, AllVoters(r, vote)));
    }
  }

  lemma DeliverTracks(c: Config, k: Keys, r: Replica, b: Block, durable: bool)
    requires c.members != {} && Sound(r) && Tracks(c, r)
    requires Content(b) == Some(b.id) && b.parent.value in r.blocks && b.id !in r.blocks && b.justify.node in r.blocks
    ensures var (r', vote) := CastVote(OnNewQC(c, k, Insert(r, b), b.justify), b, durable);
            && Tracks(c, r')
            && VotedUpTo(c, r'.journal) == if vote.Some? then b.height else VotedUpTo(c, r.journal)
  {
    var r2 := OnNewQC(c, k, Insert(r, b), b.justify);
    var r' := CastVote(r2, b, durable).0;
    var n, v := |r'.journal|, VotedUpTo(c, r.journal);
    TakenShape(c, k, Insert(r, b), b.justify);
    CastShape(r2, b, durable);
    var y, v' := DeliverCut(c, k, r, b, durable, v, n);
    DeliverVotes(c, k, r, b, durable, v, n, v');
    WholeTracks(c, r', y, v', n);
  }

  /** A whole journal that describes `y` describes every replica with the same pointers. */
  lemma WholeTracks(c: Config, r: Replica, y: Replica, v: nat, n: nat)
    requires n == |r.journal| && Holds(c, r.journal[..n], SummaryOf(y, v)) && VotesRise(r.journal[..n], v) && v <= r.vHeight
    requires SummaryOf(r, 0) == SummaryOf(y, 0)
    ensures Tracks(c, r) && VotedUpTo(c, r.journal) == v
  {
    assert r.journal[..n] == r.journal && SummaryOf(r, v) == SummaryOf(y, v);
  }

  // ---- restarts ----

  /** `x` is the replica that restarts from the journal `j` with what `y` had. */
  predicate Restarted(x: Replica, y: Replica, id: Id, j: seq<Effect>, v: nat) {
    x == Replica(id, y.blocks, y.qcHigh, y.qcHigh.node, y.bLock, y.bExec, v, map[], {}, Path(y.bExec), j)
  }

  lemma Restart(c: Config, id: Id, j: seq<Effect>, y: Replica, v: nat)
    requires Holds(c, j, SummaryOf(y, v)) && VotesRise(j, v)
    ensures Restarted(Recover(c, id, j), y, id, j, v) && Tracks(c, Recover(c, id, j)) && VotedUpTo(c, j) == v
  {
    RecoverFinds(c, id, j, SummaryOf(y, v));
  }
}
