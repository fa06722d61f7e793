/** Every step of the running process keeps the invariant. */
module WalSteps {
  import opened Options
  import opened StoreTypes
  import opened WalTypes
  import opened WalWriterSpec
  import opened WalRecovery
  import opened WalReplay
  import opened WalSystem
  import opened WalInvariant
  import opened WalDisk

  // ---- one more record ----

  lemma LogNext(c: Config, h: History, op: Op)
    requires LogOk(c, h) && Fit(c, op)
    ensures LogOk(c, Logged(h, op))
  {
  }

  /** The record goes to the end of the last file. */
  function Grown(d: Disk, rec: Rec, toTmp: bool): Disk {
    if toTmp then d.(tmp := AddLine(d.tmp, rec)) else d.(active := AddLine(d.active, rec))
  }

  lemma GrownLines(d: Disk, rec: Rec, toTmp: bool)
    requires AllClean(d) && (toTmp <==> d.tmp.Some?)
    ensures AllClean(Grown(d, rec, toTmp)) && Lines(Grown(d, rec, toTmp)) == Lines(d) + [rec]
    ensures toTmp ==> Records(Grown(d, rec, toTmp).tmp) == Records(d.tmp) + [rec]
  {
    var f := if toTmp then d.tmp else d.active;
    assert Records(AddLine(f, rec)) == Records(f) + [rec];
    assert Records(d.active) + (Records(d.tmp) + [rec]) == Records(d.active) + Records(d.tmp) + [rec];
    if !toTmp { assert Records(d.active) + [rec] + [] == Records(d.active) + [] + [rec]; }
  }

  lemma DiskNext(d: Disk, h: History, d': Disk, rec: Rec)
    requires DiskOk(d, h) && d'.snapshot == d.snapshot && h.acked <= Upto(|h.log|)
    requires Lines(d') == Lines(d) + [rec] && rec.index == |h.log| + 1
    ensures DiskOk(d', Logged(h, rec.op))
  {
    ReachesNext(Lines(d), Base(d), |h.log|, rec);
    MatchesNext(Lines(d), h.log, rec);
    HoldsNext(Start(d).data, h.log, h.inSnapshot, rec.op);
  }

  /** `rec` is the next record. */
  lemma FilesNext(d: Disk, w: WriterState, n: nat, m: Mutation, toTmp: bool, rec: Rec)
    requires FilesOk(d, w, n) && w.mode != Rotating && (toTmp <==> w.mode == Sealing) && rec == Rec(n + 1, m.op)
    ensures var (w', d', rs) := Append(w, d, m, toTmp);
            && d' == Grown(d, rec, toTmp) && FilesOk(d', w', rec.index)
            && rs == [(m, Written(rec.index))]
  {
    GrownLines(d, rec, toTmp);
    if toTmp { ReachesNext(Records(d.tmp), w.sealBoundary, n, rec); }
  }

  lemma MemNext(d: Disk, d': Disk, l: Live, l': Live, h: History, op: Op)
    requires MemOk(d, l, h) && d'.snapshotTmp == d.snapshotTmp && l'.mem == l.mem && l'.progress == l.progress
    ensures MemOk(d', l', Logged(h, op))
  {
    HoldsNext(l.mem, h.log, h.inMem, op);
    if l.progress.Captured? { HoldsNext(l.progress.data, h.log, h.inCapture, op); }
    if l.progress.Stored? { HoldsNext(d.snapshotTmp.value.data, h.log, h.inCapture, op); }
  }

  // ---- the writer takes a mutation ----

  /** The same messages are waiting. */
  predicate SameAnswers(l: Live, l': Live) {
    l'.w.answers == l.w.answers && l'.drain == l.drain
  }

  lemma SameWaiting(l: Live, l': Live)
    requires SameAnswers(l, l')
    ensures forall id: nat :: Answered(l', id) <==> Answered(l, id)
    ensures forall msg :: Waiting(l', msg) <==> Waiting(l, msg)
  {
  }

  lemma QueueTail(l: Live, l': Live)
    requires QueueOk(l) && l.queue != [] && l'.queue == l.queue[1..]
    requires SameAnswers(l, l') && l'.nextId == l.nextId
    ensures QueueOk(l')
  {
    SameWaiting(l, l');
    assert forall msg :: msg in l'.queue ==> msg in l.queue;
    assert forall i :: 0 <= i < |l'.queue| ==> l'.queue[i] == l.queue[i + 1];
  }

  /** Nothing that the manager relies on has changed, and no new message is in the channel. */
  lemma OrdersTail(d: Disk, d': Disk, l: Live, l': Live)
    requires OrdersOk(d, l) && ProgressOk(d, l) && SameAnswers(l, l')
    requires forall msg :: msg in l'.queue ==> msg in l.queue
    requires l'.w.mode == l.w.mode && l'.w.sealBoundary == l.w.sealBoundary
    requires l'.nextId == l.nextId && l'.progress == l.progress
    requires d'.snapshot == d.snapshot && (d'.tmp.None? <==> d.tmp.None?)
    ensures OrdersOk(d', l') && ProgressOk(d', l')
  {
    SameWaiting(l, l');
  }

  /** The first message is gone, and nothing else that the manager relies on has changed. */
  lemma ChannelTail(d: Disk, d': Disk, l: Live, l': Live)
    requires ChannelOk(d, l) && l.queue != [] && l'.queue == l.queue[1..] && SameAnswers(l, l')
    requires l'.w.mode == l.w.mode && l'.w.sealBoundary == l.w.sealBoundary
    requires l'.nextId == l.nextId && l'.progress == l.progress
    requires d'.snapshot == d.snapshot && (d'.tmp.None? <==> d.tmp.None?)
    ensures ChannelOk(d', l')
  {
    QueueTail(l, l');
    assert forall msg :: msg in l'.queue ==> msg in l.queue;
    OrdersTail(d, d', l, l');
  }

  /** A mutation is written to a file: it leaves the channel and its result is posted. */
  lemma WrittenPending(c: Config, base: nat, l: Live, l': Live, h: History, i: nat)
    requires i == |h.log| + 1
    requires ClientsOk(c, base, l, h)
    requires l.drain.None? && l.queue != [] && l.queue[0].Mutate?
    requires var m := l.queue[0].m;
             && l' == l.(queue := l.queue[1..], w := l'.w, results := l.results[m.id := Written(i)])
             && l'.w.hold == l.w.hold
    requires h.inMem <= Upto(|h.log|) && base <= |h.log|
    requires l.progress.Captured? || l.progress.Stored? ==> l.progress.boundary <= |h.log|
    ensures ClientsOk(c, base, l', Logged(h, l.queue[0].m.op))
  {
    var m := l.queue[0].m;
    assert Mutate(m) in l.queue;
    assert forall i :: 0 <= i < |l'.queue| ==> l'.queue[i] == l.queue[i + 1];
  }

  lemma PostOne(results: map<nat, Outcome>, m: Mutation, o: Outcome)
    ensures Post(results, [(m, o)]) == results[m.id := o]
  {
    assert [(m, o)][1..] == [];
  }

  /** What a write does to the process. */
  lemma WriteShape(c: Config, d: Disk, l: Live, n: nat, openOk: bool, rec: Rec)
    requires FilesOk(d, l.w, n) && rec.index == n + 1
    requires l.drain.None? && l.queue != [] && l.queue[0].Mutate? && NextAppend(c.limits, l).Some?
    requires rec.op == l.queue[0].m.op
    ensures var (d', l') := WriteStep(c, d, l, openOk); var m := l.queue[0].m;
            && d' == Grown(d, rec, l.w.mode == Sealing) && FilesOk(d', l'.w, rec.index)
            && l' == l.(queue := l.queue[1..], w := l'.w, results := l.results[m.id := Written(rec.index)])
            && l'.w == l.w.(lastIndex := rec.index, tmpCount := l'.w.tmpCount)
            && Lines(d') == Lines(d) + [rec]
  {
    var m := l.queue[0].m;
    FilesNext(d, l.w, n, m, l.w.mode == Sealing, rec);
    GrownLines(d, rec, l.w.mode == Sealing);
    PostOne(l.results, m, Written(rec.index));
  }

  lemma WriteRecord(c: Config, d: Disk, l: Live, h: History, openOk: bool)
    requires LogOk(c, h) && DiskOk(d, h) && LiveOk(c, d, l, h)
    requires l.drain.None? && l.queue != [] && l.queue[0].Mutate? && NextAppend(c.limits, l).Some?
    ensures var (d', l') := WriteStep(c, d, l, openOk); var h' := Logged(h, l.queue[0].m.op);
            LogOk(c, h') && DiskOk(d', h') && LiveOk(c, d', l', h')
  {
    var m := l.queue[0].m;
    var rec := Rec(|h.log| + 1, m.op);
    WriteShape(c, d, l, |h.log|, openOk, rec);
    var (d', l') := WriteStep(c, d, l, openOk);
    assert Mutate(m) in l.queue;
    LogNext(c, h, m.op);
    DiskNext(d, h, d', rec);
    WrittenPending(c, Base(d), l, l', h, rec.index);
    MemNext(d, d', l, l', h, m.op);
    ChannelTail(d, d', l, l');
  }

  /** A mutation is refused. */
  lemma RefusedPending(c: Config, base: nat, l: Live, h: History)
    requires ClientsOk(c, base, l, h)
    requires l.drain.None? && l.queue != [] && l.queue[0].Mutate?
    ensures var l' := l.(queue := l.queue[1..], results := l.results[l.queue[0].m.id := Busy]);
            ClientsOk(c, base, l', h)
  {
    var l' := l.(queue := l.queue[1..], results := l.results[l.queue[0].m.id := Busy]);
    assert l.queue[0] in l.queue;
    assert forall i :: 0 <= i < |l'.queue| ==> l'.queue[i] == l.queue[i + 1];
  }

  /** A mutation is held back: it goes from the head of the channel to the end of the hold queue. */
  lemma HeldPending(c: Config, base: nat, l: Live, h: History)
    requires ClientsOk(c, base, l, h)
    requires l.drain.None? && l.queue != [] && l.queue[0].Mutate?
    ensures var l' := l.(queue := l.queue[1..], w := l.w.(hold := l.w.hold + [l.queue[0].m]));
            ClientsOk(c, base, l', h)
  {
    var m := l.queue[0].m;
    var l' := l.(queue := l.queue[1..], w := l.w.(hold := l.w.hold + [m]));
    assert l.queue[0] in l.queue;
    HeldOrdered(l, l', m);
    assert forall i :: 0 <= i < |l'.queue| ==> l'.queue[i] == l.queue[i + 1];
    assert forall x :: x in l'.w.hold ==> x in l.w.hold || x == m;
  }

  lemma HeldOrdered(l: Live, l': Live, m: Mutation)
    requires PendingOk(l) && l.queue != [] && l.queue[0] == Mutate(m)
    requires l'.queue == l.queue[1..] && l'.requests == l.requests && l'.results == l.results
    ensures Ordered(l.w.hold + [m], l')
  {
    assert l.queue[0] in l.queue;
    forall msg | msg in l'.queue && msg.Mutate? ensures m.id < msg.m.id {
      var k :| 0 <= k < |l'.queue| && l'.queue[k] == msg;
      assert l.queue[k + 1] == msg;
    }
    assert forall msg :: msg in l'.queue ==> msg in l.queue;
    assert forall x :: x in l.w.hold ==> x.id < m.id;
  }

  lemma WriteHeld(c: Config, d: Disk, l: Live, h: History, openOk: bool)
    requires DiskOk(d, h) && LiveOk(c, d, l, h)
    requires l.drain.None? && l.queue != [] && l.queue[0].Mutate? && NextAppend(c.limits, l).None?
    ensures var (d', l') := WriteStep(c, d, l, openOk); d' == d && LiveOk(c, d, l', h)
  {
    var m := l.queue[0].m;
    var (d', l') := WriteStep(c, d, l, openOk);
    PostOne(l.results, m, Busy);
    if |l.w.hold| >= c.limits.hold { RefusedPending(c, Base(d), l, h); } else { HeldPending(c, Base(d), l, h); }
    ChannelTail(d, d', l, l');
  }

  // ---- the writer takes a control message ----

  /** Nothing about the clients has changed. */
  lemma SamePending(c: Config, base: nat, l: Live, l': Live, h: History)
    requires ClientsOk(c, base, l, h)
    requires l.queue != [] && l'.queue == l.queue[1..] && l'.w.hold == l.w.hold && l'.drain == l.drain
    requires l'.client == l.client && l'.results == l.results && l'.requests == l.requests && l'.progress == l.progress
    ensures ClientsOk(c, base, l', h)
  {
    assert forall i :: 0 <= i < |l'.queue| ==> l'.queue[i] == l.queue[i + 1];
    assert forall msg :: msg in l'.queue ==> msg in l.queue;
  }

  /** A control message that changes nothing: it has been answered already, or a file could not be opened. */
  lemma WriteIgnored(c: Config, d: Disk, l: Live, l': Live, h: History)
    requires LiveOk(c, d, l, h) && l.queue != [] && l' == l.(queue := l.queue[1..])
    ensures LiveOk(c, d, l', h)
  {
    SamePending(c, Base(d), l, l', h);
    ChannelTail(d, d, l, l');
  }

  /** The first message has been answered: those behind it with other IDs are later. */
  lemma AnsweredTail(l: Live, l': Live)
    requires QueueOk(l) && l.queue != [] && Waiting(l, l.queue[0]) && l'.queue == l.queue[1..] && l'.nextId == l.nextId
    requires forall id: nat :: Answered(l', id) <==> Answered(l, id) || id == l.queue[0].id
    ensures QueueOk(l')
    ensures forall msg :: Waiting(l', msg) ==> Waiting(l, msg)
    ensures forall msg :: msg in l'.queue && Waiting(l', msg) ==> msg.StartSealing?
  {
    assert l.queue[0] in l.queue;
    assert forall i :: 0 <= i < |l'.queue| ==> l'.queue[i] == l.queue[i + 1];
    assert forall msg :: msg in l'.queue ==> msg in l.queue;
    forall msg | msg in l'.queue && Waiting(l', msg)
      ensures msg.StartSealing? && forall id: nat :: Answered(l', id) ==> id < msg.id
    {
      var k :| 0 <= k < |l'.queue| && l'.queue[k] == msg;
      assert l.queue[k + 1] == msg && Waiting(l, msg);
      assert l.queue[0].id <= msg.id;
    }
  }

  /** A request to seal is answered with the boundary in force. */
  lemma SealChannel(d: Disk, d': Disk, l: Live, l': Live)
    requires ChannelOk(d, l) && l.drain.None? && l.queue != [] && l.queue[0].StartSealing? && Waiting(l, l.queue[0])
    requires l' == l.(queue := l.queue[1..], w := l'.w) && l'.w.mode != Idle
    requires l'.w.answers == l.w.answers[l.queue[0].id := ControlResult(l'.w.sealBoundary, 0)]
    requires d'.snapshot == d.snapshot
    requires l.w.mode != Idle ==> l'.w.mode == l.w.mode && l'.w.sealBoundary == l.w.sealBoundary && d'.tmp == d.tmp
    ensures ChannelOk(d', l')
  {
    AnsweredTail(l, l');
    assert l.queue[0] in l.queue;
    assert forall msg :: msg in l'.queue ==> msg in l.queue;
  }

  lemma WriteSeal(c: Config, d: Disk, l: Live, h: History)
    requires DiskOk(d, h) && LiveOk(c, d, l, h)
    requires l.drain.None? && l.queue != [] && l.queue[0].StartSealing? && Waiting(l, l.queue[0])
    ensures var (d', l') := WriteStep(c, d, l, true); DiskOk(d', h) && LiveOk(c, d', l', h)
  {
    var (d', l') := WriteStep(c, d, l, true);
    SealChannel(d, d', l, l');
    SamePending(c, Base(d), l, l', h);
    assert Records(Some(File([], Clean))) == [] && Reaches([], |h.log|, |h.log|);
    assert Lines(d') == Lines(d);
  }

  lemma FinishChannel(d: Disk, l: Live, l': Live)
    requires ChannelOk(d, l) && l.drain.None? && l.queue != [] && l.queue[0].FinishRotation? && Waiting(l, l.queue[0])
    requires l' == l.(queue := l.queue[1..], w := HandleFinishRotation(l.w, l.queue[0].id))
    ensures ChannelOk(d, l') && l.w.mode != Idle
  {
    assert l.queue[0] in l.queue;
    AnsweredTail(l, l');
    assert forall msg :: msg in l'.queue ==> msg in l.queue;
  }

  lemma WriteFinish(c: Config, d: Disk, l: Live, h: History, openOk: bool)
    requires LiveOk(c, d, l, h)
    requires l.drain.None? && l.queue != [] && l.queue[0].FinishRotation? && Waiting(l, l.queue[0])
    ensures var (d', l') := WriteStep(c, d, l, openOk); d' == d && LiveOk(c, d, l', h)
  {
    var (d', l') := WriteStep(c, d, l, openOk);
    FinishChannel(d, l, l');
    SamePending(c, Base(d), l, l', h);
  }

  lemma ReopenChannel(d: Disk, d': Disk, l: Live, l': Live)
    requires ChannelOk(d, l) && l.drain.None? && l.queue != [] && l.queue[0].RotationComplete? && Waiting(l, l.queue[0])
    requires l' == l.(queue := l.queue[1..], w := l'.w, drain := Some(Draining(l.queue[0].id, l.w.hold)))
    requires l'.w == Reopen(l.w, d).0 && d'.snapshot == d.snapshot && d'.tmp == d.tmp
    ensures ChannelOk(d', l') && d.tmp.None? && l.w.mode == Rotating
  {
    assert l.queue[0] in l.queue;
    assert l.progress.AwaitSeal? ==> !Answered(l, l.progress.id);
    AnsweredTail(l, l');
    assert forall msg :: msg in l'.queue ==> msg in l.queue;
  }

  lemma ReopenPending(c: Config, base: nat, l: Live, l': Live, h: History)
    requires ClientsOk(c, base, l, h) && l.drain.None? && l.queue != [] && l.queue[0].RotationComplete?
    requires l' == l.(queue := l.queue[1..], w := l'.w, drain := Some(Draining(l.queue[0].id, l.w.hold)))
    requires l'.w.hold == []
    ensures ClientsOk(c, base, l', h)
  {
    assert forall i :: 0 <= i < |l'.queue| ==> l'.queue[i] == l.queue[i + 1];
    assert forall msg :: msg in l'.queue ==> msg in l.queue;
  }

  lemma WriteReopen(c: Config, d: Disk, l: Live, h: History)
    requires DiskOk(d, h) && LiveOk(c, d, l, h)
    requires l.drain.None? && l.queue != [] && l.queue[0].RotationComplete? && Waiting(l, l.queue[0])
    ensures var (d', l') := WriteStep(c, d, l, true); DiskOk(d', h) && LiveOk(c, d', l', h)
  {
    var (d', l') := WriteStep(c, d, l, true);
    ReopenChannel(d, d', l, l');
    ReopenPending(c, Base(d), l, l', h);
    assert Records(Touch(d.active)) == Records(d.active);
    assert Lines(d') == Lines(d);
  }

  // ---- the held mutations are appended ----

  lemma DrainPending(c: Config, base: nat, l: Live, l': Live, h: History, i: nat)
    requires i == |h.log| + 1
    requires ClientsOk(c, base, l, h) && l.drain.Some? && l.drain.value.rest != []
    requires var dr := l.drain.value;
             && l' == l.(w := l'.w, drain := Some(dr.(rest := dr.rest[1..])),
                         results := l.results[dr.rest[0].id := Written(i)])
             && l'.w.hold == l.w.hold
    requires h.inMem <= Upto(|h.log|) && base <= |h.log|
    requires l.progress.Captured? || l.progress.Stored? ==> l.progress.boundary <= |h.log|
    ensures ClientsOk(c, base, l', Logged(h, l.drain.value.rest[0].op))
  {
    var rest := l.drain.value.rest;
    assert rest[0] in rest;
    assert forall i :: 0 <= i < |rest[1..]| ==> rest[1..][i] == rest[i + 1];
    assert forall m :: m in rest[1..] ==> m in rest;
  }

  /** Only the rest of a drain has changed. */
  lemma DrainChannel(d: Disk, d': Disk, l: Live, l': Live)
    requires ChannelOk(d, l) && l.drain.Some? && l'.drain.Some? && l'.drain.value.id == l.drain.value.id
    requires l'.w.answers == l.w.answers && l'.w.mode == l.w.mode && l'.w.sealBoundary == l.w.sealBoundary
    requires l'.queue == l.queue && l'.nextId == l.nextId && l'.progress == l.progress
    requires d'.snapshot == d.snapshot && (d'.tmp.None? <==> d.tmp.None?)
    ensures ChannelOk(d', l')
  {
    assert forall id: nat :: Answered(l', id) <==> Answered(l, id);
    assert forall msg :: Waiting(l', msg) <==> Waiting(l, msg);
  }

  lemma DrainRecord(c: Config, d: Disk, l: Live, h: History)
    requires LogOk(c, h) && DiskOk(d, h) && LiveOk(c, d, l, h) && l.drain.Some? && l.drain.value.rest != []
    ensures var (d', l') := DrainStep(d, l); var h' := Logged(h, l.drain.value.rest[0].op);
            LogOk(c, h') && DiskOk(d', h') && LiveOk(c, d', l', h')
  {
    var m := l.drain.value.rest[0];
    var (d', l') := DrainStep(d, l);
    assert m in l.drain.value.rest;
    var rec := Rec(|h.log| + 1, m.op);
    LogNext(c, h, m.op);
    FilesNext(d, l.w, |h.log|, m, false, rec);
    GrownLines(d, rec, false);
    PostOne(l.results, m, Written(rec.index));
    DiskNext(d, h, d', rec);
    DrainPending(c, Base(d), l, l', h, rec.index);
    MemNext(d, d', l, l', h, m.op);
    DrainChannel(d, d', l, l');
  }

  lemma DrainEnds(c: Config, d: Disk, l: Live, h: History)
    requires LiveOk(c, d, l, h) && l.drain.Some? && l.drain.value.rest == []
    ensures LiveOk(c, d, l.(w := Conclude(l.w, l.drain.value.id), drain := None), h)
  {
    var l' := l.(w := Conclude(l.w, l.drain.value.id), drain := None);
    assert forall id: nat :: Answered(l', id) <==> Answered(l, id);
    assert forall msg :: Waiting(l', msg) <==> Waiting(l, msg);
    assert ChannelOk(d, l');
  }
}
