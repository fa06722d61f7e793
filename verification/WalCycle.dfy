/** The steps of the clients and of the rotation manager keep the invariant. */
module WalCycle {
  import opened Options
  import opened StoreTypes
  import opened WalTypes
  import opened WalWriterSpec
  import opened WalRecovery
  import opened WalReplay
  import opened WalSystem
  import opened WalInvariant
  import opened WalDisk
  import opened WalSteps

  // ---- clients ----

  /** The channel grows by a message that is no control message. */
  lemma MutationChannel(d: Disk, l: Live, l': Live, m: Mutation)
    requires ChannelOk(d, l) && l'.queue == l.queue + [Mutate(m)] && SameAnswers(l, l')
    requires l'.w == l.w && l'.nextId == l.nextId && l'.progress == l.progress
    ensures ChannelOk(d, l')
  {
    SameWaiting(l, l');
    assert forall msg :: msg in l'.queue && Control(msg) ==> msg in l.queue;
    assert forall i :: 0 <= i < |l'.queue| && Control(l'.queue[i]) ==> i < |l.queue| && l'.queue[i] == l.queue[i];
  }

  lemma SubmitOrder(l: Live, l': Live, m: Mutation)
    requires PendingOk(l) && m.id == l.requests
    requires l'.queue == l.queue + [Mutate(m)] && l'.requests == l.requests + 1 && l'.results == l.results
    requires l'.w == l.w && l'.drain == l.drain
    ensures PendingOk(l')
  {
    assert forall msg :: msg in l'.queue ==> msg in l.queue || msg == Mutate(m);
    assert forall i :: 0 <= i < |l.queue| ==> l'.queue[i] == l.queue[i] && l.queue[i] in l.queue;
  }

  lemma SubmitPending(c: Config, base: nat, l: Live, h: History, op: Op)
    requires ClientsOk(c, base, l, h) && l.client.None? && Fit(c, op)
    ensures var m := Mutation(l.requests, op);
            ClientsOk(c, base, Send(l.(client := Some(m), requests := l.requests + 1), Mutate(m)), h)
  {
    var m := Mutation(l.requests, op);
    var l' := Send(l.(client := Some(m), requests := l.requests + 1), Mutate(m));
    assert forall msg :: msg in l'.queue ==> msg in l.queue || msg == Mutate(m);
    SubmitOrder(l, l', m);
  }

  lemma SubmitStep(c: Config, d: Disk, l: Live, h: History, op: Op)
    requires LiveOk(c, d, l, h) && EnabledLive(c, l, Submit(op))
    ensures LiveOk(c, d, ActLive(c, d, l, Submit(op)).1, h)
  {
    var m := Mutation(l.requests, op);
    SubmitPending(c, Base(d), l, h, op);
    MutationChannel(d, l, ActLive(c, d, l, Submit(op)).1, m);
  }

  /** The channel depends on neither the memory nor the client. */
  lemma QuietChannel(d: Disk, l: Live, l': Live)
    requires ChannelOk(d, l) && SameAnswers(l, l') && l'.w == l.w
    requires l'.queue == l.queue && l'.nextId == l.nextId && l'.progress == l.progress
    ensures ChannelOk(d, l')
  {
    SameWaiting(l, l');
  }

  lemma LeavePending(c: Config, base: nat, l: Live, l': Live, h: History, h': History)
    requires ClientsOk(c, base, l, h) && l' == l.(client := None, mem := l'.mem)
    ensures ClientsOk(c, base, l', h')
  {
  }

  /** The caller learns that its operation is durable and applies it to the memory. */
  lemma DeliverMem(c: Config, d: Disk, l: Live, h: History, now: int)
    requires LogOk(c, h) && MemOk(d, l, h) && ToldOk(Base(d), l, h) && EnabledLive(c, l, Deliver(now))
    requires l.results[l.client.value.id].Written?
    ensures var i := l.results[l.client.value.id].index; var l' := DeliverStep(l, now);
            var h' := h.(acked := h.acked + {i}, inMem := h.inMem + {i});
            MemOk(d, l', h') && LogOk(c, h')
  {
    var m := l.client.value;
    var i := l.results[m.id].index;
    FoldFresh(map[], h.log, h.inMem, 0, |h.log|, c.horizon);
    assert h.log[i - 1] in h.log;
    ApplyIsTimeless(l.mem, m.op, now, c.horizon);
    HoldsMore(l.mem, h.log, h.inMem, i);
  }

  lemma DeliverDisk(d: Disk, l: Live, h: History, i: nat)
    requires DiskOk(d, h) && Base(d) < i
    ensures DiskOk(d, h.(acked := h.acked + {i}, inMem := h.inMem + {i}))
  {
  }

  lemma DeliverKeeps(c: Config, d: Disk, l: Live, h: History, now: int)
    requires LogOk(c, h) && DiskOk(d, h) && LiveOk(c, d, l, h) && EnabledLive(c, l, Deliver(now))
    ensures var o := l.results[l.client.value.id];
            var h' := if o.Written? then h.(acked := h.acked + {o.index}, inMem := h.inMem + {o.index}) else h;
            LogOk(c, h') && DiskOk(d, h') && LiveOk(c, d, DeliverStep(l, now), h')
  {
    var l' := DeliverStep(l, now);
    QuietChannel(d, l, l');
    var o := l.results[l.client.value.id];
    if o.Written? {
      DeliverMem(c, d, l, h, now);
      DeliverDisk(d, l, h, o.index);
      LeavePending(c, Base(d), l, l', h, h.(acked := h.acked + {o.index}, inMem := h.inMem + {o.index}));
    } else {
      LeavePending(c, Base(d), l, l', h, h);
    }
  }

  lemma AbandonStep(c: Config, d: Disk, l: Live, h: History)
    requires LiveOk(c, d, l, h)
    ensures LiveOk(c, d, l.(client := None), h)
  {
    QuietChannel(d, l, l.(client := None));
    LeavePending(c, Base(d), l, l.(client := None), h, h);
  }

  // ---- the manager and the channel ----

  /** What must hold for a control message of this kind to be sent. */
  predicate MaySend(d: Disk, l: Live, p: Progress) {
    match p
    case AwaitSeal(_) => true
    case AwaitFinish(_) => NoneWaiting(l) && l.w.mode != Idle && Base(d) == l.w.sealBoundary
    case AwaitComplete(_) => NoneWaiting(l) && l.w.mode == Rotating && d.tmp.None?
    case _ => false
  }

  /** A control message with the latest ID joins the channel. */
  lemma PushQueue(l: Live, l': Live, m: Message)
    requires QueueOk(l) && Control(m) && l'.queue == l.queue + [m] && SameAnswers(l, l')
    requires m.id == l'.nextId >= l.nextId && (m.StartSealing? || OnlyWaiting(l, m))
    ensures QueueOk(l')
  {
    SameWaiting(l, l');
    var n := |l.queue|;
    assert l'.queue[n] == m && forall i :: 0 <= i < n ==> l'.queue[i] == l.queue[i] && l.queue[i] in l.queue;
    assert forall msg :: msg in l'.queue ==> msg in l.queue || msg == m;
  }

  lemma SendOrders(d: Disk, l: Live, p: Progress)
    requires OrdersOk(d, l) && MaySend(d, l, p) && p.id == FreshId(l)
    ensures OrdersOk(d, SendNew(l, p))
  {
    var l' := SendNew(l, p);
    SameWaiting(l, l');
    assert forall msg :: msg in l'.queue ==> msg in l.queue || msg == Current(p);
  }

  lemma SendProgress(d: Disk, l: Live, p: Progress)
    requires QueueOk(l) && MaySend(d, l, p) && p.id == FreshId(l)
    ensures ProgressOk(d, SendNew(l, p))
  {
    var l' := SendNew(l, p);
    SameWaiting(l, l');
    assert forall msg :: msg in l'.queue ==> msg in l.queue || msg == Current(p);
    assert !Answered(l, p.id);
  }

  /** Control messages and the manager's progress do not touch the clients, except through a snapshot under way. */
  lemma SendPending(c: Config, base: nat, l: Live, l': Live, h: History, msg: Message)
    requires ClientsOk(c, base, l, h) && Control(msg) && l' == l.(queue := l.queue + [msg], nextId := l'.nextId, progress := l'.progress)
    requires !l'.progress.Captured? && !l'.progress.Stored?
    ensures ClientsOk(c, base, l', h)
  {
    assert forall x :: x in l'.queue && x.Mutate? ==> x in l.queue;
    assert forall i :: 0 <= i < |l'.queue| && l'.queue[i].Mutate? ==> i < |l.queue| && l'.queue[i] == l.queue[i];
  }

  lemma SendNewKeeps(c: Config, d: Disk, l: Live, h: History, p: Progress)
    requires LiveOk(c, d, l, h) && MaySend(d, l, p) && p.id == FreshId(l)
    ensures LiveOk(c, d, SendNew(l, p), h)
  {
    PushQueue(l, SendNew(l, p), Current(p));
    SendOrders(d, l, p);
    SendProgress(d, l, p);
    SendPending(c, Base(d), l, SendNew(l, p), h, Current(p));
  }

  predicate Awaiting(l: Live) {
    l.progress.AwaitSeal? || l.progress.AwaitFinish? || l.progress.AwaitComplete?
  }

  /** A repeated message joins the copies of itself. */
  lemma ResendOrders(d: Disk, l: Live)
    requires OrdersOk(d, l) && ProgressOk(d, l) && Awaiting(l)
    ensures OrdersOk(d, Send(l, Current(l.progress))) && ProgressOk(d, Send(l, Current(l.progress)))
  {
    var l' := Send(l, Current(l.progress));
    SameWaiting(l, l');
    assert forall msg :: msg in l'.queue ==> msg in l.queue || msg == Current(l.progress);
  }

  lemma ResendKeeps(c: Config, d: Disk, l: Live, h: History)
    requires LiveOk(c, d, l, h) && Awaiting(l)
    ensures LiveOk(c, d, Send(l, Current(l.progress)), h)
  {
    PushQueue(l, Send(l, Current(l.progress)), Current(l.progress));
    ResendOrders(d, l);
    SendPending(c, Base(d), l, Send(l, Current(l.progress)), h, Current(l.progress));
  }

  // ---- the manager's own steps ----

  /** Once the latest control message has been answered, none is waiting. */
  lemma LatestAnswered(l: Live)
    requires QueueOk(l) && Answered(l, l.nextId)
    ensures NoneWaiting(l)
  {
  }

  lemma AckChannel(d: Disk, l: Live)
    requires ChannelOk(d, l) && Awaiting(l) && l.progress.id in l.w.answers
    ensures ChannelOk(d, AckStep(l))
  {
    LatestAnswered(l);
    SameWaiting(l, AckStep(l));
  }

  /** A change of progress that leaves no snapshot under way. */
  lemma ProgressPending(c: Config, base: nat, base': nat, l: Live, l': Live, h: History)
    requires ClientsOk(c, base, l, h) && l' == l.(progress := l'.progress)
    requires base' == base || ((l.progress.Captured? || l.progress.Stored?) && base' == l.progress.boundary)
    requires l'.progress.Captured? || l'.progress.Stored? ==>
               || l.client.None?
               || ((l.progress.Captured? || l.progress.Stored?) && l'.progress.boundary == l.progress.boundary)
    ensures forall x: History :: x.log == h.log && x.inMem == h.inMem ==> ClientsOk(c, base', l', x)
  {
    forall x: History | x.log == h.log && x.inMem == h.inMem ensures ClientsOk(c, base', l', x) {}
  }

  lemma AckKeeps(c: Config, d: Disk, l: Live, h: History)
    requires LiveOk(c, d, l, h) && Awaiting(l) && l.progress.id in l.w.answers
    ensures LiveOk(c, d, AckStep(l), h)
  {
    AckChannel(d, l);
    ProgressPending(c, Base(d), Base(d), l, AckStep(l), h);
  }

  /** The manager moves on without any message. */
  lemma MoveChannel(d: Disk, d': Disk, l: Live, l': Live)
    requires ChannelOk(d, l) && l' == l.(progress := l'.progress) && ProgressOk(d', l')
    requires d.tmp.None? ==> d'.tmp.None?
    ensures ChannelOk(d', l')
  {
    SameWaiting(l, l');
  }

  lemma CaptureKeeps(c: Config, d: Disk, l: Live, h: History, now: int)
    requires LogOk(c, h) && DiskOk(d, h) && LiveOk(c, d, l, h) && EnabledLive(c, l, Capture(now))
    ensures var h' := h.(inCapture := h.inMem);
            LogOk(c, h') && DiskOk(d, h') && LiveOk(c, d, ActLive(c, d, l, Capture(now)).1, h')
  {
    var l' := ActLive(c, d, l, Capture(now)).1;
    FoldFresh(map[], h.log, h.inMem, 0, |h.log|, c.horizon);
    SnapshotIsWhole(l.mem, now, c.horizon);
    SameWaiting(l, l');
    MoveChannel(d, d, l, l');
    ProgressPending(c, Base(d), Base(d), l, l', h);
  }

  lemma StoreKeeps(c: Config, d: Disk, l: Live, h: History)
    requires DiskOk(d, h) && LiveOk(c, d, l, h) && l.progress.Captured?
    ensures var (d', l') := ActLive(c, d, l, Store); DiskOk(d', h) && LiveOk(c, d', l', h)
  {
    var (d', l') := ActLive(c, d, l, Store);
    SameWaiting(l, l');
    MoveChannel(d, d', l, l');
    ProgressPending(c, Base(d), Base(d), l, l', h);
    assert Lines(d') == Lines(d);
  }

  /** The rename of the new snapshot: its label is the seal boundary, which the log files go beyond. */
  lemma PublishDisk(d: Disk, d': Disk, h: History, snap: SnapshotFile)
    requires DiskOk(d, h) && d' == d.(snapshot := Some(snap), snapshotTmp := None)
    requires Base(d) <= snap.last <= |h.log| && Holds(snap.data, h.log, h.inCapture)
    requires forall i :: i in h.acked && i <= snap.last ==> i in h.inCapture
    ensures DiskOk(d', h.(inSnapshot := h.inCapture))
  {
    assert Lines(d') == Lines(d);
    ReachesFrom(Lines(d), Base(d), snap.last, |h.log|);
  }

  lemma PublishKeeps(c: Config, d: Disk, l: Live, h: History)
    requires LogOk(c, h) && DiskOk(d, h) && LiveOk(c, d, l, h) && l.progress.Stored?
    ensures var (d', l') := ActLive(c, d, l, Publish); var h' := h.(inSnapshot := h.inCapture);
            LogOk(c, h') && DiskOk(d', h') && LiveOk(c, d', l', h')
  {
    var (d', l') := ActLive(c, d, l, Publish);
    PublishDisk(d, d', h, d.snapshotTmp.value);
    SameWaiting(l, l');
    MoveChannel(d, d', l, l');
    ProgressPending(c, Base(d), Base(d'), l, l', h);
  }

  /** The rename of the temporary log: everything it drops is behind the label of the snapshot. */
  lemma RenameDisk(d: Disk, w: WriterState, h: History)
    requires DiskOk(d, h) && FilesOk(d, w, |h.log|) && w.mode == Rotating && Base(d) == w.sealBoundary
    ensures DiskOk(Rotate(d), h) && FilesOk(Rotate(d), w, |h.log|) && Rotate(d).tmp.None?
  {
    if d.tmp.Some? {
      assert Lines(Rotate(d)) == Records(d.tmp);
      assert forall r :: r in Records(d.tmp) ==> r in Lines(d);
    }
  }

  lemma RenameKeeps(c: Config, d: Disk, l: Live, h: History)
    requires DiskOk(d, h) && LiveOk(c, d, l, h) && l.progress.Finished?
    ensures var (d', l') := ActLive(c, d, l, RenameLog); DiskOk(d', h) && LiveOk(c, d', l', h)
  {
    var (d', l') := ActLive(c, d, l, RenameLog);
    RenameDisk(d, l.w, h);
    SameWaiting(l, l');
    MoveChannel(d, d', l, l');
    ProgressPending(c, Base(d), Base(d'), l, l', h);
  }

  lemma GiveUpKeeps(c: Config, d: Disk, l: Live, h: History)
    requires LiveOk(c, d, l, h)
    ensures LiveOk(c, d, l.(progress := Resting), h)
  {
    var l' := l.(progress := Resting);
    MoveChannel(d, d, l, l');
    ProgressPending(c, Base(d), Base(d), l, l', h);
  }
}
