/** The durable history behind a run, and the invariant that ties disk, writer, manager and memory to it.
    `log[i - 1]` is the operation that was made durable under index `i`. */
module WalInvariant {
  import opened Options
  import opened StoreTypes
  import opened WalTypes
  import opened WalWriterSpec
  import opened WalRecovery
  import opened WalReplay
  import opened WalSystem

  /** `acked` are the indexes whose callers saw success. The other sets say which operations the memory, the snapshot
      on disk and the snapshot under way hold. */
  datatype History = History(log: seq<Op>, acked: set<nat>, inMem: set<nat>, inSnapshot: set<nat>, inCapture: set<nat>)

  function NoHistory(): History {
    History([], {}, {}, {}, {})
  }

  function Base(d: Disk): nat {
    Start(d).last
  }

  function Logged(h: History, op: Op): History {
    h.(log := h.log + [op])
  }

  function RecoveredKeys(d: Disk, h: History): (r: set<nat>)
    ensures forall i :: i in r <==> (i in h.inSnapshot && i <= Base(d)) || (Base(d) < i <= |h.log|)
  {
    (set i | i in h.inSnapshot && i <= Base(d)) + (set i | i in Upto(|h.log|) && Base(d) < i)
  }

  /** The history after an action. */
  function Record(c: Config, s: System, h: History, a: Action): History
    requires Enabled(c, s, a)
  {
    match s.process
    case Failed(_) => h
    case Booting(st) => if a.Boot? && st.Ready? then h.(inMem := RecoveredKeys(s.disk, h)) else h
    case Up(l) =>
      match a
      case Write(_) =>
        if NextAppend(c.limits, l).Some? then Logged(h, NextAppend(c.limits, l).value.0.op) else h
      case DrainOne => Logged(h, l.drain.value.rest[0].op)
      case Crash(line, _, _) => if line.UnframedLine? then Logged(h, NextAppend(c.limits, l).value.0.op) else h
      case Deliver(_) =>
        var o := l.results[l.client.value.id];
        if o.Written? then h.(acked := h.acked + {o.index}, inMem := h.inMem + {o.index}) else h
      case Capture(_) => h.(inCapture := h.inMem)
      case Publish => h.(inSnapshot := h.inCapture)
      case _ => h
  }

  // ---- the disk ----

  predicate Matches(recs: seq<Rec>, log: seq<Op>) {
    forall r :: r in recs ==> 1 <= r.index <= |log| && r.op == log[r.index - 1]
  }

  /** Replay from index `last` meets no gap and ends at index `to`. */
  predicate Reaches(recs: seq<Rec>, last: nat, to: nat)
    decreases |recs|
  {
    if recs == [] then last == to
    else recs[0].index <= last + 1 && Reaches(recs[1..], if recs[0].index == last + 1 then last + 1 else last, to)
  }

  function Lines(d: Disk): seq<Rec> {
    Records(d.active) + Records(d.tmp)
  }

  /** The contents are those of a replay of the chosen part of the history. */
  ghost predicate Holds(data: Data, log: seq<Op>, keep: set<nat>) {
    keep <= Upto(|log|) && data == Fold(map[], log, keep, 0, |log|)
  }

  ghost predicate LogOk(c: Config, h: History) {
    && AllLasting(h.log, c.horizon) && (forall op :: op in h.log ==> !op.Membership?)
    && h.acked <= Upto(|h.log|)
  }

  /** From the disk alone, recovery finds every durable operation that the snapshot does not stand for. */
  ghost predicate DiskOk(d: Disk, h: History) {
    && Base(d) <= |h.log|
    && Matches(Lines(d), h.log) && Reaches(Lines(d), Base(d), |h.log|)
    && Holds(Start(d).data, h.log, h.inSnapshot)
    && (forall i :: i in h.acked && i <= Base(d) ==> i in h.inSnapshot)
  }

  predicate AllClean(d: Disk) {
    (d.active.Some? ==> d.active.value.tail.Clean?) && (d.tmp.Some? ==> d.tmp.value.tail.Clean?)
  }

  /** The writer and its files. */
  predicate FilesOk(d: Disk, w: WriterState, n: nat) {
    && AllClean(d) && w.lastIndex == n
    && (w.mode == Idle ==> w.activeOpen && d.tmp.None?)
    && (w.mode == Sealing ==> w.tmpOpen && d.tmp.Some?)
    && (w.mode != Idle ==> Base(d) <= w.sealBoundary <= n)
    && (w.mode != Idle && d.tmp.Some? ==> Reaches(Records(d.tmp), w.sealBoundary, n))
  }

  // ---- the channel and the manager ----

  predicate Control(msg: Message) {
    !msg.Mutate?
  }

  /** A control message that the writer has not begun to handle. */
  predicate Waiting(l: Live, msg: Message) {
    Control(msg) && !Answered(l, msg.id)
  }

  predicate NoneWaiting(l: Live) {
    forall msg :: msg in l.queue ==> !Waiting(l, msg)
  }

  predicate OnlyWaiting(l: Live, m: Message) {
    forall msg :: msg in l.queue && Waiting(l, msg) ==> msg == m
  }

  /** Two messages in the channel, `x` before `y`: the IDs do not fall, and behind an unhandled control message there
      can only be copies of it and requests to seal. */
  predicate InOrder(l: Live, x: Message, y: Message) {
    Control(x) && Control(y) ==> x.id <= y.id && (Waiting(l, x) && Waiting(l, y) ==> y.StartSealing? || x == y)
  }

  /** Every ID that has been answered is older than every one that waits. */
  ghost predicate QueueOk(l: Live) {
    && (forall i, j :: 0 <= i < j < |l.queue| ==> InOrder(l, l.queue[i], l.queue[j]))
    && (forall msg :: msg in l.queue && Control(msg) ==> msg.id <= l.nextId)
    && (forall id: nat :: Answered(l, id) ==> id <= l.nextId)
    && (forall id: nat, msg :: Answered(l, id) && msg in l.queue && Waiting(l, msg) ==> id < msg.id)
  }

  /** An unhandled FinishRotation or RotationComplete still finds the writer in the state it was sent for. */
  predicate OrdersOk(d: Disk, l: Live) {
    && (forall msg :: msg in l.queue && Waiting(l, msg) && msg.FinishRotation? ==> l.w.mode != Idle)
    && (forall msg :: msg in l.queue && Waiting(l, msg) && msg.RotationComplete? ==> l.w.mode == Rotating && d.tmp.None?)
    && (l.drain.Some? ==> l.w.mode == Idle && l.drain.value.id !in l.w.answers)
  }

  predicate ProgressOk(d: Disk, l: Live) {
    match l.progress
    case Resting => true
    case AwaitSeal(id) =>
      && id == l.nextId
      && (forall msg :: msg in l.queue && Control(msg) && msg.id == id ==> msg.StartSealing?)
      && (l.drain.Some? ==> l.drain.value.id != id)
      && (id in l.w.answers ==> l.w.mode != Idle && l.w.answers[id].boundary == l.w.sealBoundary)
    case Sealed(b) => NoneWaiting(l) && l.w.mode != Idle && b == l.w.sealBoundary
    case Captured(b, _) => NoneWaiting(l) && l.w.mode != Idle && b == l.w.sealBoundary
    case Stored(b) => NoneWaiting(l) && l.w.mode != Idle && b == l.w.sealBoundary
    case Published => NoneWaiting(l) && l.w.mode != Idle && Base(d) == l.w.sealBoundary
    case AwaitFinish(id) =>
      && id == l.nextId && OnlyWaiting(l, FinishRotation(id)) && Base(d) == l.w.sealBoundary
      && l.w.mode != Idle && (id in l.w.answers ==> l.w.mode == Rotating)
    case Finished => NoneWaiting(l) && l.w.mode == Rotating && Base(d) == l.w.sealBoundary
    case Renamed => NoneWaiting(l) && l.w.mode == Rotating && d.tmp.None?
    case AwaitComplete(id) => id == l.nextId && OnlyWaiting(l, RotationComplete(id))
                              && (!Answered(l, id) ==> l.w.mode == Rotating && d.tmp.None?)
  }

  // ---- the memory and its client ----

  /** A mutation that has not been answered is in exactly one place, and they are in the order of their requests. */
  predicate PendingOk(l: Live) {
    && (forall i, j :: 0 <= i < j < |l.queue| && l.queue[i].Mutate? && l.queue[j].Mutate?
          ==> l.queue[i].m.id < l.queue[j].m.id)
    && (forall msg :: msg in l.queue && msg.Mutate? ==> msg.m.id < l.requests && msg.m.id !in l.results)
    && Ordered(l.w.hold, l)
    && (l.drain.Some? ==> Ordered(l.drain.value.rest, l) && l.w.hold == [])
    && (forall id :: id in l.results ==> id < l.requests)
  }

  predicate Ordered(ms: seq<Mutation>, l: Live) {
    && (forall i, j :: 0 <= i < j < |ms| ==> ms[i].id < ms[j].id)
    && (forall m :: m in ms ==> m.id < l.requests && m.id !in l.results)
    && (forall m, msg :: m in ms && msg in l.queue && msg.Mutate? ==> m.id < msg.m.id)
  }

  /** The last request is the client's, wherever it is. */
  predicate ClientOk(l: Live) {
    l.client.Some? ==>
      && l.client.value.id < l.requests
      && (forall msg :: msg in l.queue && msg.Mutate? && msg.m.id == l.client.value.id ==> msg.m == l.client.value)
      && (forall m :: m in l.w.hold && m.id == l.client.value.id ==> m == l.client.value)
      && (l.drain.Some? ==> forall m :: m in l.drain.value.rest && m.id == l.client.value.id ==> m == l.client.value)
  }

  /** What the client is told is durable is the latest operation, not yet in memory and not behind the boundary of the
      snapshot on disk or of the one under way. */
  predicate ToldOk(base: nat, l: Live, h: History) {
    l.client.Some? && l.client.value.id in l.results && l.results[l.client.value.id].Written? ==>
      var i := l.results[l.client.value.id].index;
      && 1 <= i <= |h.log| && h.log[i - 1] == l.client.value.op && base < i
      && (forall j :: j in h.inMem ==> j < i)
      && (l.progress.Captured? || l.progress.Stored? ==> i > l.progress.boundary)
  }

  ghost predicate MemOk(d: Disk, l: Live, h: History) {
    && Holds(l.mem, h.log, h.inMem) && h.acked <= h.inMem
    && (l.progress.Captured? ==> Holds(l.progress.data, h.log, h.inCapture))
    && (l.progress.Stored? ==> d.snapshotTmp.Some? && d.snapshotTmp.value.last == l.progress.boundary
                               && Holds(d.snapshotTmp.value.data, h.log, h.inCapture))
    && (l.progress.Captured? || l.progress.Stored? ==>
          forall i :: i in h.acked && i <= l.progress.boundary ==> i in h.inCapture)
  }

  /** Only operations that recovery knows and whose expiry lies beyond the horizon are on their way. */
  predicate Fit(c: Config, op: Op) {
    Lasting(op, c.horizon) && !op.Membership?
  }

  predicate FitOk(c: Config, l: Live) {
    && (forall msg :: msg in l.queue && msg.Mutate? ==> Fit(c, msg.m.op))
    && (forall m :: m in l.w.hold ==> Fit(c, m.op))
    && (l.drain.Some? ==> forall m :: m in l.drain.value.rest ==> Fit(c, m.op))
  }

  ghost predicate ChannelOk(d: Disk, l: Live) {
    QueueOk(l) && OrdersOk(d, l) && ProgressOk(d, l)
  }

  ghost predicate ClientsOk(c: Config, base: nat, l: Live, h: History) {
    PendingOk(l) && ClientOk(l) && ToldOk(base, l, h) && FitOk(c, l)
  }

  ghost predicate LiveOk(c: Config, d: Disk, l: Live, h: History) {
    FilesOk(d, l.w, |h.log|) && ChannelOk(d, l) && ClientsOk(c, Base(d), l, h) && MemOk(d, l, h)
  }

  // ---- recovery ----

  /** Everything after the snapshot has been replayed up to `last`. */
  ghost predicate Replayed(d: Disk, h: History, last: nat, data: Data) {
    Base(d) <= last <= |h.log| && data == Fold(Start(d).data, h.log, Upto(|h.log|), Base(d), last)
  }

  ghost predicate StageOk(d: Disk, st: Stage, h: History) {
    match st
    case Cleaning => true
    case Loading => true
    case ReplayingActive(last, data) => last == Base(d) && data == Start(d).data
    case ReplayingTmp(last, data) =>
      && (d.active.Some? ==> d.active.value.tail.Clean?)
      && Replayed(d, h, last, data) && Reaches(Records(d.tmp), last, |h.log|)
    case Rebuilding(last, data) => AllClean(d) && d.tmp.Some? && last == |h.log| && Replayed(d, h, last, data)
    case Swapping(last, data) =>
      && AllClean(d) && d.tmp.Some? && last == |h.log| && Replayed(d, h, last, data)
      && d.rebuild == Some(File(Lines(d), Clean))
    case Dropping(last, data) =>
      && AllClean(d) && last == |h.log| && Replayed(d, h, last, data)
      && d.active.Some? && Reaches(Records(d.active), Base(d), |h.log|)
    case Ready(last, data) => AllClean(d) && d.tmp.None? && last == |h.log| && Replayed(d, h, last, data)
  }

  ghost predicate Inv(c: Config, s: System, h: History) {
    && LogOk(c, h) && DiskOk(s.disk, h)
    && match s.process
       case Up(l) => LiveOk(c, s.disk, l, h)
       case Booting(st) => StageOk(s.disk, st, h)
       case Failed(_) => false
  }
}
