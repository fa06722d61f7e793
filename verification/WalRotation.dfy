/** Rotation always gets done: from every reachable state, also in the middle of a recovery or of an abandoned rotation, the
    process can go on without a crash until nothing waits, both logs are empty and the snapshot on disk holds everything. */
module WalRotation {
  import opened Options
  import opened StoreTypes
  import opened WalTypes
  import opened WalWriterSpec
  import opened WalRecovery
  import opened WalReplay
  import opened WalSystem
  import opened WalInvariant
  import opened WalTheorems

  /** The run leads to this state of a process that is up. */
  predicate Runs(c: Config, run: seq<Action>, d: Disk, l: Live) {
    Exec(c, run).Some? && Exec(c, run).value.s == System(d, Up(l))
  }

  /** More actions, none of them a crash. */
  predicate Grows(run: seq<Action>, run': seq<Action>) {
    run <= run' && forall i :: |run| <= i < |run'| ==> !run'[i].Crash?
  }

  lemma GrowsOn(a: seq<Action>, b: seq<Action>, d: seq<Action>)
    requires Grows(a, b) && Grows(b, d)
    ensures Grows(a, d)
  {
  }

  lemma GrowsBy(run: seq<Action>, a: Action)
    requires !a.Crash?
    ensures Grows(run, run + [a]) && (run + [a])[..|run|] == run
  {
  }

  lemma Act(c: Config, run: seq<Action>, d: Disk, l: Live, a: Action) returns (run': seq<Action>, d': Disk, l': Live)
    requires Runs(c, run, d, l) && EnabledLive(c, l, a) && !a.Crash?
    ensures Grows(run, run') && Runs(c, run', d', l') && (d', l') == ActLive(c, d, l, a)
  {
    run' := run + [a];
    GrowsBy(run, a);
    d', l' := ActLive(c, d, l, a).0, ActLive(c, d, l, a).1;
  }

  // ---- coming to rest ----

  /** The channel is empty and the writer is not in the middle of anything. */
  predicate Still(l: Live) {
    l.queue == [] && l.drain.None?
  }

  lemma {:induction false} DrainAll(c: Config, run: seq<Action>, d: Disk, l: Live)
    returns (run': seq<Action>, d': Disk, l': Live)
    requires Runs(c, run, d, l) && l.drain.Some?
    ensures Grows(run, run') && Runs(c, run', d', l')
    ensures l'.drain.None? && l'.queue == l.queue && l'.progress == l.progress && l'.client == l.client && l'.mem == l.mem
    ensures l'.w.mode == l.w.mode && l'.w.hold == l.w.hold && l.drain.value.id in l'.w.answers
    ensures d'.snapshot == d.snapshot && d'.tmp == d.tmp
    ensures l.drain.value.rest == [] ==> d' == d && l'.w == Conclude(l.w, l.drain.value.id)
    decreases |l.drain.value.rest|
  {
    if l.drain.value.rest == [] {
      run', d', l' := Act(c, run, d, l, DrainDone);
    } else {
      var run1, d1, l1 := Act(c, run, d, l, DrainOne);
      run', d', l' := DrainAll(c, run1, d1, l1);
      GrowsOn(run, run1, run');
    }
  }

  lemma {:induction false} Quiesce(c: Config, run: seq<Action>, d: Disk, l: Live)
    returns (run': seq<Action>, d': Disk, l': Live)
    requires Runs(c, run, d, l)
    ensures Grows(run, run') && Runs(c, run', d', l') && Still(l')
    decreases |l.queue|, l.drain.Some?
  {
    if l.drain.Some? {
      var run1, d1, l1 := DrainAll(c, run, d, l);
      run', d', l' := Quiesce(c, run1, d1, l1);
      GrowsOn(run, run1, run');
    } else if l.queue != [] {
      var run1, d1, l1 := Act(c, run, d, l, Write(true));
      run', d', l' := Quiesce(c, run1, d1, l1);
      GrowsOn(run, run1, run');
    } else {
      run', d', l' := run, d, l;
    }
  }

  /** Nothing is under way, not even a client. */
  predicate AtRest(l: Live) {
    Still(l) && l.progress.Resting? && l.client.None?
  }

  lemma ComeToRest(c: Config, run: seq<Action>, d: Disk, l: Live) returns (run': seq<Action>, d': Disk, l': Live)
    requires Runs(c, run, d, l)
    ensures Grows(run, run') && Runs(c, run', d', l') && AtRest(l')
  {
    var run1, d1, l1 := Quiesce(c, run, d, l);
    var run2, d2, l2 := Act(c, run1, d1, l1, GiveUp);
    GrowsOn(run, run1, run2);
    run', d', l' := run2, d2, l2;
    if l2.client.Some? {
      run', d', l' := Act(c, run2, d2, l2, Abandon);
      GrowsOn(run, run2, run');
    }
  }

  // ---- one rotation ----

  /** The next control ID is new to the writer. */
  lemma NewId(c: Config, run: seq<Action>, d: Disk, l: Live)
    requires Runs(c, run, d, l)
    ensures FreshId(l) !in l.w.answers && (l.w.mode == Idle ==> d.tmp.None?)
  {
    RunKeeps(c, run);
    if FreshId(l) in l.w.answers { assert Answered(l, FreshId(l)); }
  }

  /** A control message is sent, handled, and answered. */
  lemma SealRound(c: Config, run: seq<Action>, d: Disk, l: Live) returns (run': seq<Action>, d': Disk, l': Live)
    requires Runs(c, run, d, l) && AtRest(l)
    ensures Grows(run, run') && Runs(c, run', d', l') && Still(l') && l'.client.None? && l'.mem == l.mem
    ensures l'.progress == Sealed(l'.w.sealBoundary) && l'.w.hold == l.w.hold && l'.w.lastIndex == l.w.lastIndex
    ensures l.w.mode == Idle ==> l'.w.sealBoundary == l.w.lastIndex && d' == d.(tmp := Some(File([], Clean)))
  {
    NewId(c, run, d, l);
    var run1, d1, l1 := Act(c, run, d, l, SendSeal);
    var run2, d2, l2 := Act(c, run1, d1, l1, Write(true));
    run', d', l' := Act(c, run2, d2, l2, TakeAck);
    GrowsOn(run, run1, run2);
    GrowsOn(run, run2, run');
  }

  lemma SnapshotRound(c: Config, run: seq<Action>, d: Disk, l: Live, now: int)
    returns (run': seq<Action>, d': Disk, l': Live)
    requires Runs(c, run, d, l) && l.progress.Sealed? && l.client.None? && now <= c.horizon
    ensures Grows(run, run') && Runs(c, run', d', l') && l' == l.(progress := Published)
    ensures d' == d.(snapshot := Some(SnapshotFile(l.progress.boundary, Snapshot(l.mem, now))), snapshotTmp := None)
  {
    var run1, d1, l1 := Act(c, run, d, l, Capture(now));
    var run2, d2, l2 := Act(c, run1, d1, l1, Store);
    run', d', l' := Act(c, run2, d2, l2, Publish);
    GrowsOn(run, run1, run2);
    GrowsOn(run, run2, run');
  }

  lemma FinishRound(c: Config, run: seq<Action>, d: Disk, l: Live) returns (run': seq<Action>, d': Disk, l': Live)
    requires Runs(c, run, d, l) && Still(l) && l.progress.Published? && l.client.None?
    ensures Grows(run, run') && Runs(c, run', d', l') && Still(l') && l'.progress.Finished? && l'.client.None?
    ensures d' == d && l'.mem == l.mem && l'.w.hold == l.w.hold && l'.w.lastIndex == l.w.lastIndex && l'.w.mode == Rotating
  {
    NewId(c, run, d, l);
    var run1, d1, l1 := Act(c, run, d, l, SendFinish);
    var run2, d2, l2 := Act(c, run1, d1, l1, Write(true));
    run', d', l' := Act(c, run2, d2, l2, TakeAck);
    GrowsOn(run, run1, run2);
    GrowsOn(run, run2, run');
  }

  lemma RenameRound(c: Config, run: seq<Action>, d: Disk, l: Live) returns (run': seq<Action>, d': Disk, l': Live)
    requires Runs(c, run, d, l) && l.progress.Finished?
    ensures Grows(run, run') && Runs(c, run', d', l') && d' == Rotate(d) && l' == l.(progress := Renamed)
  {
    run', d', l' := Act(c, run, d, l, RenameLog);
  }

  lemma CompleteRound(c: Config, run: seq<Action>, d: Disk, l: Live) returns (run': seq<Action>, d': Disk, l': Live)
    requires Runs(c, run, d, l) && Still(l) && l.progress.Renamed? && l.client.None?
    ensures Grows(run, run') && Runs(c, run', d', l') && AtRest(l') && l'.mem == l.mem
    ensures l'.w.mode == Idle && l'.w.hold == [] && d'.snapshot == d.snapshot && d'.tmp == d.tmp
    ensures l.w.hold == [] ==> d'.active == Touch(d.active) && l'.w.lastIndex == l.w.lastIndex
  {
    NewId(c, run, d, l);
    var run1, d1, l1 := Act(c, run, d, l, SendComplete);
    var run2, d2, l2 := Act(c, run1, d1, l1, Write(true));
    var run3, d3, l3 := DrainAll(c, run2, d2, l2);
    run', d', l' := Act(c, run3, d3, l3, TakeAck);
    GrowsOn(run, run1, run2);
    GrowsOn(run, run2, run3);
    GrowsOn(run, run3, run');
  }

  /** A whole rotation. If it starts idle with nothing held, the snapshot has taken over everything and the logs are empty. */
  lemma Rotation(c: Config, run: seq<Action>, d: Disk, l: Live, now: int) returns (run': seq<Action>, d': Disk, l': Live)
    requires Runs(c, run, d, l) && AtRest(l) && now <= c.horizon
    ensures Grows(run, run') && Runs(c, run', d', l') && AtRest(l') && l'.w.mode == Idle && l'.w.hold == []
    ensures l.w.mode == Idle && l.w.hold == [] ==> l'.mem == l.mem && Emptied(d', l')
  {
    WholeMemory(c, run, d, l, now);
    var run1, d1, l1 := SealRound(c, run, d, l);
    var run2, d2, l2 := SnapshotRound(c, run1, d1, l1, now);
    var run3, d3, l3 := FinishRound(c, run2, d2, l2);
    var run4, d4, l4 := RenameRound(c, run3, d3, l3);
    run', d', l' := CompleteRound(c, run4, d4, l4);
    GrowsOn(run, run1, run2);
    GrowsOn(run, run2, run3);
    GrowsOn(run, run3, run4);
    GrowsOn(run, run4, run');
  }

  /** Both logs are empty and the snapshot stands for everything up to the last index. */
  predicate Emptied(d: Disk, l: Live) {
    d.tmp.None? && d.active == Some(File([], Clean)) && d.snapshot == Some(SnapshotFile(l.w.lastIndex, l.mem))
  }

  /** Nothing in memory expires before the horizon, so a snapshot is the whole of it. */
  lemma WholeMemory(c: Config, run: seq<Action>, d: Disk, l: Live, now: int)
    requires Runs(c, run, d, l) && now <= c.horizon
    ensures Snapshot(l.mem, now) == l.mem
  {
    RunKeeps(c, run);
    var h := Exec(c, run).value.h;
    FoldFresh(map[], h.log, h.inMem, 0, |h.log|, c.horizon);
    SnapshotIsWhole(l.mem, now, c.horizon);
  }

  // ---- starting up ----

  function Rank(st: Stage): nat {
    match st
    case Cleaning => 7
    case Loading => 6
    case ReplayingActive(_, _) => 5
    case ReplayingTmp(_, _) => 4
    case Rebuilding(_, _) => 3
    case Swapping(_, _) => 2
    case Dropping(_, _) => 1
    case Ready(_, _) => 0
  }

  lemma {:induction false} StartUp(c: Config, run: seq<Action>, now: int) returns (run': seq<Action>, d': Disk, l': Live)
    requires Exec(c, run).Some? && now <= c.horizon
    ensures Grows(run, run') && Runs(c, run', d', l')
    decreases Left(Exec(c, run).value.s.process)
  {
    var s := Exec(c, run).value.s;
    if s.process.Up? {
      run', d', l' := run, s.disk, s.process.live;
    } else {
      var run1 := BootOnce(c, run, now);
      run', d', l' := StartUp(c, run1, now);
      GrowsOn(run, run1, run');
    }
  }

  /** Steps of recovery that are left. */
  function Left(p: Process): nat {
    if p.Booting? then Rank(p.stage) + 1 else 0
  }

  lemma BootLeft(s: System, now: int)
    requires s.process.Booting?
    ensures Left(BootStep(s, now).process) < Left(s.process)
  {
  }

  lemma BootOnce(c: Config, run: seq<Action>, now: int) returns (run': seq<Action>)
    requires Exec(c, run).Some? && now <= c.horizon && !Exec(c, run).value.s.process.Up?
    ensures Grows(run, run') && Exec(c, run').Some?
    ensures Left(Exec(c, run').value.s.process) < Left(Exec(c, run).value.s.process)
  {
    RecoveryNeverFails(c, run);
    run' := run + [Boot(now)];
    GrowsBy(run, Boot(now));
    BootLeft(Exec(c, run).value.s, now);
  }

  // ---- the theorem ----

  /** From every reachable state the process can, without a crash, come to a point where it is up, nothing waits, both logs
      are empty, and the snapshot on disk is the whole memory, labelled with the last index. */
  lemma RotationCanComplete(c: Config, run: seq<Action>, now: int) returns (run': seq<Action>, d: Disk, l: Live)
    requires Exec(c, run).Some? && now <= c.horizon
    ensures Grows(run, run') && Runs(c, run', d, l) && AtRest(l) && l.w.mode == Idle && l.w.hold == []
    ensures Emptied(d, l) && Recovered(d, now) == Ok(l.w.lastIndex, l.mem)
  {
    var run1, d1, l1 := StartUp(c, run, now);
    var run2, d2, l2 := ComeToRest(c, run1, d1, l1);
    var run3, d3, l3 := Rotation(c, run2, d2, l2, now);
    run', d, l := Rotation(c, run3, d3, l3, now);
    GrowsOn(run, run1, run2);
    GrowsOn(run, run2, run3);
    GrowsOn(run, run3, run');
  }
}
