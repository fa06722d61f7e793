/** Crash consistency of the write-ahead log, over every run: any interleaving of clients, writer, manager, crashes and
    recoveries, including crashes inside recovery. */
module WalTheorems {
  import opened Options
  import opened StoreTypes
  import opened WalTypes
  import opened WalWriterSpec
  import opened WalRecovery
  import opened WalReplay
  import opened WalSystem
  import opened WalInvariant
  import opened WalDisk
  import opened WalSteps
  import opened WalCycle
  import opened WalBoot

  /** A control message that is handled for the first time. */
  lemma WriteControl(c: Config, d: Disk, l: Live, h: History, openOk: bool)
    requires DiskOk(d, h) && LiveOk(c, d, l, h) && EnabledLive(c, l, Write(openOk)) && Waiting(l, l.queue[0])
    ensures var (d', l') := WriteStep(c, d, l, openOk); DiskOk(d', h) && LiveOk(c, d', l', h)
  {
    match l.queue[0]
    case FinishRotation(_) => WriteFinish(c, d, l, h, openOk);
    case StartSealing(_) =>
      if openOk || l.w.mode != Idle {
        assert WriteStep(c, d, l, openOk) == WriteStep(c, d, l, true);
        WriteSeal(c, d, l, h);
      } else {
        WriteIgnored(c, d, l, l.(queue := l.queue[1..]), h);
      }
    case RotationComplete(_) =>
      if openOk {
        WriteReopen(c, d, l, h);
      } else {
        WriteIgnored(c, d, l, l.(queue := l.queue[1..]), h);
      }
  }

  lemma WriteMessage(c: Config, d: Disk, l: Live, h: History, openOk: bool)
    requires DiskOk(d, h) && LiveOk(c, d, l, h) && EnabledLive(c, l, Write(openOk)) && NextAppend(c.limits, l).None?
    ensures var (d', l') := WriteStep(c, d, l, openOk); DiskOk(d', h) && LiveOk(c, d', l', h)
  {
    if Waiting(l, l.queue[0]) {
      WriteControl(c, d, l, h, openOk);
    } else if l.queue[0].Mutate? {
      WriteHeld(c, d, l, h, openOk);
    } else {
      WriteIgnored(c, d, l, l.(queue := l.queue[1..]), h);
    }
  }

  /** The invariant of the running process. */
  ghost predicate Running(c: Config, d: Disk, l: Live, h: History) {
    LogOk(c, h) && DiskOk(d, h) && LiveOk(c, d, l, h)
  }

  /** The action leads from there to a running process that keeps the invariant. */
  ghost predicate Safely(c: Config, d: Disk, l: Live, h: History, a: Action)
    requires EnabledLive(c, l, a) && !a.Crash?
  {
    var (d', l') := ActLive(c, d, l, a); Running(c, d', l', Record(c, System(d, Up(l)), h, a))
  }

  lemma SubmitSafely(c: Config, d: Disk, l: Live, h: History, a: Action)
    requires Running(c, d, l, h) && EnabledLive(c, l, a) && a.Submit?
    ensures Safely(c, d, l, h, a)
  {
    SubmitStep(c, d, l, h, a.op);
  }

  lemma DeliverSafely(c: Config, d: Disk, l: Live, h: History, a: Action)
    requires Running(c, d, l, h) && EnabledLive(c, l, a) && a.Deliver?
    ensures Safely(c, d, l, h, a)
  {
    DeliverKeeps(c, d, l, h, a.now);
  }

  lemma AbandonSafely(c: Config, d: Disk, l: Live, h: History, a: Action)
    requires Running(c, d, l, h) && EnabledLive(c, l, a) && a.Abandon?
    ensures Safely(c, d, l, h, a)
  {
    AbandonStep(c, d, l, h);
  }

  lemma WriteSafely(c: Config, d: Disk, l: Live, h: History, a: Action)
    requires Running(c, d, l, h) && EnabledLive(c, l, a) && a.Write?
    ensures Safely(c, d, l, h, a)
  {
    var d', l', h' := WriteResult(c, d, l, h, a);
    if NextAppend(c.limits, l).Some? {
      WriteRecord(c, d, l, h, a.openOk);
    } else {
      WriteMessage(c, d, l, h, a.openOk);
    }
    assert Running(c, d', l', h');
  }

  lemma WriteResult(c: Config, d: Disk, l: Live, h: History, a: Action) returns (d': Disk, l': Live, h': History)
    requires EnabledLive(c, l, a) && a.Write?
    ensures (d', l') == ActLive(c, d, l, a) == WriteStep(c, d, l, a.openOk)
    ensures h' == Record(c, System(d, Up(l)), h, a)
    ensures h' == if NextAppend(c.limits, l).Some? then Logged(h, l.queue[0].m.op) else h
    ensures NextAppend(c.limits, l).Some? ==> l.queue[0].Mutate?
  {
    d', l', h' := ActLive(c, d, l, a).0, ActLive(c, d, l, a).1, Record(c, System(d, Up(l)), h, a);
  }

  lemma DrainSafely(c: Config, d: Disk, l: Live, h: History, a: Action)
    requires Running(c, d, l, h) && EnabledLive(c, l, a) && (a.DrainOne? || a.DrainDone?)
    ensures Safely(c, d, l, h, a)
  {
    if a.DrainOne? { DrainRecord(c, d, l, h); } else { DrainEnds(c, d, l, h); }
  }

  lemma SendSafely(c: Config, d: Disk, l: Live, h: History, a: Action)
    requires Running(c, d, l, h) && EnabledLive(c, l, a) && (a.SendSeal? || a.SendFinish? || a.SendComplete?)
    ensures Safely(c, d, l, h, a)
  {
    match a
    case SendSeal => SendNewKeeps(c, d, l, h, AwaitSeal(FreshId(l)));
    case SendFinish => SendNewKeeps(c, d, l, h, AwaitFinish(FreshId(l)));
    case SendComplete => SendNewKeeps(c, d, l, h, AwaitComplete(FreshId(l)));
  }

  lemma TalkSafely(c: Config, d: Disk, l: Live, h: History, a: Action)
    requires Running(c, d, l, h) && EnabledLive(c, l, a) && (a.Resend? || a.TakeAck? || a.GiveUp?)
    ensures Safely(c, d, l, h, a)
  {
    match a
    case Resend => ResendKeeps(c, d, l, h);
    case TakeAck => AckKeeps(c, d, l, h);
    case GiveUp => GiveUpKeeps(c, d, l, h);
  }

  lemma SnapshotSafely(c: Config, d: Disk, l: Live, h: History, a: Action)
    requires Running(c, d, l, h) && EnabledLive(c, l, a) && (a.Capture? || a.Store?)
    ensures Safely(c, d, l, h, a)
  {
    if a.Capture? { CaptureKeeps(c, d, l, h, a.now); } else { StoreKeeps(c, d, l, h); }
  }

  lemma RenameSafely(c: Config, d: Disk, l: Live, h: History, a: Action)
    requires Running(c, d, l, h) && EnabledLive(c, l, a) && (a.Publish? || a.RenameLog?)
    ensures Safely(c, d, l, h, a)
  {
    if a.Publish? { PublishKeeps(c, d, l, h); } else { RenameKeeps(c, d, l, h); }
  }

  /** Every step of the running process keeps the invariant. */
  lemma ActKeeps(c: Config, d: Disk, l: Live, h: History, a: Action)
    requires Running(c, d, l, h) && EnabledLive(c, l, a) && !a.Crash?
    ensures Safely(c, d, l, h, a)
  {
    match a
    case Submit(_) => SubmitSafely(c, d, l, h, a);
    case Deliver(_) => DeliverSafely(c, d, l, h, a);
    case Abandon => AbandonSafely(c, d, l, h, a);
    case Write(_) => WriteSafely(c, d, l, h, a);
    case DrainOne => DrainSafely(c, d, l, h, a);
    case DrainDone => DrainSafely(c, d, l, h, a);
    case SendSeal => SendSafely(c, d, l, h, a);
    case Resend => TalkSafely(c, d, l, h, a);
    case TakeAck => TalkSafely(c, d, l, h, a);
    case Capture(_) => SnapshotSafely(c, d, l, h, a);
    case Store => SnapshotSafely(c, d, l, h, a);
    case Publish => RenameSafely(c, d, l, h, a);
    case SendFinish => SendSafely(c, d, l, h, a);
    case RenameLog => RenameSafely(c, d, l, h, a);
    case SendComplete => SendSafely(c, d, l, h, a);
    case GiveUp => TalkSafely(c, d, l, h, a);
  }

  lemma StepKeeps(c: Config, s: System, h: History, a: Action)
    requires Inv(c, s, h) && Enabled(c, s, a)
    ensures Inv(c, Step(c, s, a), Record(c, s, h, a))
  {
    match s.process
    case Up(l) =>
      if a.Crash? { CrashKeeps(c, s.disk, l, h, a); } else { ActKeeps(c, s.disk, l, h, a); }
    case Booting(_) =>
      if a.Crash? { SameLines(s.disk, Crashed(c, s.disk, s.process, a), h); } else { BootKeeps(c, s, h, a.now); }
  }

  // ---- runs ----

  datatype World = World(s: System, h: History)

  /** The outcome of a run from an empty disk; `None` if some action was not possible when its turn came. */
  function Exec(c: Config, run: seq<Action>): Option<World>
    decreases |run|
  {
    if run == [] then Some(World(Init(), NoHistory()))
    else
      match Exec(c, run[..|run| - 1])
      case None => None
      case Some(x) =>
        var a := run[|run| - 1];
        if Enabled(c, x.s, a) then Some(World(Step(c, x.s, a), Record(c, x.s, x.h, a))) else None
  }

  lemma {:induction false} RunKeeps(c: Config, run: seq<Action>)
    ensures Exec(c, run).Some? ==> Inv(c, Exec(c, run).value.s, Exec(c, run).value.h)
    decreases |run|
  {
    if run != [] && Exec(c, run).Some? {
      RunKeeps(c, run[..|run| - 1]);
      var x := Exec(c, run[..|run| - 1]).value;
      StepKeeps(c, x.s, x.h, run[|run| - 1]);
    }
  }

  /** The durable log only grows, and nothing that was acknowledged is ever forgotten. */
  lemma {:induction false} HistoryGrows(c: Config, run: seq<Action>, more: seq<Action>)
    requires Exec(c, run + more).Some?
    ensures Exec(c, run).Some?
    ensures Exec(c, run).value.h.log <= Exec(c, run + more).value.h.log
    ensures Exec(c, run).value.h.acked <= Exec(c, run + more).value.h.acked
    decreases |more|
  {
    if more == [] {
      assert run + more == run;
    } else {
      assert (run + more)[..|run + more| - 1] == run + more[..|more| - 1];
      HistoryGrows(c, run, more[..|more| - 1]);
    }
  }

  /** No recovery ever reports a gap or an unknown record. */
  lemma RecoveryNeverFails(c: Config, run: seq<Action>)
    requires Exec(c, run).Some?
    ensures !Exec(c, run).value.s.process.Failed?
  {
    RunKeeps(c, run);
  }

  /** Crash consistency. Cut a run at any point, let it go on in any way, and recover from the disk it leaves: recovery
      succeeds, reports the number of durable operations, and rebuilds the replay of a selection of them that contains
      everything acknowledged before the cut or since. */
  lemma CrashConsistency(c: Config, run: seq<Action>, more: seq<Action>, now: int)
    returns (kept: set<nat>)
    requires Exec(c, run + more).Some? && now <= c.horizon
    ensures Exec(c, run).Some?
    ensures var early, x := Exec(c, run).value.h, Exec(c, run + more).value; var r := Recovered(x.s.disk, now);
            && r.Ok? && r.last == |x.h.log|
            && early.acked <= x.h.acked <= kept <= Upto(|x.h.log|)
            && early.log <= x.h.log
            && r.data == Fold(map[], x.h.log, kept, 0, |x.h.log|)
  {
    HistoryGrows(c, run, more);
    RunKeeps(c, run + more);
    var x := Exec(c, run + more).value;
    RecoverySucceeds(c, x.s.disk, x.h, now);
    kept := RecoveredKeys(x.s.disk, x.h);
  }

  /** An interrupted recovery rebuilds what the uninterrupted one would: once the steps of recovery have been gone
      through, however often they were begun, index and contents are those read off the disk. */
  lemma InterruptedRecovery(c: Config, run: seq<Action>, now: int)
    requires Exec(c, run).Some? && now <= c.horizon
    requires var p := Exec(c, run).value.s.process; p.Booting? && p.stage.Ready?
    ensures var x := Exec(c, run).value; Recovered(x.s.disk, now) == Ok(x.s.process.stage.last, x.s.process.stage.data)
  {
    RunKeeps(c, run);
    var x := Exec(c, run).value;
    RecoverySucceeds(c, x.s.disk, x.h, now);
  }

  /** While the process runs, its memory is the replay of durable operations, all acknowledged ones among them. */
  lemma MemoryIsDurable(c: Config, run: seq<Action>)
    requires Exec(c, run).Some? && Exec(c, run).value.s.process.Up?
    ensures var x := Exec(c, run).value; var l := x.s.process.live;
            && x.h.acked <= x.h.inMem <= Upto(|x.h.log|) && l.w.lastIndex == |x.h.log|
            && l.mem == Fold(map[], x.h.log, x.h.inMem, 0, |x.h.log|)
  {
    RunKeeps(c, run);
  }
}
