/** Arrival order over whole runs of the process, through rotations, renames, crashes and recoveries: index `i` on disk
    belongs to the `i`-th mutation that was accepted and not lost in a crash before it was written. */
module WalArrivals {
  import opened Options
  import opened StoreTypes
  import opened WalTypes
  import opened WalWriterSpec
  import opened WalRecovery
  import opened WalSystem
  import opened WalInvariant
  import opened WalOrder
  import opened WalTheorems

  function OpsOf(ms: seq<Mutation>): (ops: seq<Op>)
    ensures |ops| == |ms| && forall i :: 0 <= i < |ms| ==> ops[i] == ms[i].op
  {
    seq(|ms|, i requires 0 <= i < |ms| => ms[i].op)
  }

  /** The accepted mutations that are not written yet, oldest first. */
  function Held(p: Process): seq<Mutation> {
    if !p.Up? then [] else if p.live.drain.Some? then p.live.drain.value.rest else p.live.w.hold
  }

  predicate Refused(c: Config, d: Disk, l: Live)
    requires l.queue != [] && l.queue[0].Mutate?
  {
    HandleMutation(c.limits, l.w, d, l.queue[0].m).2 == [(l.queue[0].m, Busy)]
  }

  function DropLast(s: seq<Op>, n: nat): seq<Op> {
    if n <= |s| then s[..|s| - n] else []
  }

  /** What an action does to the sequence of accepted operations: a mutation that the writer takes off the channel and
      does not refuse is added; a crash takes away those held, but keeps a whole line that it cut short. */
  function Arrive(c: Config, s: System, a: Action, before: seq<Op>): seq<Op>
    requires Enabled(c, s, a)
  {
    if !s.process.Up? then before
    else
      var l := s.process.live;
      match a
      case Write(_) =>
        if l.queue[0].Mutate? && !Refused(c, s.disk, l) then before + [l.queue[0].m.op] else before
      case Crash(line, _, _) =>
        DropLast(before, |Held(s.process)|)
        + (if line.UnframedLine? then [NextAppend(c.limits, l).value.0.op] else [])
      case _ => before
  }

  function Arrivals(c: Config, run: seq<Action>): seq<Op>
    requires Exec(c, run).Some?
    decreases |run|
  {
    if run == [] then []
    else
      var before := run[..|run| - 1];
      Arrive(c, Exec(c, before).value.s, run[|run| - 1], Arrivals(c, before))
  }

  /** The writer is steady also while it drains. */
  predicate InOrderNow(c: Config, s: System, h: History, arrived: seq<Op>) {
    && (s.process.Up? ==> Steady(c.limits, s.process.live.w)
                          && (s.process.live.drain.Some? ==> s.process.live.w.mode == Idle))
    && arrived == h.log + OpsOf(Held(s.process))
  }

  lemma OpsConcat(a: seq<Mutation>, b: seq<Mutation>)
    ensures OpsOf(a + b) == OpsOf(a) + OpsOf(b)
  {
  }

  /** A mutation reaches the writer. */
  lemma MutateInOrder(c: Config, d: Disk, l: Live, h: History, openOk: bool, arrived: seq<Op>)
    requires InOrderNow(c, System(d, Up(l)), h, arrived) && EnabledLive(c, l, Write(openOk)) && l.queue[0].Mutate?
    ensures var (d', l') := WriteStep(c, d, l, openOk); var s := System(d, Up(l));
            InOrderNow(c, System(d', Up(l')), Record(c, s, h, Write(openOk)), Arrive(c, s, Write(openOk), arrived))
  {
    HandleKeeps(c.limits, l.w, d, l.queue[0], openOk);
    if NextAppend(c.limits, l).Some? {
      NoneHeld(h.log, l.queue[0].m.op);
    } else {
      OneHeld(h.log, l.w.hold, l.queue[0].m);
    }
  }

  lemma NoneHeld(log: seq<Op>, op: Op)
    ensures log + OpsOf([]) + [op] == log + [op] + OpsOf([])
  {
  }

  lemma OneHeld(log: seq<Op>, ms: seq<Mutation>, m: Mutation)
    ensures log + OpsOf(ms) + [m.op] == log + OpsOf(ms + [m])
  {
    OpsConcat(ms, [m]);
  }

  /** A control message reaches the writer. */
  lemma ControlInOrder(c: Config, d: Disk, l: Live, h: History, openOk: bool, arrived: seq<Op>)
    requires InOrderNow(c, System(d, Up(l)), h, arrived) && EnabledLive(c, l, Write(openOk)) && !l.queue[0].Mutate?
    ensures var (d', l') := WriteStep(c, d, l, openOk); InOrderNow(c, System(d', Up(l')), h, arrived)
  {
    if !l.queue[0].RotationComplete? { HandleKeeps(c.limits, l.w, d, l.queue[0], openOk); }
  }

  lemma DrainInOrder(c: Config, d: Disk, l: Live, h: History, arrived: seq<Op>)
    requires InOrderNow(c, System(d, Up(l)), h, arrived) && l.drain.Some? && l.drain.value.rest != []
    ensures var (d', l') := DrainStep(d, l);
            InOrderNow(c, System(d', Up(l')), Logged(h, l.drain.value.rest[0].op), arrived)
  {
    var rest := l.drain.value.rest;
    assert rest == [rest[0]] + rest[1..];
    OpsConcat([rest[0]], rest[1..]);
    assert OpsOf([rest[0]]) == [rest[0].op];
    assert h.log + ([rest[0].op] + OpsOf(rest[1..])) == h.log + [rest[0].op] + OpsOf(rest[1..]);
  }

  lemma LiveInOrder(c: Config, d: Disk, l: Live, h: History, a: Action, arrived: seq<Op>)
    requires InOrderNow(c, System(d, Up(l)), h, arrived) && EnabledLive(c, l, a) && !a.Crash?
    ensures var (d', l') := ActLive(c, d, l, a); var s := System(d, Up(l));
            InOrderNow(c, System(d', Up(l')), Record(c, s, h, a), Arrive(c, s, a, arrived))
  {
    match a
    case Write(openOk) =>
      if l.queue[0].Mutate? {
        MutateInOrder(c, d, l, h, openOk, arrived);
      } else {
        ControlInOrder(c, d, l, h, openOk, arrived);
      }
    case DrainOne => DrainInOrder(c, d, l, h, arrived);
    case _ =>
  }

  lemma CrashInOrder(c: Config, s: System, h: History, a: Action, arrived: seq<Op>)
    requires InOrderNow(c, s, h, arrived) && Enabled(c, s, a) && a.Crash?
    ensures InOrderNow(c, Step(c, s, a), Record(c, s, h, a), Arrive(c, s, a, arrived))
  {
    assert DropLast(arrived, |Held(s.process)|) == h.log;
    assert OpsOf([]) == [];
    if s.process.Up? && a.line.UnframedLine? {
      assert Arrive(c, s, a, arrived) == Record(c, s, h, a).log + [];
    } else {
      assert h.log + [] == h.log;
    }
  }

  lemma StepInOrder(c: Config, s: System, h: History, a: Action, arrived: seq<Op>)
    requires Inv(c, s, h) && InOrderNow(c, s, h, arrived) && Enabled(c, s, a)
    ensures InOrderNow(c, Step(c, s, a), Record(c, s, h, a), Arrive(c, s, a, arrived))
  {
    if a.Crash? {
      CrashInOrder(c, s, h, a, arrived);
    } else if s.process.Up? {
      LiveInOrder(c, s.disk, s.process.live, h, a, arrived);
    } else {
      BootInOrder(c, s, h, a, arrived);
    }
  }

  lemma BootInOrder(c: Config, s: System, h: History, a: Action, arrived: seq<Op>)
    requires s.process.Booting? && a.Boot? && Enabled(c, s, a) && InOrderNow(c, s, h, arrived)
    ensures InOrderNow(c, BootStep(s, a.now), Record(c, s, h, a), arrived)
  {
  }

  lemma {:induction false} RunInOrder(c: Config, run: seq<Action>)
    requires Exec(c, run).Some?
    ensures var x := Exec(c, run).value; InOrderNow(c, x.s, x.h, Arrivals(c, run))
    decreases |run|
  {
    if run != [] {
      var before := run[..|run| - 1];
      RunInOrder(c, before);
      RunKeeps(c, before);
      var x := Exec(c, before).value;
      StepInOrder(c, x.s, x.h, run[|run| - 1], Arrivals(c, before));
    }
  }

  predicate Numbered(recs: seq<Rec>, i: nat) {
    exists r :: r in recs && r.index == i
  }

  /** The lines of the log files carry the operations of `all` under their numbers, none of those after the snapshot is
      missing, and what is not on disk is held. */
  ghost predicate OnDisk(d: Disk, durable: nat, all: seq<Op>, held: seq<Mutation>) {
    && durable <= |all| && all[durable..] == OpsOf(held)
    && (forall r :: r in Lines(d) ==> 1 <= r.index <= durable && r.op == all[r.index - 1])
    && (forall i: nat :: Base(d) < i <= durable ==> Numbered(Lines(d), i))
  }

  lemma DiskInOrder(d: Disk, h: History, all: seq<Op>, held: seq<Mutation>)
    requires Matches(Lines(d), h.log) && Reaches(Lines(d), Base(d), |h.log|) && all == h.log + OpsOf(held)
    ensures OnDisk(d, |h.log|, all, held)
  {
    forall i: nat | Base(d) < i <= |h.log| ensures Numbered(Lines(d), i) {
      var r := Reached(Lines(d), Base(d), |h.log|, i);
    }
  }

  /** Over every run: the accepted operations, in arrival order, are the durable ones followed by those still held; every
      line of the log files carries the operation that arrived as number `index`; and from the snapshot on no number is
      missing. */
  lemma ArrivalOrderOnDisk(c: Config, run: seq<Action>)
    requires Exec(c, run).Some?
    ensures var x, all := Exec(c, run).value, Arrivals(c, run);
            x.h.log <= all && OnDisk(x.s.disk, |x.h.log|, all, Held(x.s.process))
  {
    RunInOrder(c, run);
    RunKeeps(c, run);
    var x := Exec(c, run).value;
    DiskInOrder(x.s.disk, x.h, Arrivals(c, run), Held(x.s.process));
  }

  lemma {:induction false} Reached(recs: seq<Rec>, last: nat, to: nat, i: nat) returns (r: Rec)
    requires Reaches(recs, last, to) && last < i <= to
    ensures r in recs && r.index == i
    decreases |recs|
  {
    if recs[0].index == i {
      r := recs[0];
    } else {
      r := Reached(recs[1..], if recs[0].index == last + 1 then last + 1 else last, to, i);
    }
  }

  /** In every run of the process, a mutation is refused only when as many are waiting as may wait. */
  lemma RefusedInRun(c: Config, run: seq<Action>)
    requires Exec(c, run).Some? && Exec(c, run).value.s.process.Up?
    requires var l := Exec(c, run).value.s.process.live;
             l.queue != [] && l.queue[0].Mutate? && Refused(c, Exec(c, run).value.s.disk, l)
    ensures |Exec(c, run).value.s.process.live.w.hold| == c.limits.hold
  {
    RunInOrder(c, run);
    var s := Exec(c, run).value.s;
    RefusedOnlyFull(c.limits, s.process.live.w, s.disk, s.process.live.queue[0].m, true);
  }
}
