/** Crashes at any point and every step of recovery keep the invariant. */
module WalBoot {
  import opened Options
  import opened StoreTypes
  import opened WalTypes
  import opened WalWriterSpec
  import opened WalRecovery
  import opened WalReplay
  import opened WalSystem
  import opened WalInvariant
  import opened WalDisk
  import opened WalSteps

  /** The lines decide; the side files do not matter. */
  lemma SameLines(d: Disk, d': Disk, h: History)
    requires DiskOk(d, h) && d'.snapshot == d.snapshot && Lines(d') == Lines(d)
    ensures DiskOk(d', h) && Base(d') == Base(d) && Start(d') == Start(d)
  {
  }

  // ---- crashes ----

  lemma SpoiledRecords(f: Option<File>, tail: Tail)
    requires f.Some? ==> f.value.tail.Clean?
    requires !tail.Clean?
    ensures Records(Spoil(f, tail)) == Records(f) + (if tail.Unframed? then [tail.rec] else [])
  {
  }

  lemma CrashKeeps(c: Config, d: Disk, l: Live, h: History, a: Action)
    requires LogOk(c, h) && DiskOk(d, h) && LiveOk(c, d, l, h) && a.Crash? && EnabledLive(c, l, a)
    ensures var h' := if a.line.UnframedLine? then Logged(h, NextAppend(c.limits, l).value.0.op) else h;
            LogOk(c, h') && DiskOk(Crashed(c, d, Up(l), a), h')
  {
    var d' := Crashed(c, d, Up(l), a);
    if a.line.NoLine? {
      SameLines(d, d', h);
    } else {
      var m := NextAppend(c.limits, l).value.0;
      var rec := Rec(|h.log| + 1, m.op);
      NextIsFit(c, d, l, h);
      CrashLines(c, d, l, a, rec);
      if a.line.TornLine? {
        assert Lines(d) + [] == Lines(d);
        SameLines(d, d', h);
      } else {
        LogNext(c, h, m.op);
        DiskNext(d, h, d', rec);
      }
    }
  }

  /** A torn line does not count, a whole one without its newline does. */
  lemma CrashLines(c: Config, d: Disk, l: Live, a: Action, rec: Rec)
    requires a.Crash? && !a.line.NoLine? && NextAppend(c.limits, l).Some? && AllClean(d)
    requires var (m, toTmp) := NextAppend(c.limits, l).value;
             rec == Rec(l.w.lastIndex + 1, m.op) && (toTmp <==> d.tmp.Some?)
    ensures Lines(Crashed(c, d, Up(l), a)) == Lines(d) + (if a.line.TornLine? then [] else [rec])
  {
    var tail := if a.line.TornLine? then Torn else Unframed(rec);
    SpoiledRecords(if d.tmp.Some? then d.tmp else d.active, tail);
    var more := if a.line.TornLine? then [] else [rec];
    assert Records(d.active) + (Records(d.tmp) + more) == Records(d.active) + Records(d.tmp) + more;
    assert d.tmp.None? ==> Records(d.active) + more + [] == Records(d.active) + [] + more;
  }

  /** The next append goes to the last file, under the next index, and may be recorded. */
  lemma NextIsFit(c: Config, d: Disk, l: Live, h: History)
    requires LiveOk(c, d, l, h) && NextAppend(c.limits, l).Some?
    ensures var (m, toTmp) := NextAppend(c.limits, l).value;
            Fit(c, m.op) && (toTmp <==> d.tmp.Some?) && AllClean(d) && l.w.lastIndex == |h.log|
  {
    if l.drain.Some? {
      assert l.drain.value.rest[0] in l.drain.value.rest;
    } else {
      assert l.queue[0] in l.queue;
    }
  }

  // ---- recovery ----

  lemma ReplayActiveKeeps(c: Config, d: Disk, h: History, last: nat, data: Data, now: int)
    requires LogOk(c, h) && DiskOk(d, h) && StageOk(d, ReplayingActive(last, data), h) && now <= c.horizon
    ensures var r := ReplayAll(last, data, Records(d.active), now); var d' := d.(active := Repaired(d.active));
            r.Ok? && DiskOk(d', h) && StageOk(d', ReplayingTmp(r.last, r.data), h)
  {
    SnapshotFresh(c, d, h);
    var a, t := Records(d.active), Records(d.tmp);
    assert Lines(d) == a + t;
    var mid := ReachesSplit(a, t, last, |h.log|);
    assert Matches(a, h.log) by { assert forall r :: r in a ==> r in Lines(d); }
    ReplayReaches(last, data, a, now, h.log, mid, c.horizon);
    var d' := d.(active := Repaired(d.active));
    assert Records(Repaired(d.active)) == a;
    SameLines(d, d', h);
  }

  lemma ReplayTmpKeeps(c: Config, d: Disk, h: History, last: nat, data: Data, now: int)
    requires LogOk(c, h) && DiskOk(d, h) && StageOk(d, ReplayingTmp(last, data), h) && now <= c.horizon
    ensures var r := ReplayAll(last, data, Records(d.tmp), now);
            && r.Ok? && r.last == |h.log| && Replayed(d, h, r.last, r.data)
            && (d.tmp.None? ==> r == Ok(last, data))
  {
    SnapshotFresh(c, d, h);
    FoldFresh(Start(d).data, h.log, Upto(|h.log|), Base(d), last, c.horizon);
    var t := Records(d.tmp);
    assert Matches(t, h.log) by { assert forall r :: r in t ==> r in Lines(d); }
    ReplayReaches(last, data, t, now, h.log, |h.log|, c.horizon);
    FoldSplit(Start(d).data, h.log, Upto(|h.log|), Base(d), last, |h.log|);
  }

  lemma RepairTmp(d: Disk, h: History)
    requires DiskOk(d, h)
    ensures DiskOk(d.(tmp := Repaired(d.tmp)), h)
  {
    assert Records(Repaired(d.tmp)) == Records(d.tmp);
    SameLines(d, d.(tmp := Repaired(d.tmp)), h);
  }

  /** After the rename the lines of the temporary log are there twice; the second copies are skipped. */
  lemma SwapKeeps(d: Disk, h: History)
    requires DiskOk(d, h) && d.rebuild == Some(File(Lines(d), Clean))
    ensures var d' := d.(active := d.rebuild, rebuild := None);
            && DiskOk(d', h) && Records(d'.active) == Lines(d) && Start(d') == Start(d)
            && Reaches(Records(d'.active), Base(d'), |h.log|)
  {
    var d' := d.(active := d.rebuild, rebuild := None);
    var a, t := Lines(d), Records(d.tmp);
    assert Records(d'.active) == a && Lines(d') == a + t;
    assert Matches(t, h.log) && Matches(a + t, h.log) by {
      assert forall r :: r in t ==> r in a;
      assert forall r :: r in a + t ==> r in a;
    }
    ReachesNothing(t, h.log);
    ReachesConcat(a, t, Base(d), |h.log|, |h.log|);
  }

  lemma DropKeeps(d: Disk, h: History)
    requires DiskOk(d, h) && Reaches(Records(d.active), Base(d), |h.log|)
    ensures DiskOk(d.(tmp := None), h)
  {
    var d' := d.(tmp := None);
    assert Lines(d') == Records(d.active);
    assert forall r :: r in Lines(d') ==> r in Lines(d);
  }

  lemma OpenKeeps(c: Config, d: Disk, h: History, last: nat, data: Data)
    requires LogOk(c, h) && DiskOk(d, h) && StageOk(d, Ready(last, data), h)
    ensures var d' := d.(active := Touch(d.active)); var h' := h.(inMem := RecoveredKeys(d, h));
            LogOk(c, h') && DiskOk(d', h') && LiveOk(c, d', FirstLive(last, data), h')
  {
    RecoveredHolds(d, h);
    assert Records(Touch(d.active)) == Records(d.active);
    SameLines(d, d.(active := Touch(d.active)), h);
  }

  lemma BootReplays(c: Config, s: System, h: History, now: int)
    requires Inv(c, s, h) && s.process.Booting? && now <= c.horizon
    requires s.process.stage.ReplayingActive? || s.process.stage.ReplayingTmp?
    ensures Inv(c, BootStep(s, now), h)
  {
    var d := s.disk;
    match s.process.stage
    case ReplayingActive(last, data) => ReplayActiveKeeps(c, d, h, last, data, now);
    case ReplayingTmp(last, data) =>
      ReplayTmpKeeps(c, d, h, last, data, now);
      RepairTmp(d, h);
  }

  lemma BootMerges(c: Config, s: System, h: History, now: int)
    requires Inv(c, s, h) && s.process.Booting? && now <= c.horizon
    requires s.process.stage.Rebuilding? || s.process.stage.Swapping? || s.process.stage.Dropping?
    ensures Inv(c, BootStep(s, now), h)
  {
    var d := s.disk;
    match s.process.stage
    case Rebuilding(last, data) =>
      SameLines(d, d.(rebuild := Some(File(Records(d.active) + Records(d.tmp), Clean))), h);
    case Swapping(last, data) => SwapKeeps(d, h);
    case Dropping(last, data) => DropKeeps(d, h);
  }

  lemma BootKeeps(c: Config, s: System, h: History, now: int)
    requires Inv(c, s, h) && s.process.Booting? && now <= c.horizon
    ensures Inv(c, BootStep(s, now), Record(c, s, h, Boot(now)))
  {
    match s.process.stage
    case Cleaning => BootBegins(c, s, h, now);
    case Loading => BootBegins(c, s, h, now);
    case Ready(last, data) => OpenKeeps(c, s.disk, h, last, data);
    case ReplayingActive(_, _) => BootReplays(c, s, h, now);
    case ReplayingTmp(_, _) => BootReplays(c, s, h, now);
    case _ => BootMerges(c, s, h, now);
  }

  lemma BootBegins(c: Config, s: System, h: History, now: int)
    requires Inv(c, s, h) && s.process.Booting? && (s.process.stage.Cleaning? || s.process.stage.Loading?)
    ensures Inv(c, BootStep(s, now), h)
  {
    if s.process.stage.Cleaning? { SameLines(s.disk, s.disk.(snapshotTmp := None), h); }
  }
}
