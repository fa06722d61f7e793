/** Replay tests every expiry against the clock of the replay, not against the clock of the original operation. What that
    does, exactly: a recovery drops the keys that have had an expiry which has come since and was replaced in the log. */
module WalClock {
  import opened Options
  import opened StoreTypes
  import opened StoreSpec
  import opened WalTypes
  import opened WalRecovery

  /** The records of a log that goes on after index `last`. */
  function Numbered(last: nat, log: seq<Op>): seq<Rec>
    decreases |log|
  {
    if log == [] then [] else Numbered(last, log[..|log| - 1]) + [Rec(last + |log|, log[|log| - 1])]
  }

  /** A disk with a log, behind a snapshot or from the beginning. */
  function LogDisk(snap: Option<SnapshotFile>, log: seq<Op>): Disk {
    Disk(snap, None, Some(File(Numbered(Label(snap), log), Clean)), None, None)
  }

  function Label(snap: Option<SnapshotFile>): nat {
    if snap.None? then 0 else snap.value.last
  }

  function Loaded(snap: Option<SnapshotFile>): Data {
    if snap.None? then map[] else snap.value.data
  }

  /** The contents after replaying the log at time `now`. */
  function ReplayAt(d: Data, log: seq<Op>, now: int): Data
    decreases |log|
  {
    if log == [] then d else ApplyRecord(ReplayAt(d, log[..|log| - 1], now), log[|log| - 1], now)
  }

  predicate Foreign(log: seq<Op>) {
    exists i :: 0 <= i < |log| && log[i].Membership?
  }

  lemma {:induction false} ReplaysLog(last: nat, d: Data, log: seq<Op>, now: int)
    ensures ReplayAll(last, d, Numbered(last, log), now) ==
            if Foreign(log) then Err(UnknownOp) else Ok(last + |log|, ReplayAt(d, log, now))
    decreases |log|
  {
    if log != [] {
      var front := log[..|log| - 1];
      ReplaysLog(last, d, front, now);
      assert Numbered(last, log)[..|Numbered(last, log)| - 1] == Numbered(last, front);
      assert Foreign(front) ==> Foreign(log);
      assert forall i :: 0 <= i < |front| ==> front[i] == log[i];
    }
  }

  lemma RecoversLog(snap: Option<SnapshotFile>, log: seq<Op>, now: int)
    ensures Recovered(LogDisk(snap, log), now) ==
            if Foreign(log) then Err(UnknownOp) else Ok(Label(snap) + |log|, ReplayAt(Loaded(snap), log, now))
  {
    ReplaysLog(Label(snap), Loaded(snap), log, now);
    assert Numbered(Label(snap), log) + [] == Numbered(Label(snap), log);
  }

  // ---- the life of one key ----

  /** A value, and all expiries it has had, from the oldest to the one in force. 0 stands for none. */
  datatype Life = Life(value: string, expiries: seq<int>)

  function InForce(es: seq<int>): int {
    if es == [] then 0 else es[|es| - 1]
  }

  function LifeOf(d: Data, log: seq<Op>, k: string): (r: Option<Life>)
    ensures r.Some? ==> r.value.expiries != []
    decreases |log|
  {
    if log == [] then if k in d then Some(Life(d[k].value, [d[k].exp])) else None
    else
      var before, op := LifeOf(d, log[..|log| - 1], k), log[|log| - 1];
      match op
      case Put(key, v) => if key == k then Some(Life(v, [0])) else before
      case Del(key) => if key == k then None else before
      case Ttl(key, exp) =>
        if key == k && before.Some? then Some(Life(before.value.value, before.value.expiries + [exp])) else before
      case _ => before
  }

  /** One of the expiries that were replaced has come. */
  predicate Overtaken(es: seq<int>, now: int) {
    exists i :: 0 <= i < |es| - 1 && es[i] != 0 && es[i] <= now
  }

  lemma OvertakenNext(es: seq<int>, e: int, now: int)
    requires es != []
    ensures Overtaken(es + [e], now) <==> Overtaken(es, now) || (InForce(es) != 0 && InForce(es) <= now)
  {
    var more := es + [e];
    if Overtaken(es, now) {
      var i :| 0 <= i < |es| - 1 && es[i] != 0 && es[i] <= now;
      assert more[i] == es[i];
    }
    if InForce(es) != 0 && InForce(es) <= now { assert more[|es| - 1] == InForce(es); }
  }

  /** What a replay makes of one key. */
  lemma {:induction false} ReplayOfKey(d: Data, log: seq<Op>, k: string, now: int)
    ensures var x, m := LifeOf(d, log, k), ReplayAt(d, log, now);
            && (k in m <==> x.Some? && !Overtaken(x.value.expiries, now))
            && (k in m ==> m[k] == Entry(x.value.value, InForce(x.value.expiries)))
    decreases |log|
  {
    if log != [] {
      var front, op := log[..|log| - 1], log[|log| - 1];
      ReplayOfKey(d, front, k, now);
      var x := LifeOf(d, front, k);
      if op.Ttl? && op.key == k && x.Some? { OvertakenNext(x.value.expiries, op.exp, now); }
    }
  }

  // ---- what the log is meant to stand for ----

  /** The contents if nothing were ever dropped because of its age. */
  function Meant(d: Data, log: seq<Op>): Data
    decreases |log|
  {
    if log == [] then d
    else
      var m := Meant(d, log[..|log| - 1]);
      match log[|log| - 1]
      case Put(k, v) => m[k := Entry(v, 0)]
      case Del(k) => m - {k}
      case Ttl(k, exp) => if k in m then m[k := m[k].(exp := exp)] else m
      case _ => m
  }

  lemma {:induction false} MeantOfKey(d: Data, log: seq<Op>, k: string)
    ensures var x, m := LifeOf(d, log, k), Meant(d, log);
            (k in m <==> x.Some?) && (k in m ==> m[k] == Entry(x.value.value, InForce(x.value.expiries)))
    decreases |log|
  {
    if log != [] { MeantOfKey(d, log[..|log| - 1], k); }
  }

  // ---- the theorems ----

  /** Whatever is recovered is as it was meant to be. */
  lemma RecoveredIsMeant(snap: Option<SnapshotFile>, log: seq<Op>, k: string, now: int)
    ensures var r, m := Recovered(LogDisk(snap, log), now), Meant(Loaded(snap), log);
            r.Ok? && k in r.data ==> k in m && r.data[k] == m[k]
  {
    RecoversLog(snap, log, now);
    ReplayOfKey(Loaded(snap), log, k, now);
    MeantOfKey(Loaded(snap), log, k);
  }

  /** A recovery at time `now` loses a key that is alive at that time. */
  predicate Loses(snap: Option<SnapshotFile>, log: seq<Op>, k: string, now: int) {
    var r := Recovered(LogDisk(snap, log), now);
    r.Ok? && k !in r.data && Live(Meant(Loaded(snap), log), k, now)
  }

  /** Exactly when: one of the expiries that its value had earlier has come, and the one in force has not. */
  lemma LosesIff(snap: Option<SnapshotFile>, log: seq<Op>, k: string, now: int)
    ensures var x := LifeOf(Loaded(snap), log, k);
            Loses(snap, log, k, now) <==>
            && !Foreign(log) && x.Some? && Overtaken(x.value.expiries, now)
            && (InForce(x.value.expiries) == 0 || now < InForce(x.value.expiries))
  {
    RecoversLog(snap, log, now);
    ReplayOfKey(Loaded(snap), log, k, now);
    MeantOfKey(Loaded(snap), log, k);
  }

  /** Recovery rebuilds the same contents whenever it happens. */
  ghost predicate ClockFree(snap: Option<SnapshotFile>, log: seq<Op>) {
    forall a: int, b: int :: Recovered(LogDisk(snap, log), a) == Recovered(LogDisk(snap, log), b)
  }

  /** The value of the key has had an expiry that was replaced. */
  predicate Replaced(d: Data, log: seq<Op>, k: string) {
    var x := LifeOf(d, log, k);
    x.Some? && exists i :: 0 <= i < |x.value.expiries| - 1 && x.value.expiries[i] != 0
  }

  lemma {:induction false} Before(es: seq<int>) returns (early: int)
    ensures forall i :: 0 <= i < |es| ==> early < es[i]
    decreases |es|
  {
    early := 0;
    if es != [] {
      early := Before(es[1..]);
      assert forall i :: 0 < i < |es| ==> es[i] == es[1..][i - 1];
      if es[0] <= early { early := es[0] - 1; }
    }
  }

  lemma SameContents(d: Data, log: seq<Op>, a: int, b: int)
    requires forall k :: !Replaced(d, log, k)
    ensures ReplayAt(d, log, a) == ReplayAt(d, log, b)
  {
    var m, m' := ReplayAt(d, log, a), ReplayAt(d, log, b);
    forall k: string ensures (k in m <==> k in m') && (k in m ==> m[k] == m'[k]) {
      assert !Replaced(d, log, k);
      ReplayOfKey(d, log, k, a);
      ReplayOfKey(d, log, k, b);
    }
  }

  lemma ReplacedMatters(d: Data, log: seq<Op>, k: string) returns (a: int, b: int)
    requires Replaced(d, log, k)
    ensures k in ReplayAt(d, log, a) && k !in ReplayAt(d, log, b)
  {
    var es := LifeOf(d, log, k).value.expiries;
    var i :| 0 <= i < |es| - 1 && es[i] != 0;
    a := Before(es);
    b := es[i];
    ReplayOfKey(d, log, k, a);
    ReplayOfKey(d, log, k, b);
  }

  /** What a recovery rebuilds does not depend on its clock if and only if no key has had an expiry replaced by another one
      since its value was put; or if the log is refused altogether. */
  lemma ClockFreeIff(snap: Option<SnapshotFile>, log: seq<Op>)
    ensures ClockFree(snap, log) <==> Foreign(log) || forall k :: !Replaced(Loaded(snap), log, k)
  {
    var d := Loaded(snap);
    if !Foreign(log) && exists k :: Replaced(d, log, k) {
      var k :| Replaced(d, log, k);
      var a, b := ReplacedMatters(d, log, k);
      RecoversLog(snap, log, a);
      RecoversLog(snap, log, b);
      assert Recovered(LogDisk(snap, log), a) != Recovered(LogDisk(snap, log), b);
    } else {
      forall a: int, b: int ensures Recovered(LogDisk(snap, log), a) == Recovered(LogDisk(snap, log), b) {
        RecoversLog(snap, log, a);
        RecoversLog(snap, log, b);
        if !Foreign(log) { SameContents(d, log, a, b); }
      }
    }
  }

  /** The smallest case: a key whose expiry was put off is live in memory at a time between both expiries, and a recovery
      at that time loses it. */
  lemma ExtendedKeyLost(k: string, v: string, first: int, second: int, before: int, now: int)
    requires first != 0 && before < first <= now < second
    ensures var log := [Op.Put(k, v), Ttl(k, first), Ttl(k, second)];
            && ReplayAt(map[], log, before) == map[k := Entry(v, second)] && Live(ReplayAt(map[], log, before), k, now)
            && Recovered(LogDisk(None, log), now) == Ok(3, map[])
  {
    var log := [Op.Put(k, v), Ttl(k, first), Ttl(k, second)];
    assert log[..2] == [Op.Put(k, v), Ttl(k, first)] && log[..2][..1] == [Op.Put(k, v)] && log[..2][..1][..0] == [];
    assert ReplayAt(map[], log[..2][..1], before) == map[k := Entry(v, 0)] == ReplayAt(map[], log[..2][..1], now);
    assert ReplayAt(map[], log[..2], before) == map[k := Entry(v, first)] == ReplayAt(map[], log[..2], now);
    assert ReplayAt(map[], log, before) == map[k := Entry(v, second)] && ReplayAt(map[], log, now) == map[];
    RecoversLog(None, log, now);
  }
}
