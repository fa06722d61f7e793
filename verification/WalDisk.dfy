/** What replay finds on a disk that satisfies the invariant: no gap, every durable operation, and a state that holds
    every acknowledged one. */
module WalDisk {
  import opened Options
  import opened StoreTypes
  import opened WalTypes
  import opened WalRecovery
  import opened WalReplay
  import opened WalSystem
  import opened WalInvariant

  // ---- runs of indexes ----

  lemma {:induction false} ReachesRange(recs: seq<Rec>, last: nat, to: nat)
    requires Reaches(recs, last, to)
    ensures last <= to
    decreases |recs|
  {
    if recs != [] { ReachesRange(recs[1..], if recs[0].index == last + 1 then last + 1 else last, to); }
  }

  lemma {:induction false} ReachesConcat(a: seq<Rec>, b: seq<Rec>, last: nat, mid: nat, to: nat)
    requires Reaches(a, last, mid) && Reaches(b, mid, to)
    ensures Reaches(a + b, last, to)
    decreases |a|
  {
    if a == [] {
      assert a + b == b;
    } else {
      assert (a + b)[1..] == a[1..] + b;
      ReachesConcat(a[1..], b, if a[0].index == last + 1 then last + 1 else last, mid, to);
    }
  }

  lemma {:induction false} ReachesSplit(a: seq<Rec>, b: seq<Rec>, last: nat, to: nat) returns (mid: nat)
    requires Reaches(a + b, last, to)
    ensures last <= mid <= to && Reaches(a, last, mid) && Reaches(b, mid, to)
    decreases |a|
  {
    if a == [] {
      assert a + b == b;
      ReachesRange(b, last, to);
      mid := last;
    } else {
      assert (a + b)[1..] == a[1..] + b;
      mid := ReachesSplit(a[1..], b, if a[0].index == last + 1 then last + 1 else last, to);
    }
  }

  /** A later start only skips more. */
  lemma {:induction false} ReachesFrom(recs: seq<Rec>, last: nat, from: nat, to: nat)
    requires Reaches(recs, last, to) && last <= from <= to
    ensures Reaches(recs, from, to)
    decreases |recs|
  {
    if recs != [] {
      var next := if recs[0].index == last + 1 then last + 1 else last;
      ReachesRange(recs[1..], next, to);
      if next <= from {
        ReachesFrom(recs[1..], next, from, to);
      } else {
        assert recs[0].index == from + 1;
      }
    }
  }

  lemma {:induction false} ReachesNothing(recs: seq<Rec>, log: seq<Op>)
    requires Matches(recs, log)
    ensures Reaches(recs, |log|, |log|)
    decreases |recs|
  {
    if recs != [] {
      assert recs[0] in recs;
      ReachesNothing(recs[1..], log);
    }
  }

  lemma ReachesNext(recs: seq<Rec>, last: nat, to: nat, rec: Rec)
    requires Reaches(recs, last, to) && rec.index == to + 1
    ensures Reaches(recs + [rec], last, rec.index)
  {
    assert [rec][1..] == [];
    ReachesConcat(recs, [rec], last, to, rec.index);
  }

  lemma MatchesNext(recs: seq<Rec>, log: seq<Op>, rec: Rec)
    requires Matches(recs, log) && rec.index == |log| + 1
    ensures Matches(recs + [rec], log + [rec.op])
  {
  }

  // ---- replayed states ----

  lemma HoldsNext(data: Data, log: seq<Op>, keep: set<nat>, op: Op)
    requires Holds(data, log, keep)
    ensures Holds(data, log + [op], keep)
  {
    var n := |log|;
    assert log[0..n] == (log + [op])[0..n];
    FoldSame(map[], log, log + [op], keep, keep, 0, n);
  }

  lemma {:induction false} FoldNothing(d: Data, log: seq<Op>, keep: set<nat>, lo: nat, hi: nat)
    requires lo <= hi <= |log| && forall i :: i in keep ==> i <= lo
    ensures Fold(d, log, keep, lo, hi) == d
    decreases hi
  {
    if lo < hi { FoldNothing(d, log, keep, lo, hi - 1); }
  }

  /** Applying an operation that is later than everything in the state adds it to the state's history. */
  lemma HoldsMore(data: Data, log: seq<Op>, keep: set<nat>, i: nat)
    requires Holds(data, log, keep) && 1 <= i <= |log| && forall j :: j in keep ==> j < i
    ensures Holds(Apply(data, log[i - 1]), log, keep + {i})
  {
    var n, keep' := |log|, keep + {i};
    FoldSplit(map[], log, keep, 0, i - 1, n);
    FoldNothing(Fold(map[], log, keep, 0, i - 1), log, keep, i - 1, n);
    FoldSame(map[], log, log, keep, keep', 0, i - 1);
    FoldSplit(map[], log, keep', 0, i, n);
    FoldNothing(Fold(map[], log, keep', 0, i), log, keep', i, n);
  }

  /** One record of a gap-free run. */
  lemma {:induction false} ReplayReaches(last: nat, data: Data, recs: seq<Rec>, now: int,
                                         log: seq<Op>, to: nat, horizon: int)
    requires Matches(recs, log) && Reaches(recs, last, to) && to <= |log| && now <= horizon
    requires AllLasting(log, horizon) && (forall op :: op in log ==> !op.Membership?) && Fresh(data, horizon)
    ensures last <= to && ReplayAll(last, data, recs, now) == Ok(to, Fold(data, log, Upto(|log|), last, to))
    decreases |recs|
  {
    ReachesRange(recs, last, to);
    if recs == [] { return; }
    var rec, rest := recs[0], recs[1..];
    assert rec in recs && recs == [rec] + rest && [rec][..0] == [] && [rec][0] == rec;
    ReplayConcat(last, data, [rec], rest, now);
    assert ReplayAll(last, data, [rec], now) == ReplayOne(last, data, rec, now);
    assert Matches(rest, log) by { assert forall r :: r in rest ==> r in recs; }
    if rec.index == last + 1 {
      ReachesRange(rest, last + 1, to);
      ApplyIsTimeless(data, rec.op, now, horizon);
      ReplayReaches(last + 1, Apply(data, rec.op), rest, now, log, to, horizon);
      FoldSplit(data, log, Upto(|log|), last, last + 1, to);
      assert Fold(data, log, Upto(|log|), last, last + 1) == Apply(data, log[last]);
    } else {
      ReplayReaches(last, data, rest, now, log, to, horizon);
    }
  }

  lemma SnapshotFresh(c: Config, d: Disk, h: History)
    requires LogOk(c, h) && DiskOk(d, h)
    ensures Fresh(Start(d).data, c.horizon)
  {
    FoldFresh(map[], h.log, h.inSnapshot, 0, |h.log|, c.horizon);
  }

  /** What the snapshot holds beyond its label is absorbed by the replay that follows. */
  lemma RecoveredHolds(d: Disk, h: History)
    requires DiskOk(d, h)
    ensures Holds(Fold(Start(d).data, h.log, Upto(|h.log|), Base(d), |h.log|), h.log, RecoveredKeys(d, h))
    ensures h.acked <= Upto(|h.log|) ==> h.acked <= RecoveredKeys(d, h)
  {
    var log, snap, all, keys, b, n := h.log, h.inSnapshot, Upto(|h.log|), RecoveredKeys(d, h), Base(d), |h.log|;
    FoldSplit(map[], log, snap, 0, b, n);
    var low := Fold(map[], log, snap, 0, b);
    Absorb(low, log, snap, all, b, n);
    FoldSame(map[], log, log, snap, keys, 0, b);
    FoldSame(low, log, log, all, keys, b, n);
    FoldSplit(map[], log, keys, 0, b, n);
  }

  /** An uninterrupted recovery of such a disk succeeds, reports the last durable index, and rebuilds a state that
      holds every acknowledged operation. */
  lemma RecoverySucceeds(c: Config, d: Disk, h: History, now: int)
    requires LogOk(c, h) && DiskOk(d, h) && now <= c.horizon
    ensures var r := Recovered(d, now);
            && r == Ok(|h.log|, Fold(Start(d).data, h.log, Upto(|h.log|), Base(d), |h.log|))
            && Holds(r.data, h.log, RecoveredKeys(d, h)) && h.acked <= RecoveredKeys(d, h)
  {
    SnapshotFresh(c, d, h);
    var a, t := Records(d.active), Records(d.tmp);
    assert Lines(d) == a + t;
    ReplayReaches(Base(d), Start(d).data, a + t, now, h.log, |h.log|, c.horizon);
    ReplayConcat(Base(d), Start(d).data, a, t, now);
    RecoveredHolds(d, h);
  }
}
