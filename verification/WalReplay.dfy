/** Replaying parts of the history of the store. A log is a sequence of operations; operation `i` (counted from 1) is
    `log[i - 1]`. The central fact is `Absorb`: replaying a stretch of the log over a state that already holds any
    selection of that stretch gives the same result as replaying it over the state before. */
module WalReplay {
  import opened StoreTypes

  /** The effect of an operation when nothing has expired. */
  function Apply(d: Data, op: Op): Data {
    match op
    case Put(k, v) => d[k := Entry(v, 0)]
    case Del(k) => d - {k}
    case Ttl(k, exp) => if k in d then d[k := d[k].(exp := exp)] else d
    case _ => d
  }

  /** Replays, in order, the operations numbered lo + 1 to hi whose numbers are in `keep`. */
  function Fold(d: Data, log: seq<Op>, keep: set<nat>, lo: nat, hi: nat): Data
    requires lo <= hi <= |log|
    decreases hi
  {
    if hi == lo then d
    else
      var before := Fold(d, log, keep, lo, hi - 1);
      if hi in keep then Apply(before, log[hi - 1]) else before
  }

  /** The numbers 1 to n. */
  function Upto(n: nat): (r: set<nat>)
    ensures forall i: nat :: i in r <==> 1 <= i <= n
  {
    if n == 0 then {} else Upto(n - 1) + {n}
  }

  lemma {:induction false} FoldSplit(d: Data, log: seq<Op>, keep: set<nat>, lo: nat, mid: nat, hi: nat)
    requires lo <= mid <= hi <= |log|
    ensures Fold(d, log, keep, lo, hi) == Fold(Fold(d, log, keep, lo, mid), log, keep, mid, hi)
    decreases hi
  {
    if mid < hi { FoldSplit(d, log, keep, lo, mid, hi - 1); }
  }

  /** Only the selected numbers of the range matter, and only the operations they name. */
  lemma {:induction false} FoldSame(d: Data, log: seq<Op>, log': seq<Op>, keep: set<nat>, keep': set<nat>,
                                    lo: nat, hi: nat)
    requires lo <= hi <= |log| && hi <= |log'| && log[lo..hi] == log'[lo..hi]
    requires forall i: nat :: lo < i <= hi ==> (i in keep <==> i in keep')
    ensures Fold(d, log, keep, lo, hi) == Fold(d, log', keep', lo, hi)
    decreases hi
  {
    if lo < hi {
      assert log[hi - 1] == log[lo..hi][hi - 1 - lo] == log'[lo..hi][hi - 1 - lo] == log'[hi - 1];
      assert log[lo..hi - 1] == log[lo..hi][..hi - 1 - lo] == log'[lo..hi][..hi - 1 - lo] == log'[lo..hi - 1];
      FoldSame(d, log, log', keep, keep', lo, hi - 1);
    }
  }

  // ---- absorption ----

  datatype Lookup = Absent | Present(e: Entry)

  function Look(d: Data, k: string): Lookup {
    if k in d then Present(d[k]) else Absent
  }

  /** What a stretch of operations does to one key. */
  datatype Effect = Keep | Retime(exp: int) | Become(entry: Lookup)

  function Act(f: Effect, l: Lookup): Lookup {
    match f
    case Keep => l
    case Retime(exp) => if l.Present? then Present(l.e.(exp := exp)) else Absent
    case Become(e) => e
  }

  function EffectOf(op: Op, k: string): Effect {
    match op
    case Put(k', v) => if k == k' then Become(Present(Entry(v, 0))) else Keep
    case Del(k') => if k == k' then Become(Absent) else Keep
    case Ttl(k', exp) => if k == k' then Retime(exp) else Keep
    case _ => Keep
  }

  function Then(f: Effect, g: Effect): Effect {
    match g
    case Keep => f
    case Become(_) => g
    case Retime(_) => if f.Become? then Become(Act(g, f.entry)) else g
  }

  function Effects(log: seq<Op>, keep: set<nat>, lo: nat, hi: nat, k: string): Effect
    requires lo <= hi <= |log|
    decreases hi
  {
    if hi == lo then Keep
    else
      var before := Effects(log, keep, lo, hi - 1, k);
      if hi in keep then Then(before, EffectOf(log[hi - 1], k)) else before
  }

  lemma {:induction false} FoldActs(d: Data, log: seq<Op>, keep: set<nat>, lo: nat, hi: nat, k: string)
    requires lo <= hi <= |log|
    ensures Look(Fold(d, log, keep, lo, hi), k) == Act(Effects(log, keep, lo, hi, k), Look(d, k))
    decreases hi
  {
    if lo < hi { FoldActs(d, log, keep, lo, hi - 1, k); }
  }

  /** A selection never does more to a key than the whole stretch. */
  predicate Weaker(f: Effect, g: Effect) {
    (g.Keep? ==> f.Keep?) && (g.Retime? ==> !f.Become?)
  }

  lemma {:induction false} SelectionIsWeaker(log: seq<Op>, keep: set<nat>, all: set<nat>, lo: nat, hi: nat, k: string)
    requires lo <= hi <= |log| && forall i: nat :: lo < i <= hi ==> i in all
    ensures Weaker(Effects(log, keep, lo, hi, k), Effects(log, all, lo, hi, k))
    decreases hi
  {
    if lo < hi { SelectionIsWeaker(log, keep, all, lo, hi - 1, k); }
  }

  /** Replaying a whole stretch over a state that already holds some of it changes nothing but the missing part. */
  lemma Absorb(d: Data, log: seq<Op>, keep: set<nat>, all: set<nat>, lo: nat, hi: nat)
    requires lo <= hi <= |log| && forall i: nat :: lo < i <= hi ==> i in all
    ensures Fold(Fold(d, log, keep, lo, hi), log, all, lo, hi) == Fold(d, log, all, lo, hi)
  {
    var some := Fold(d, log, keep, lo, hi);
    var left, right := Fold(some, log, all, lo, hi), Fold(d, log, all, lo, hi);
    forall k ensures Look(left, k) == Look(right, k) {
      FoldActs(d, log, keep, lo, hi, k);
      FoldActs(some, log, all, lo, hi, k);
      FoldActs(d, log, all, lo, hi, k);
      SelectionIsWeaker(log, keep, all, lo, hi, k);
    }
    SameLooks(left, right);
  }

  lemma SameLooks(a: Data, b: Data)
    requires forall k :: Look(a, k) == Look(b, k)
    ensures a == b
  {
    forall k ensures (k in a <==> k in b) && (k in a ==> a[k] == b[k]) {
      assert Look(a, k) == Look(b, k);
    }
  }

  // ---- the clock ----

  /** Nothing recorded expires up to the horizon. */
  predicate Lasting(op: Op, horizon: int) {
    op.Ttl? ==> op.exp == 0 || op.exp > horizon
  }

  predicate AllLasting(log: seq<Op>, horizon: int) {
    forall op :: op in log ==> Lasting(op, horizon)
  }

  predicate Fresh(d: Data, horizon: int) {
    forall k :: k in d ==> !Expired(d[k], horizon)
  }

  lemma ApplyIsTimeless(d: Data, op: Op, now: int, horizon: int)
    requires Fresh(d, horizon) && Lasting(op, horizon) && now <= horizon
    ensures ApplyRecord(d, op, now) == Apply(d, op) && Fresh(Apply(d, op), horizon)
  {
  }

  lemma SnapshotIsWhole(d: Data, now: int, horizon: int)
    requires Fresh(d, horizon) && now <= horizon
    ensures Snapshot(d, now) == d
  {
  }

  lemma {:induction false} FoldFresh(d: Data, log: seq<Op>, keep: set<nat>, lo: nat, hi: nat, horizon: int)
    requires lo <= hi <= |log| && Fresh(d, horizon) && AllLasting(log, horizon)
    ensures Fresh(Fold(d, log, keep, lo, hi), horizon)
    decreases hi
  {
    if lo < hi {
      FoldFresh(d, log, keep, lo, hi - 1, horizon);
      ApplyIsTimeless(Fold(d, log, keep, lo, hi - 1), log[hi - 1], horizon, horizon);
    }
  }
}
