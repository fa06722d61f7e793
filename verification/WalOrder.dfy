/** What the writer keeps over any sequence of messages, whatever their order: indexes are consecutive, mutations reach
    the log in arrival order and are never overtaken, the limits hold, and control messages are idempotent. */
module WalOrder {
  import opened Options
  import opened StoreTypes
  import opened WalTypes
  import opened WalWriterSpec

  /** A message together with the outcome of opening the file it needs. */
  datatype Arrival = Arrival(msg: Message, openOk: bool)

  /** Everything a run of the writer sends back to the callers, with the last state and disk. */
  function Run(limits: Limits, w: WriterState, d: Disk, run: seq<Arrival>): (WriterState, Disk, Results)
    decreases |run|
  {
    if run == [] then (w, d, [])
    else
      var last := run[|run| - 1];
      var (w1, d1, rs) := Run(limits, w, d, run[..|run| - 1]);
      var (w2, d2, rs') := Handle(limits, w1, d1, last.msg, last.openOk);
      (w2, d2, rs + rs')
  }

  /** The mutations that were not refused on arrival, in arrival order. */
  function Accepted(limits: Limits, w: WriterState, d: Disk, run: seq<Arrival>): seq<Mutation>
    decreases |run|
  {
    if run == [] then []
    else
      var last := run[|run| - 1];
      var (w1, d1, rs) := Run(limits, w, d, run[..|run| - 1]);
      var before := Accepted(limits, w, d, run[..|run| - 1]);
      if last.msg.Mutate? && Handle(limits, w1, d1, last.msg, last.openOk).2 != [(last.msg.m, Busy)]
      then before + [last.msg.m] else before
  }

  /** The mutations that reached a file, in the order in which they did. */
  function Landed(rs: Results): seq<Mutation>
    decreases |rs|
  {
    if rs == [] then []
    else Landed(rs[..|rs| - 1]) + (if rs[|rs| - 1].1.Written? then [rs[|rs| - 1].0] else [])
  }

  /** The records written carry the indexes from + 1, from + 2, and so on, ending with `to`. */
  predicate Consecutive(rs: Results, from: nat, to: nat)
    decreases |rs|
  {
    if rs == [] then from == to
    else
      var (_, o) := rs[|rs| - 1];
      if o.Written? then o.index == to && from < to && Consecutive(rs[..|rs| - 1], from, to - 1)
      else Consecutive(rs[..|rs| - 1], from, to)
  }

  /** Between messages: the file in use is open, the limits hold, and mutations wait only while newer ones must. */
  predicate Steady(limits: Limits, w: WriterState) {
    && (w.mode == Idle ==> w.activeOpen && w.hold == [])
    && (w.mode == Sealing ==> w.tmpOpen && (w.hold != [] ==> w.tmpCount >= limits.tmp))
    && |w.hold| <= limits.hold && w.tmpCount <= limits.tmp
  }

  lemma {:induction false} LandedConcat(a: Results, b: Results)
    ensures Landed(a + b) == Landed(a) + Landed(b)
    decreases |b|
  {
    if b == [] {
      assert a + b == a;
    } else {
      assert (a + b)[..|a + b| - 1] == a + b[..|b| - 1] && (a + b)[|a + b| - 1] == b[|b| - 1];
      LandedConcat(a, b[..|b| - 1]);
    }
  }

  lemma {:induction false} ConsecutiveConcat(a: Results, b: Results, from: nat, mid: nat, to: nat)
    requires Consecutive(a, from, mid) && Consecutive(b, mid, to)
    ensures from <= mid <= to && Consecutive(a + b, from, to)
    decreases |a| + |b|
  {
    if b == [] {
      assert a + b == a;
      if a != [] {
        var a' := a[..|a| - 1];
        ConsecutiveConcat(a', [], from, if a[|a| - 1].1.Written? then mid - 1 else mid,
                          if a[|a| - 1].1.Written? then mid - 1 else mid);
      }
    } else {
      var b' := b[..|b| - 1];
      assert (a + b)[..|a + b| - 1] == a + b' && (a + b)[|a + b| - 1] == b[|b| - 1];
      ConsecutiveConcat(a, b', from, mid, if b[|b| - 1].1.Written? then to - 1 else to);
    }
  }

  /** One append writes the next index, and only that. */
  lemma AppendLands(w: WriterState, d: Disk, m: Mutation, toTmp: bool)
    requires if toTmp then w.tmpOpen else w.activeOpen
    ensures var (w', d', rs) := Append(w, d, m, toTmp);
            Landed(rs) == [m] && Consecutive(rs, w.lastIndex, w'.lastIndex)
  {
    var (w', d', rs) := Append(w, d, m, toTmp);
    assert rs[..0] == [] && Landed(rs[..0]) == [];
  }

  lemma {:induction false} DrainLands(w: WriterState, d: Disk, ms: seq<Mutation>)
    requires w.activeOpen
    ensures var (w', d', rs) := Drain(w, d, ms);
            && Landed(rs) == ms && Consecutive(rs, w.lastIndex, w'.lastIndex)
            && w' == w.(lastIndex := w'.lastIndex)
    decreases |ms|
  {
    if ms != [] {
      AppendLands(w, d, ms[0], false);
      var (w1, d1, rs1) := Append(w, d, ms[0], false);
      DrainLands(w1, d1, ms[1..]);
      var (w2, d2, rs2) := Drain(w1, d1, ms[1..]);
      LandedConcat(rs1, rs2);
      ConsecutiveConcat(rs1, rs2, w.lastIndex, w1.lastIndex, w2.lastIndex);
      assert [ms[0]] + ms[1..] == ms;
    }
  }

  /** One message: what lands and what is held afterwards is what was held before and what was accepted. */
  lemma HandleKeeps(limits: Limits, w: WriterState, d: Disk, msg: Message, openOk: bool)
    requires Steady(limits, w)
    ensures var (w', d', rs) := Handle(limits, w, d, msg, openOk);
            && Steady(limits, w') && Consecutive(rs, w.lastIndex, w'.lastIndex)
            && Landed(rs) + w'.hold == w.hold + (if msg.Mutate? && rs != [(msg.m, Busy)] then [msg.m] else [])
  {
    var (w', d', rs) := Handle(limits, w, d, msg, openOk);
    if msg.Mutate? {
      if w.mode == Rotating || (w.mode == Sealing && w.tmpCount >= limits.tmp) {
        if rs != [] { assert rs[..0] == [] && Landed(rs[..0]) == []; }
      } else {
        AppendLands(w, d, msg.m, w.mode == Sealing);
      }
    } else if msg.RotationComplete? && msg.id !in w.answers && openOk {
      var (w1, d1) := Reopen(w, d);
      DrainLands(w1, d1, w.hold);
    }
  }

  lemma Regroup(a: seq<Mutation>, b: seq<Mutation>, held: seq<Mutation>, held1: seq<Mutation>, held2: seq<Mutation>,
                acc: seq<Mutation>, more: seq<Mutation>)
    requires a + held1 == held + acc && b + held2 == held1 + more
    ensures a + b + held2 == held + (acc + more)
  {
    assert a + b + held2 == a + (b + held2);
    assert a + (held1 + more) == a + held1 + more;
    assert held + acc + more == held + (acc + more);
  }

  // ---- the files ----

  function LinesOf(f: Option<File>): seq<Rec> {
    if f.None? then [] else f.value.records
  }

  /** The lines that were added to a file. */
  function Added(f: Option<File>, f': Option<File>): seq<Rec>
    requires LinesOf(f) <= LinesOf(f')
  {
    LinesOf(f')[|LinesOf(f)|..]
  }

  predicate Grown(d: Disk, d': Disk) {
    LinesOf(d.active) <= LinesOf(d'.active) && LinesOf(d.tmp) <= LinesOf(d'.tmp)
  }

  /** The records of mutations written from index `from` + 1 on. */
  function Stamped(ms: seq<Mutation>, from: nat): (recs: seq<Rec>)
    ensures |recs| == |ms| && forall i :: 0 <= i < |ms| ==> recs[i] == Rec(from + 1 + i, ms[i].op)
  {
    seq(|ms|, i requires 0 <= i < |ms| => Rec(from + 1 + i, ms[i].op))
  }

  /** `a` and `b` share out `all` between them, each keeping its order. */
  predicate Shared(a: seq<Rec>, b: seq<Rec>, all: seq<Rec>)
    decreases |all|
  {
    if all == [] then a == [] && b == []
    else
      var last, front := all[|all| - 1], all[..|all| - 1];
      || (a != [] && a[|a| - 1] == last && Shared(a[..|a| - 1], b, front))
      || (b != [] && b[|b| - 1] == last && Shared(a, b[..|b| - 1], front))
  }

  lemma {:induction false} SharedConcat(a: seq<Rec>, b: seq<Rec>, all: seq<Rec>, a': seq<Rec>, b': seq<Rec>, all': seq<Rec>)
    requires Shared(a, b, all) && Shared(a', b', all')
    ensures Shared(a + a', b + b', all + all')
    decreases |all'|
  {
    if all' == [] {
      assert a + a' == a && b + b' == b && all + all' == all;
    } else {
      var front := all'[..|all'| - 1];
      assert (all + all')[..|all + all'| - 1] == all + front;
      if a' != [] && a'[|a'| - 1] == all'[|all'| - 1] && Shared(a'[..|a'| - 1], b', front) {
        SharedConcat(a, b, all, a'[..|a'| - 1], b', front);
        assert (a + a')[..|a + a'| - 1] == a + a'[..|a'| - 1];
      } else {
        SharedConcat(a, b, all, a', b'[..|b'| - 1], front);
        assert (b + b')[..|b + b'| - 1] == b + b'[..|b'| - 1];
      }
    }
  }

  predicate Ascending(recs: seq<Rec>) {
    forall i, j :: 0 <= i < j < |recs| ==> recs[i].index < recs[j].index
  }

  /** `a` and `b` together are `all`. */
  predicate Covers(a: seq<Rec>, b: seq<Rec>, all: seq<Rec>) {
    && |a| + |b| == |all| && Ascending(a) && Ascending(b)
    && (forall r :: r in all ==> r in a || r in b) && (forall r :: r in a ==> r in all) && (forall r :: r in b ==> r in all)
  }

  lemma CoversOne(a: seq<Rec>, b: seq<Rec>, all: seq<Rec>, last: Rec)
    requires Covers(a, b, all) && Ascending(all + [last])
    ensures Covers(a + [last], b, all + [last]) && Covers(a, b + [last], all + [last])
  {
    forall r | r in all ensures r.index < last.index {
      var i :| 0 <= i < |all| && all[i] == r;
      assert (all + [last])[i] == r && (all + [last])[|all|] == last;
    }
  }

  /** Sharing keeps everything, invents nothing and keeps the order. */
  lemma {:induction false} SharedAll(a: seq<Rec>, b: seq<Rec>, all: seq<Rec>)
    requires Shared(a, b, all) && Ascending(all)
    ensures Covers(a, b, all)
    decreases |all|
  {
    if all != [] {
      var last, front := all[|all| - 1], all[..|all| - 1];
      assert all == front + [last];
      if a != [] && a[|a| - 1] == last && Shared(a[..|a| - 1], b, front) {
        SharedAll(a[..|a| - 1], b, front);
        CoversOne(a[..|a| - 1], b, front, last);
        assert a == a[..|a| - 1] + [last];
      } else {
        SharedAll(a, b[..|b| - 1], front);
        CoversOne(a, b[..|b| - 1], front, last);
        assert b == b[..|b| - 1] + [last];
      }
    }
  }

  /** The disk has gained exactly the records of `ms`, each in one of the two files. */
  predicate Gained(d: Disk, d': Disk, ms: seq<Mutation>, from: nat) {
    Grown(d, d') && Shared(Added(d.active, d'.active), Added(d.tmp, d'.tmp), Stamped(ms, from))
  }

  lemma GainedNothing(d: Disk, d': Disk, from: nat)
    requires LinesOf(d'.active) == LinesOf(d.active) && LinesOf(d'.tmp) == LinesOf(d.tmp)
    ensures Gained(d, d', [], from)
  {
  }

  lemma GainedMore(d: Disk, d1: Disk, d2: Disk, a: seq<Mutation>, b: seq<Mutation>, from: nat, mid: nat)
    requires Gained(d, d1, a, from) && Gained(d1, d2, b, mid) && mid == from + |a|
    ensures Gained(d, d2, a + b, from)
  {
    SharedConcat(Added(d.active, d1.active), Added(d.tmp, d1.tmp), Stamped(a, from),
                 Added(d1.active, d2.active), Added(d1.tmp, d2.tmp), Stamped(b, from + |a|));
    assert Stamped(a + b, from) == Stamped(a, from) + Stamped(b, from + |a|);
    AddedChain(d.active, d1.active, d2.active);
    AddedChain(d.tmp, d1.tmp, d2.tmp);
  }

  lemma AddedChain(f: Option<File>, f1: Option<File>, f2: Option<File>)
    requires LinesOf(f) <= LinesOf(f1) <= LinesOf(f2)
    ensures LinesOf(f) <= LinesOf(f2) && Added(f, f2) == Added(f, f1) + Added(f1, f2)
  {
  }

  /** One append adds one line, under the next index, to the file it is meant for. */
  lemma AppendGains(w: WriterState, d: Disk, m: Mutation, toTmp: bool)
    requires if toTmp then w.tmpOpen else w.activeOpen
    ensures var (w', d', rs) := Append(w, d, m, toTmp);
            && Gained(d, d', [m], w.lastIndex) && w'.lastIndex == w.lastIndex + 1
            && (if toTmp then d'.active == d.active else d'.tmp == d.tmp)
  {
    var (w', d', rs) := Append(w, d, m, toTmp);
    var rec := Rec(w.lastIndex + 1, m.op);
    assert Stamped([m], w.lastIndex) == [rec] && [rec][..0] == [];
    if toTmp {
      assert Added(d.tmp, d'.tmp) == [rec] && Added(d.active, d'.active) == [];
    } else {
      assert Added(d.active, d'.active) == [rec] && Added(d.tmp, d'.tmp) == [];
    }
    assert Shared([], [], []);
  }

  lemma {:induction false} DrainGains(w: WriterState, d: Disk, ms: seq<Mutation>)
    requires w.activeOpen
    ensures var (w', d', rs) := Drain(w, d, ms);
            Gained(d, d', ms, w.lastIndex) && w'.lastIndex == w.lastIndex + |ms| && d'.tmp == d.tmp
    decreases |ms|
  {
    if ms == [] {
      GainedNothing(d, d, w.lastIndex);
    } else {
      AppendGains(w, d, ms[0], false);
      var (w1, d1, rs1) := Append(w, d, ms[0], false);
      DrainGains(w1, d1, ms[1..]);
      var (w2, d2, rs2) := Drain(w1, d1, ms[1..]);
      GainedMore(d, d1, d2, [ms[0]], ms[1..], w.lastIndex, w1.lastIndex);
      assert [ms[0]] + ms[1..] == ms;
    }
  }

  lemma HandleGains(limits: Limits, w: WriterState, d: Disk, msg: Message, openOk: bool)
    requires Steady(limits, w)
    ensures var (w', d', rs) := Handle(limits, w, d, msg, openOk);
            Gained(d, d', Landed(rs), w.lastIndex) && w'.lastIndex == w.lastIndex + |Landed(rs)|
  {
    var (w', d', rs) := Handle(limits, w, d, msg, openOk);
    if msg.Mutate? && w.mode != Rotating && (w.mode == Sealing ==> w.tmpCount < limits.tmp) {
      AppendGains(w, d, msg.m, w.mode == Sealing);
      AppendLands(w, d, msg.m, w.mode == Sealing);
    } else if msg.RotationComplete? && msg.id !in w.answers && openOk {
      var (w1, d1) := Reopen(w, d);
      DrainGains(w1, d1, w.hold);
      DrainLands(w1, d1, w.hold);
      GainedNothing(d, d1, w.lastIndex);
      GainedMore(d, d1, d', [], w.hold, w.lastIndex, w.lastIndex);
      assert [] + w.hold == w.hold;
    } else {
      if rs != [] { assert rs[..0] == [] && Landed(rs[..0]) == []; }
      GainedNothing(d, d', w.lastIndex);
    }
  }

  // ---- runs of the writer ----

  /** Over any sequence of messages: the mutations that landed, followed by those still held, are exactly the accepted
      ones in arrival order; the indexes told are consecutive; the limits hold. */
  lemma {:induction false} QueueOrder(limits: Limits, w: WriterState, d: Disk, run: seq<Arrival>)
    requires Steady(limits, w)
    ensures var (w', d', rs) := Run(limits, w, d, run);
            && Steady(limits, w')
            && Landed(rs) + w'.hold == w.hold + Accepted(limits, w, d, run)
            && Consecutive(rs, w.lastIndex, w'.lastIndex)
    decreases |run|
  {
    if run == [] { return; }
    var last, before := run[|run| - 1], run[..|run| - 1];
    QueueOrder(limits, w, d, before);
    var (w1, d1, rs) := Run(limits, w, d, before);
    HandleKeeps(limits, w1, d1, last.msg, last.openOk);
    var (w2, d2, rs') := Handle(limits, w1, d1, last.msg, last.openOk);
    var more := if last.msg.Mutate? && rs' != [(last.msg.m, Busy)] then [last.msg.m] else [];
    assert Run(limits, w, d, run) == (w2, d2, rs + rs');
    assert Accepted(limits, w, d, run) == Accepted(limits, w, d, before) + more;
    LandedConcat(rs, rs');
    ConsecutiveConcat(rs, rs', w.lastIndex, w1.lastIndex, w2.lastIndex);
    Regroup(Landed(rs), Landed(rs'), w.hold, w1.hold, w2.hold, Accepted(limits, w, d, before), more);
  }

  lemma {:induction false} FilesGain(limits: Limits, w: WriterState, d: Disk, run: seq<Arrival>)
    requires Steady(limits, w)
    ensures var (w', d', rs) := Run(limits, w, d, run);
            Gained(d, d', Landed(rs), w.lastIndex) && w'.lastIndex == w.lastIndex + |Landed(rs)|
    decreases |run|
  {
    if run == [] {
      GainedNothing(d, d, w.lastIndex);
    } else {
      var last, before := run[|run| - 1], run[..|run| - 1];
      FilesGain(limits, w, d, before);
      QueueOrder(limits, w, d, before);
      var (w1, d1, rs) := Run(limits, w, d, before);
      HandleGains(limits, w1, d1, last.msg, last.openOk);
      var (w2, d2, rs') := Handle(limits, w1, d1, last.msg, last.openOk);
      assert Run(limits, w, d, run) == (w2, d2, rs + rs');
      LandedConcat(rs, rs');
      GainedMore(d, d1, d2, Landed(rs), Landed(rs'), w.lastIndex, w1.lastIndex);
    }
  }

  /** Over any sequence of messages: the lines the two files have gained are the records of the mutations that landed,
      under consecutive indexes from the last one on, each in one file and in order; those mutations, followed by the
      ones still held, are exactly the accepted ones in arrival order; and the limits hold. */
  lemma ArrivalOrder(limits: Limits, w: WriterState, d: Disk, run: seq<Arrival>)
    requires Steady(limits, w)
    ensures var (w', d', rs) := Run(limits, w, d, run);
            && Gained(d, d', Landed(rs), w.lastIndex) && w'.lastIndex == w.lastIndex + |Landed(rs)|
            && Landed(rs) + w'.hold == w.hold + Accepted(limits, w, d, run)
            && Steady(limits, w')
  {
    QueueOrder(limits, w, d, run);
    FilesGain(limits, w, d, run);
  }

  /** A result that tells an index names the record of its own mutation. */
  lemma {:induction false} ToldIsStamped(rs: Results, from: nat, to: nat, i: nat)
    requires Consecutive(rs, from, to) && i < |rs| && rs[i].1.Written?
    ensures to == from + |Landed(rs)|
    ensures Rec(rs[i].1.index, rs[i].0.op) in Stamped(Landed(rs), from)
    decreases |rs|
  {
    var front, last := rs[..|rs| - 1], rs[|rs| - 1];
    var to' := if last.1.Written? then to - 1 else to;
    CountLanded(front, from, to');
    if i < |rs| - 1 {
      ToldIsStamped(front, from, to', i);
      var all := Stamped(Landed(front), from);
      var k :| 0 <= k < |all| && all[k] == Rec(rs[i].1.index, rs[i].0.op);
      assert Stamped(Landed(rs), from)[k] == all[k];
    } else {
      assert Stamped(Landed(rs), from)[|Landed(front)|] == Rec(last.1.index, last.0.op);
    }
  }

  lemma {:induction false} CountLanded(rs: Results, from: nat, to: nat)
    requires Consecutive(rs, from, to)
    ensures to == from + |Landed(rs)|
    decreases |rs|
  {
    if rs != [] { CountLanded(rs[..|rs| - 1], from, if rs[|rs| - 1].1.Written? then to - 1 else to); }
  }

  /** Over any sequence of messages: whoever is told an index finds its record in one of the files under that index, and
      what each file has gained is in ascending order. */
  lemma ToldIsOnDisk(limits: Limits, w: WriterState, d: Disk, run: seq<Arrival>)
    requires Steady(limits, w)
    ensures var (w', d', rs) := Run(limits, w, d, run);
            && Grown(d, d') && Ascending(Added(d.active, d'.active)) && Ascending(Added(d.tmp, d'.tmp))
            && (forall i :: 0 <= i < |rs| && rs[i].1.Written? ==>
                  var rec := Rec(rs[i].1.index, rs[i].0.op);
                  rec in Added(d.active, d'.active) || rec in Added(d.tmp, d'.tmp))
  {
    QueueOrder(limits, w, d, run);
    FilesGain(limits, w, d, run);
    var (w', d', rs) := Run(limits, w, d, run);
    SharedAll(Added(d.active, d'.active), Added(d.tmp, d'.tmp), Stamped(Landed(rs), w.lastIndex));
    forall i | 0 <= i < |rs| && rs[i].1.Written?
      ensures Rec(rs[i].1.index, rs[i].0.op) in Stamped(Landed(rs), w.lastIndex)
    {
      ToldIsStamped(rs, w.lastIndex, w'.lastIndex, i);
    }
  }

  /** For every writer that recovery opens: what arrives and is accepted goes to disk under the indexes that follow the
      recovered one. */
  lemma ArrivalOrderFromOpen(limits: Limits, last: nat, d: Disk, run: seq<Arrival>)
    ensures var (w, d', rs) := Run(limits, Opened(last), d, run);
            && Gained(d, d', Landed(rs), last) && w.lastIndex == last + |Landed(rs)|
            && Landed(rs) + w.hold == Accepted(limits, Opened(last), d, run)
  {
    ArrivalOrder(limits, Opened(last), d, run);
    assert [] + Accepted(limits, Opened(last), d, run) == Accepted(limits, Opened(last), d, run);
  }

  predicate Repeats(msg: Message, w: WriterState) {
    !msg.Mutate? && msg.id in w.answers
  }

  /** Once a control ID has been answered, no message changes the answer. */
  lemma {:induction false} AnswersStay(limits: Limits, w: WriterState, d: Disk, run: seq<Arrival>, id: nat)
    requires Steady(limits, w) && id in w.answers
    ensures var (w', d', rs) := Run(limits, w, d, run); id in w'.answers && w'.answers[id] == w.answers[id]
    decreases |run|
  {
    if run != [] {
      var last, before := run[|run| - 1], run[..|run| - 1];
      AnswersStay(limits, w, d, before, id);
      QueueOrder(limits, w, d, before);
      var (w1, d1, rs) := Run(limits, w, d, before);
      AnswerStays(limits, w1, d1, last.msg, last.openOk, id);
    }
  }

  lemma AnswerStays(limits: Limits, w: WriterState, d: Disk, msg: Message, openOk: bool, id: nat)
    requires Steady(limits, w) && id in w.answers
    ensures var (w', d', rs) := Handle(limits, w, d, msg, openOk); id in w'.answers && w'.answers[id] == w.answers[id]
  {
    if msg.RotationComplete? { DrainLands(Reopen(w, d).0, Reopen(w, d).1, w.hold); }
  }

  /** A repeated control message, however late, finds its first answer and changes nothing. */
  lemma RepeatedControl(limits: Limits, w: WriterState, d: Disk, run: seq<Arrival>, msg: Message, openOk: bool)
    requires Steady(limits, w) && Repeats(msg, w)
    ensures var (w', d', _) := Run(limits, w, d, run);
            && Repeats(msg, w') && w'.answers[msg.id] == w.answers[msg.id]
            && Handle(limits, w', d', msg, openOk) == (w', d', [])
  {
    AnswersStay(limits, w, d, run, msg.id);
  }

  // ---- who is refused ----

  /** A writer with room in its queue refuses nobody. */
  lemma RefusedOnlyFull(limits: Limits, w: WriterState, d: Disk, m: Mutation, openOk: bool)
    requires Steady(limits, w) && Handle(limits, w, d, Mutate(m), openOk).2 == [(m, Busy)]
    ensures |w.hold| == limits.hold
  {
  }

  /** Over every run of an opened writer: whoever is refused on arrival found as many mutations waiting as may wait. */
  lemma BusyOnlyWhenFull(limits: Limits, last: nat, d: Disk, run: seq<Arrival>, m: Mutation, openOk: bool)
    requires var (w, d', _) := Run(limits, Opened(last), d, run); Handle(limits, w, d', Mutate(m), openOk).2 == [(m, Busy)]
    ensures |Run(limits, Opened(last), d, run).0.hold| == limits.hold
  {
    QueueOrder(limits, Opened(last), d, run);
    var (w, d', _) := Run(limits, Opened(last), d, run);
    RefusedOnlyFull(limits, w, d', m, openOk);
  }

  /** All mutations that arrive in a run. */
  function Arrived(run: seq<Arrival>): seq<Mutation>
    decreases |run|
  {
    if run == [] then []
    else
      var msg := run[|run| - 1].msg;
      Arrived(run[..|run| - 1]) + if msg.Mutate? then [msg.m] else []
  }

  /** Whenever a mutation arrives, fewer are waiting than may wait. */
  predicate Roomy(limits: Limits, w: WriterState, d: Disk, run: seq<Arrival>) {
    forall i :: 0 <= i < |run| && run[i].msg.Mutate? ==> |Run(limits, w, d, run[..i]).0.hold| < limits.hold
  }

  lemma {:induction false} RoomyAcceptsAll(limits: Limits, last: nat, d: Disk, run: seq<Arrival>)
    requires Roomy(limits, Opened(last), d, run)
    ensures Accepted(limits, Opened(last), d, run) == Arrived(run)
    decreases |run|
  {
    if run != [] {
      var before, a := run[..|run| - 1], run[|run| - 1];
      assert forall i :: 0 <= i < |before| ==> before[..i] == run[..i] && before[i] == run[i];
      assert Roomy(limits, Opened(last), d, before);
      RoomyAcceptsAll(limits, last, d, before);
      var (w, d', _) := Run(limits, Opened(last), d, before);
      if a.msg.Mutate? && Handle(limits, w, d', a.msg, a.openOk).2 == [(a.msg.m, Busy)] {
        BusyOnlyWhenFull(limits, last, d, before, a.msg.m, a.openOk);
      }
    }
  }

  /** As long as the queue has room, every mutation that has arrived is on disk or in the queue, in arrival order. */
  lemma NoneIsRefused(limits: Limits, last: nat, d: Disk, run: seq<Arrival>)
    requires Roomy(limits, Opened(last), d, run)
    ensures var (w, d', rs) := Run(limits, Opened(last), d, run);
            Landed(rs) + w.hold == Arrived(run) && Gained(d, d', Landed(rs), last)
  {
    RoomyAcceptsAll(limits, last, d, run);
    ArrivalOrderFromOpen(limits, last, d, run);
  }
}
