/** The handling of RotationComplete, taken apart into the steps between which a crash may fall, is the handler as a
    whole. */
module WalDrain {
  import opened Options
  import opened WalTypes
  import opened WalWriterSpec
  import opened WalSystem

  /** The writer goes on until nothing is held any more. */
  function DrainOut(d: Disk, l: Live): (Disk, Live)
    requires l.drain.Some?
    decreases |l.drain.value.rest|
  {
    if l.drain.value.rest == [] then (d, l.(w := Conclude(l.w, l.drain.value.id), drain := None))
    else var (d', l') := DrainStep(d, l); DrainOut(d', l')
  }

  lemma {:induction false} PostConcat(results: map<nat, Outcome>, a: Results, b: Results)
    ensures Post(results, a + b) == Post(Post(results, a), b)
    decreases |a|
  {
    if a == [] {
      assert a + b == b;
    } else {
      assert (a + b)[1..] == a[1..] + b;
      PostConcat(results[a[0].0.id := a[0].1], a[1..], b);
    }
  }

  lemma {:induction false} DrainSteps(d: Disk, l: Live)
    requires l.drain.Some?
    ensures var dr := l.drain.value; var (w, d', rs) := Drain(l.w, d, dr.rest);
            DrainOut(d, l) == (d', l.(w := Conclude(w, dr.id), drain := None, results := Post(l.results, rs)))
    decreases |l.drain.value.rest|
  {
    var dr := l.drain.value;
    if dr.rest != [] {
      var (d1, l1) := DrainStep(d, l);
      DrainSteps(d1, l1);
      var rs1 := Append(l.w, d, dr.rest[0], false).2;
      var rs2 := Drain(l1.w, d1, l1.drain.value.rest).2;
      PostConcat(l.results, rs1, rs2);
    }
  }

  /** One message RotationComplete, step by step. */
  lemma RotationCompletes(c: Config, d: Disk, l: Live, id: nat)
    requires l.drain.None? && l.queue != [] && l.queue[0] == RotationComplete(id) && id !in l.w.answers
    ensures var (d1, l1) := WriteStep(c, d, l, true);
            && l1.drain.Some?
            && var (w, d', rs) := HandleRotationComplete(l.w, d, id, true);
               DrainOut(d1, l1) == (d', l.(w := w, queue := l.queue[1..], results := Post(l.results, rs)))
  {
    var (d1, l1) := WriteStep(c, d, l, true);
    DrainSteps(d1, l1);
  }
}
