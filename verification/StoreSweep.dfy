/** Active expiration next to other clients. The clean-up reads the first index entry, checks the data under the lock
    and drops the index entry in three separate steps; in between, other operations run. */
module StoreSweep {
  import opened StoreTypes
  import opened StoreSpec
  import opened BTreeOrder
  import opened Store

  datatype Cleaner = Idle | Got(e: Expiration) | Checked(e: Expiration)

  /** `start` is the clock reading with which the current clean-up began. */
  datatype State = State(data: Data, index: set<Expiration>, clock: int, start: int, cleaner: Cleaner)

  datatype Step =
    | Tick(now: int)
    | Begin
    | Look(e: Expiration)
    | Check
    | Drop
    | Read(key: string)
    | Write(key: string, value: string)
    | Remove(key: string)
    | Expire(key: string, exp: int)

  predicate Enabled(s: State, step: Step) {
    match step
    case Tick(now) => s.clock <= now
    case Begin => s.cleaner.Idle?
    case Look(e) => s.cleaner.Idle? && e in s.index && e.exp <= s.start
    case Check => s.cleaner.Got?
    case Drop => s.cleaner.Checked?
    case _ => true
  }

  /** The check of the clean-up, under the lock. */
  function CheckData(d: Data, e: Expiration, now: int): Data {
    if e.key in d && d[e.key].exp == e.exp && Expired(d[e.key], now) then d - {e.key} else d
  }

  function Next(s: State, step: Step): State
    requires Enabled(s, step)
  {
    match step
    case Tick(now) => s.(clock := now)
    case Begin => s.(start := s.clock)
    case Look(e) => s.(cleaner := Got(e))
    case Check => s.(data := CheckData(s.data, s.cleaner.e, s.clock), cleaner := Checked(s.cleaner.e))
    case Drop => s.(index := s.index - {s.cleaner.e}, cleaner := Idle)
    case Read(k) =>
      if k in s.data && Expired(s.data[k], s.clock) then s.(data := s.data - {k}, index := s.index - PairOf(s.data, k))
      else s
    case Write(k, v) => s.(data := s.data[k := Entry(v, 0)], index := s.index - PairOf(s.data, k))
    case Remove(k) => if k in s.data then s.(data := s.data - {k}, index := s.index - PairOf(s.data, k)) else s
    case Expire(k, exp) =>
      if k !in s.data then s
      else if Expired(s.data[k], s.clock) then s.(data := s.data - {k}, index := s.index - PairOf(s.data, k))
      else
        s.(data := s.data[k := s.data[k].(exp := exp)], index := s.index - PairOf(s.data, k) + {Expiration(k, exp)})
  }

  predicate Client(step: Step) {
    step.Read? || step.Write? || step.Remove? || step.Expire?
  }

  /** The operation of the store that a step of a client is. */
  function RequestOf(step: Step, now: int): Request
    requires Client(step)
  {
    match step
    case Read(k) => Get(k)
    case Write(k, v) => Request.Put(k, v)
    case Remove(k) => Delete(k)
    case Expire(k, exp) => SetTtl(k, exp - now)
  }

  /** It does to the data what that operation does. */
  lemma ClientServes(s: State, step: Step)
    requires Client(step)
    ensures Next(s, step).data == Serve(s.data, RequestOf(step, s.clock), s.clock).0
  {
  }

  /** Every entry that expires has its index entry, and the clean-up holds on to nothing that is still in use. */
  predicate Inv(s: State) {
    && Pairs(s.data) <= s.index && s.start <= s.clock
    && (s.cleaner.Got? || s.cleaner.Checked? ==> s.cleaner.e.exp <= s.start)
    && (s.cleaner.Checked? ==> s.cleaner.e !in Pairs(s.data))
  }

  /** A live key gets exactly the expiry whose index entry the clean-up is about to drop. */
  predicate Conflict(s: State, step: Step) {
    step.Expire? && Live(s.data, step.key, s.clock) && step.exp != 0
    && s.cleaner == Checked(Expiration(step.key, step.exp))
  }

  lemma StepKeeps(s: State, step: Step)
    requires Inv(s) && Enabled(s, step) && !Conflict(s, step)
    ensures Inv(Next(s, step))
  {
    if step.Read? || step.Remove? || step.Expire? { PairsRemoved(s.data, step.key); }
    if step.Write? { PairsUpdated(s.data, step.key, Entry(step.value, 0)); }
    if step.Expire? && step.key in s.data { PairsUpdated(s.data, step.key, s.data[step.key].(exp := step.exp)); }
    if step.Check? { PairsRemoved(s.data, s.cleaner.e.key); }
  }

  /** The condition is exact: after such a step the entry loses its place in the index. */
  lemma ConflictBreaks(s: State, step: Step)
    requires Inv(s) && Enabled(s, step) && Conflict(s, step)
    ensures var s1 := Next(s, step); Enabled(s1, Drop) && !(Pairs(Next(s1, Drop).data) <= Next(s1, Drop).index)
  {
    var s1 := Next(s, step);
    PairsRemoved(s1.data, step.key);
    assert PairOf(s1.data, step.key) == {Expiration(step.key, step.exp)};
  }

  /** A time to live that is positive never conflicts: the clean-up only holds entries whose time has come. */
  lemma PositiveTtlIsSafe(s: State, key: string, ttl: int)
    requires Inv(s) && ttl > 0
    ensures !Conflict(s, Expire(key, s.clock + ttl))
  {
  }

  /** No step of the clean-up touches a live key. */
  lemma CleanerSparesLive(s: State, step: Step)
    requires Enabled(s, step) && (step.Begin? || step.Look? || step.Check? || step.Drop?)
    ensures forall k :: Live(s.data, k, s.clock) ==> k in Next(s, step).data && Next(s, step).data[k] == s.data[k]
    ensures forall k :: k in s.data && k !in Next(s, step).data ==> Expired(s.data[k], s.clock)
  {
  }

  // ---- what the clients see ----

  predicate Possible(s: State, run: seq<Step>)
    decreases |run|
  {
    run == [] || (Enabled(s, run[0]) && Possible(Next(s, run[0]), run[1..]))
  }

  /** The results that the clients get in a run. */
  function Answers(s: State, run: seq<Step>): seq<Result>
    requires Possible(s, run)
    decreases |run|
  {
    if run == [] then []
    else
      (if Client(run[0]) then [Serve(s.data, RequestOf(run[0], s.clock), s.clock).1] else [])
      + Answers(Next(s, run[0]), run[1..])
  }

  /** The results of the reference, which knows no clean-up and removes nothing because of its age. */
  function ReferenceAnswers(m: Data, now: int, run: seq<Step>): seq<Result>
    decreases |run|
  {
    if run == [] then []
    else if run[0].Tick? then ReferenceAnswers(m, run[0].now, run[1..])
    else if Client(run[0]) then
      var (m', r) := Refer(m, RequestOf(run[0], now), now);
      [r] + ReferenceAnswers(m', now, run[1..])
    else ReferenceAnswers(m, now, run[1..])
  }

  lemma CleanerAgrees(s: State, m: Data, step: Step)
    requires Enabled(s, step) && !Client(step) && !step.Tick? && Agree(s.data, m, s.clock)
    ensures Agree(Next(s, step).data, m, s.clock)
  {
    CleanerSparesLive(s, step);
  }

  /** However the clean-up interleaves with the clients, in any run at all, every client gets the answer of the reference:
      not even a conflict can be observed. */
  lemma {:induction false} CleanupUnobservable(s: State, m: Data, run: seq<Step>)
    requires Agree(s.data, m, s.clock) && Possible(s, run)
    ensures Answers(s, run) == ReferenceAnswers(m, s.clock, run)
    decreases |run|
  {
    if run != [] {
      var step, s' := run[0], Next(s, run[0]);
      if Client(step) {
        var req := RequestOf(step, s.clock);
        ClientServes(s, step);
        ServeAgrees(s.data, m, req, s.clock, s.clock);
        CleanupUnobservable(s', Refer(m, req, s.clock).0, run[1..]);
      } else if step.Tick? {
        CleanupUnobservable(s', m, run[1..]);
      } else {
        CleanerAgrees(s, m, step);
        CleanupUnobservable(s', m, run[1..]);
      }
    }
  }

  // ---- runs ----

  /** A run without a conflict. */
  predicate Running(s: State, run: seq<Step>)
    decreases |run|
  {
    run == [] || (Enabled(s, run[0]) && !Conflict(s, run[0]) && Running(Next(s, run[0]), run[1..]))
  }

  function After(s: State, run: seq<Step>): State
    requires Running(s, run)
    decreases |run|
  {
    if run == [] then s else After(Next(s, run[0]), run[1..])
  }

  /** Over every such run, however the steps interleave, no entry loses its place in the index. */
  lemma {:induction false} IndexStaysComplete(s: State, run: seq<Step>)
    requires Inv(s) && Running(s, run)
    ensures Inv(After(s, run)) && Pairs(After(s, run).data) <= After(s, run).index
    decreases |run|
  {
    if run != [] {
      StepKeeps(s, run[0]);
      IndexStaysComplete(Next(s, run[0]), run[1..]);
    }
  }

  /** A run in which every time to live is positive. */
  predicate Positive(s: State, run: seq<Step>)
    decreases |run|
  {
    run == [] || (Enabled(s, run[0]) && (run[0].Expire? ==> run[0].exp > s.clock) && Positive(Next(s, run[0]), run[1..]))
  }

  /** Runs with positive times to live have no conflict. */
  lemma {:induction false} PositiveRunsAreSafe(s: State, run: seq<Step>)
    requires Inv(s) && Positive(s, run)
    ensures Running(s, run) && Pairs(After(s, run).data) <= After(s, run).index
    decreases |run|
  {
    if run != [] {
      if run[0].Expire? { PositiveTtlIsSafe(s, run[0].key, run[0].exp - s.clock); }
      StepKeeps(s, run[0]);
      PositiveRunsAreSafe(Next(s, run[0]), run[1..]);
    }
  }

  // ---- what a caller can see ----

  /** A new store. */
  function Empty(clock: int): State {
    State(map[], {}, clock, clock, Idle)
  }

  /** A key gets an expiry; its time comes, the clean-up removes the entry, and the key is written again. */
  function Overtaken(k: string, v: string, exp: int, now: int): seq<Step> {
    [Write(k, v), Expire(k, exp), Tick(now), Begin, Look(Expiration(k, exp)), Check, Write(k, v)]
  }

  lemma RunOne(s: State, run: seq<Step>)
    requires run != [] && Enabled(s, run[0]) && !Conflict(s, run[0]) && Running(Next(s, run[0]), run[1..])
    ensures Running(s, run) && After(s, run) == After(Next(s, run[0]), run[1..])
  {
  }

  /** The first three steps, and the last four. */
  lemma OvertakenSet(k: string, v: string, exp: int, now: int)
    requires exp != 0 && exp <= now
    ensures var s, run := Empty(exp - 1), [Write(k, v), Expire(k, exp), Tick(now)];
            Running(s, run)
            && After(s, run) == State(map[k := Entry(v, exp)], {Expiration(k, exp)}, now, exp - 1, Idle)
  {
    var s := Empty(exp - 1);
    var s1 := Next(s, Write(k, v));
    var s2 := Next(s1, Expire(k, exp));
    assert s1.data == map[k := Entry(v, 0)] && s1.index == {};
    assert s2.data == map[k := Entry(v, exp)] && s2.index == {Expiration(k, exp)};
    RunOne(s2, [Tick(now)]);
    RunOne(s1, [Expire(k, exp), Tick(now)]);
    RunOne(s, [Write(k, v), Expire(k, exp), Tick(now)]);
  }

  lemma OvertakenSwept(k: string, v: string, exp: int, now: int)
    requires exp != 0 && exp <= now
    ensures var s := State(map[k := Entry(v, exp)], {Expiration(k, exp)}, now, exp - 1, Idle);
            var run := [Begin, Look(Expiration(k, exp)), Check, Write(k, v)];
            Running(s, run)
            && After(s, run) == State(map[k := Entry(v, 0)], {Expiration(k, exp)}, now, now, Checked(Expiration(k, exp)))
  {
    var e := Expiration(k, exp);
    var s := State(map[k := Entry(v, exp)], {e}, now, exp - 1, Idle);
    var s1 := Next(s, Begin);
    var s2 := Next(s1, Look(e));
    var s3 := Next(s2, Check);
    assert s3.data == map[] && s3.index == {e};
    assert Next(s3, Write(k, v)).data == map[k := Entry(v, 0)];
    RunOne(s3, [Write(k, v)]);
    RunOne(s2, [Check, Write(k, v)]);
    RunOne(s1, [Look(e), Check, Write(k, v)]);
    RunOne(s, [Begin, Look(e), Check, Write(k, v)]);
  }

  lemma {:induction false} RunConcat(s: State, a: seq<Step>, b: seq<Step>)
    requires Running(s, a) && Running(After(s, a), b)
    ensures Running(s, a + b) && After(s, a + b) == After(After(s, a), b)
    decreases |a|
  {
    if a == [] {
      assert a + b == b;
    } else {
      RunConcat(Next(s, a[0]), a[1..], b);
      assert (a + b)[1..] == a[1..] + b;
    }
  }

  lemma OvertakenRuns(k: string, v: string, exp: int, now: int)
    requires exp != 0 && exp <= now
    ensures var s, run := Empty(exp - 1), Overtaken(k, v, exp, now);
            Running(s, run)
            && After(s, run) == State(map[k := Entry(v, 0)], {Expiration(k, exp)}, now, now, Checked(Expiration(k, exp)))
  {
    OvertakenSet(k, v, exp, now);
    OvertakenSwept(k, v, exp, now);
    var a, b := [Write(k, v), Expire(k, exp), Tick(now)], [Begin, Look(Expiration(k, exp)), Check, Write(k, v)];
    RunConcat(Empty(exp - 1), a, b);
    assert Overtaken(k, v, exp, now) == a + b;
  }

  /** From a new store: when the key now gets the same expiry again, which has passed, the clean-up drops the index entry
      that belongs to it, and the expired key stays in the data without one. */
  lemma EntryLost(k: string, v: string, exp: int, now: int)
    requires exp != 0 && exp <= now
    ensures var s, run := Empty(exp - 1), Overtaken(k, v, exp, now);
            && Inv(s) && Running(s, run) && Enabled(After(s, run), Expire(k, exp))
            && var s1 := Next(After(s, run), Expire(k, exp));
               && Enabled(s1, Drop) && Next(s1, Drop).data == map[k := Entry(v, exp)] && Next(s1, Drop).index == {}
  {
    OvertakenRuns(k, v, exp, now);
  }

  /** Whatever has happened in the store, this expiry can be set at time `now`. */
  ghost predicate NeverConflicts(key: string, exp: int, now: int) {
    forall clock: int, run: seq<Step> :: Running(Empty(clock), run) && After(Empty(clock), run).clock == now ==>
      !Conflict(After(Empty(clock), run), Expire(key, exp))
  }

  /** The condition in terms of what a caller knows: setting an expiry is safe in every reachable state of the store and
      of the clean-up if and only if it lies in the future or is 0, which means none. */
  lemma ExpiryIsSafeIff(key: string, exp: int, now: int)
    ensures NeverConflicts(key, exp, now) <==> exp == 0 || exp > now
  {
    if exp != 0 && exp <= now {
      OvertakenRuns(key, "", exp, now);
      assert Conflict(After(Empty(exp - 1), Overtaken(key, "", exp, now)), Expire(key, exp));
    } else if exp > now {
      forall clock: int, run: seq<Step> | Running(Empty(clock), run) && After(Empty(clock), run).clock == now
        ensures !Conflict(After(Empty(clock), run), Expire(key, exp))
      {
        IndexStaysComplete(Empty(clock), run);
        PositiveTtlIsSafe(After(Empty(clock), run), key, exp - now);
      }
    }
  }
}
