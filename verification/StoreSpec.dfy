/** The operations of the store on its contents, as the code performs them, and a reference that never removes anything
    because of its age. The two give the same results over every run with a clock that does not go back. */
module StoreSpec {
  import opened Options
  import opened StoreTypes

  datatype Request =
    | Get(key: string)
    | Put(key: string, value: string)
    | Delete(key: string)
    | SetTtl(key: string, ttl: int)
    | Sweep(keys: set<string>)

  datatype Result = Found(value: string) | Done | InvalidKey

  predicate Live(d: Data, key: string, now: int) {
    key in d && !Expired(d[key], now)
  }

  /** What the code does. Reading or touching an expired entry removes it; a sweep removes expired entries. */
  function Serve(d: Data, req: Request, now: int): (Data, Result) {
    match req
    case Get(k) =>
      if k !in d then (d, InvalidKey)
      else if Expired(d[k], now) then (d - {k}, InvalidKey)
      else (d, Found(d[k].value))
    case Put(k, v) => (d[k := Entry(v, 0)], Done)
    case Delete(k) =>
      if k !in d then (d, InvalidKey) else (d - {k}, if Expired(d[k], now) then InvalidKey else Done)
    case SetTtl(k, ttl) =>
      if k !in d then (d, InvalidKey)
      else (TtlAt(d, k, now + ttl, now), if Expired(d[k], now) then InvalidKey else Done)
    case Sweep(ks) => (d - ks, Done)
  }

  /** The reference: expired entries stay where they are and are never seen. */
  function Refer(m: Data, req: Request, now: int): (Data, Result) {
    match req
    case Get(k) => (m, if Live(m, k, now) then Found(m[k].value) else InvalidKey)
    case Put(k, v) => (m[k := Entry(v, 0)], Done)
    case Delete(k) => if Live(m, k, now) then (m - {k}, Done) else (m, InvalidKey)
    case SetTtl(k, ttl) => if Live(m, k, now) then (m[k := m[k].(exp := now + ttl)], Done) else (m, InvalidKey)
    case Sweep(_) => (m, Done)
  }

  /** A sweep only takes what has expired. */
  predicate Allowed(d: Data, req: Request, now: int) {
    req.Sweep? ==> forall k :: k in req.keys && k in d ==> Expired(d[k], now)
  }

  /** The contents agree with the reference on everything that is not expired. */
  predicate Agree(d: Data, m: Data, now: int) {
    && (forall k :: k in d ==> k in m && d[k] == m[k])
    && (forall k :: k in m && k !in d ==> Expired(m[k], now))
  }

  /** One request, at any later time: the same result, and still in agreement. */
  lemma ServeAgrees(d: Data, m: Data, req: Request, earlier: int, now: int)
    requires Agree(d, m, earlier) && earlier <= now && Allowed(d, req, now)
    ensures Serve(d, req, now).1 == Refer(m, req, now).1
    ensures Agree(Serve(d, req, now).0, Refer(m, req, now).0, now)
  {
  }

  // ---- runs ----

  datatype Event = Event(req: Request, now: int)

  /** The results of a run of the code. */
  function Results(d: Data, run: seq<Event>): (rs: seq<Result>)
    ensures |rs| == |run|
    decreases |run|
  {
    if run == [] then []
    else var (d', r) := Serve(d, run[0].req, run[0].now); [r] + Results(d', run[1..])
  }

  function ReferenceResults(m: Data, run: seq<Event>): (rs: seq<Result>)
    ensures |rs| == |run|
    decreases |run|
  {
    if run == [] then []
    else var (m', r) := Refer(m, run[0].req, run[0].now); [r] + ReferenceResults(m', run[1..])
  }

  /** The clock does not go back, and sweeps take only what has expired. */
  predicate Plausible(d: Data, run: seq<Event>, earlier: int)
    decreases |run|
  {
    run == [] ||
    (earlier <= run[0].now && Allowed(d, run[0].req, run[0].now)
     && Plausible(Serve(d, run[0].req, run[0].now).0, run[1..], run[0].now))
  }

  /** Over every run, from any common contents, the code answers like the reference: neither lazy nor active expiration
      can be observed. */
  lemma {:induction false} ExpirationUnobservable(d: Data, m: Data, run: seq<Event>, earlier: int)
    requires Agree(d, m, earlier) && Plausible(d, run, earlier)
    ensures Results(d, run) == ReferenceResults(m, run)
    decreases |run|
  {
    if run != [] {
      var (req, now) := (run[0].req, run[0].now);
      ServeAgrees(d, m, req, earlier, now);
      ExpirationUnobservable(Serve(d, req, now).0, Refer(m, req, now).0, run[1..], now);
    }
  }

  lemma {:induction false} ReferenceIgnoresSweep(m: Data, before: seq<Event>, sweep: Event, after: seq<Event>)
    requires sweep.req.Sweep?
    ensures var rs, n := ReferenceResults(m, before + after), |before|;
            ReferenceResults(m, before + [sweep] + after) == rs[..n] + [Done] + rs[n..]
    decreases |before|
  {
    if before == [] {
      assert before + [sweep] + after == [sweep] + after && before + after == after;
      assert ([sweep] + after)[1..] == after;
    } else {
      assert (before + [sweep] + after)[1..] == before[1..] + [sweep] + after;
      assert (before + after)[1..] == before[1..] + after;
      var m', r := Refer(m, before[0].req, before[0].now).0, Refer(m, before[0].req, before[0].now).1;
      ReferenceIgnoresSweep(m', before[1..], sweep, after);
      var rs := ReferenceResults(m', before[1..] + after);
      assert ReferenceResults(m, before + after) == [r] + rs;
      assert ([r] + rs)[..|before|] == [r] + rs[..|before| - 1] && ([r] + rs)[|before|..] == rs[|before| - 1..];
    }
  }

  /** A sweep in the middle of a run changes none of the other answers, whatever it takes. */
  lemma SweepUnobservable(d: Data, before: seq<Event>, sweep: Event, after: seq<Event>, start: int)
    requires sweep.req.Sweep?
    requires Plausible(d, before + after, start) && Plausible(d, before + [sweep] + after, start)
    ensures var rs, n := Results(d, before + after), |before|;
            Results(d, before + [sweep] + after) == rs[..n] + [Done] + rs[n..]
  {
    ExpirationUnobservable(d, d, before + after, start);
    ExpirationUnobservable(d, d, before + [sweep] + after, start);
    ReferenceIgnoresSweep(d, before, sweep, after);
  }
}
