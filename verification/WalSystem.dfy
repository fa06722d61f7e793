/** The process around the log as a transition system: clients of the store, the writer, the rotation manager, crashes
    at any point and the steps of recovery. Every step has at most one durable effect. */
module WalSystem {
  import opened Options
  import opened StoreTypes
  import opened WalTypes
  import opened WalWriterSpec
  import opened WalRecovery
  import opened WalReplay

  /** Where the manager stands in its rotation cycle. */
  datatype Progress =
    | Resting
    | AwaitSeal(id: nat)
    | Sealed(boundary: nat)
    | Captured(boundary: nat, data: Data)
    | Stored(boundary: nat)
    | Published
    | AwaitFinish(id: nat)
    | Finished
    | Renamed
    | AwaitComplete(id: nat)

  /** A RotationComplete being handled: the mutations still to be appended. */
  datatype Draining = Draining(id: nat, rest: seq<Mutation>)

  /** The running process. `client` is the mutation whose caller holds the store's lock and waits. */
  datatype Live = Live(w: WriterState, drain: Option<Draining>, queue: seq<Message>, nextId: nat, progress: Progress,
                       client: Option<Mutation>, results: map<nat, Outcome>, requests: nat, mem: Data)

  datatype Stage =
    | Cleaning
    | Loading
    | ReplayingActive(last: nat, data: Data)
    | ReplayingTmp(last: nat, data: Data)
    | Rebuilding(last: nat, data: Data)
    | Swapping(last: nat, data: Data)
    | Dropping(last: nat, data: Data)
    | Ready(last: nat, data: Data)

  datatype Process = Booting(stage: Stage) | Failed(error: Error) | Up(live: Live)

  datatype System = System(disk: Disk, process: Process)

  datatype Config = Config(limits: Limits, horizon: int)

  /** What a crash leaves of the line that was being written. */
  datatype Leftover = NoLine | TornLine | UnframedLine

  datatype Action =
    | Submit(op: Op)
    | Deliver(now: int)
    | Abandon
    | Write(openOk: bool)
    | DrainOne
    | DrainDone
    | SendSeal
    | Resend
    | TakeAck
    | Capture(now: int)
    | Store
    | Publish
    | SendFinish
    | RenameLog
    | SendComplete
    | GiveUp
    | Boot(now: int)
    | Crash(line: Leftover, snapshotTmp: Option<SnapshotFile>, rebuild: Option<File>)

  function Init(): System {
    System(Disk(None, None, None, None, None), Booting(Cleaning))
  }

  /** The append the writer is about to make, if any: the mutation and whether it goes to the temporary log. */
  function NextAppend(limits: Limits, l: Live): Option<(Mutation, bool)> {
    match l.drain
    case Some(dr) => if dr.rest == [] then None else Some((dr.rest[0], false))
    case None =>
      if l.queue == [] || !l.queue[0].Mutate? then None
      else if l.w.mode == Rotating || (l.w.mode == Sealing && l.w.tmpCount >= limits.tmp) then None
      else Some((l.queue[0].m, l.w.mode == Sealing))
  }

  /** A control message may be answered once its handling has begun. */
  predicate Answered(l: Live, id: nat) {
    id in l.w.answers || (l.drain.Some? && l.drain.value.id == id)
  }

  predicate EnabledLive(c: Config, l: Live, a: Action) {
    match a
    case Submit(op) => l.client.None? && !op.Membership? && Lasting(op, c.horizon)
    case Deliver(now) => l.client.Some? && l.client.value.id in l.results && now <= c.horizon
    case Abandon => l.client.Some?
    case Write(_) => l.drain.None? && l.queue != []
    case DrainOne => l.drain.Some? && l.drain.value.rest != []
    case DrainDone => l.drain.Some? && l.drain.value.rest == []
    case SendSeal => l.progress.Resting?
    case Resend => l.progress.AwaitSeal? || l.progress.AwaitFinish? || l.progress.AwaitComplete?
    case TakeAck => (l.progress.AwaitSeal? || l.progress.AwaitFinish? || l.progress.AwaitComplete?)
                    && l.progress.id in l.w.answers
    case Capture(now) => l.progress.Sealed? && l.client.None? && now <= c.horizon
    case Store => l.progress.Captured?
    case Publish => l.progress.Stored?
    case SendFinish => l.progress.Published?
    case RenameLog => l.progress.Finished?
    case SendComplete => l.progress.Renamed?
    case GiveUp => true
    case Crash(line, _, _) => line.NoLine? || NextAppend(c.limits, l).Some?
    case Boot(_) => false
  }

  predicate Enabled(c: Config, s: System, a: Action) {
    match s.process
    case Up(l) => EnabledLive(c, l, a)
    case Booting(_) => (a.Boot? && a.now <= c.horizon) || (a.Crash? && a.line.NoLine?)
    case Failed(_) => false
  }

  // ---- the running process ----

  function Post(results: map<nat, Outcome>, rs: Results): map<nat, Outcome>
    decreases |rs|
  {
    if rs == [] then results else Post(results[rs[0].0.id := rs[0].1], rs[1..])
  }

  /** The writer takes the first message off the channel. */
  function WriteStep(c: Config, d: Disk, l: Live, openOk: bool): (Disk, Live)
    requires l.queue != []
  {
    var msg, l1 := l.queue[0], l.(queue := l.queue[1..]);
    match msg
    case Mutate(m) =>
      var (w, d', rs) := HandleMutation(c.limits, l.w, d, m);
      (d', l1.(w := w, results := Post(l.results, rs)))
    case StartSealing(id) => var (w, d') := HandleStartSealing(l.w, d, id, openOk); (d', l1.(w := w))
    case FinishRotation(id) => (d, l1.(w := HandleFinishRotation(l.w, id)))
    case RotationComplete(id) =>
      if id in l.w.answers || !openOk then (d, l1)
      else var (w, d') := Reopen(l.w, d); (d', l1.(w := w, drain := Some(Draining(id, l.w.hold))))
  }

  /** One round of the loop over the held mutations. */
  function DrainStep(d: Disk, l: Live): (Disk, Live)
    requires l.drain.Some? && l.drain.value.rest != []
  {
    var dr := l.drain.value;
    var (w, d', rs) := Append(l.w, d, dr.rest[0], false);
    (d', l.(w := w, drain := Some(dr.(rest := dr.rest[1..])), results := Post(l.results, rs)))
  }

  function DeliverStep(l: Live, now: int): Live
    requires l.client.Some? && l.client.value.id in l.results
  {
    var m := l.client.value;
    if l.results[m.id].Written? then l.(client := None, mem := ApplyRecord(l.mem, m.op, now)) else l.(client := None)
  }

  function Send(l: Live, msg: Message): Live {
    l.(queue := l.queue + [msg])
  }

  function Current(p: Progress): Message
    requires p.AwaitSeal? || p.AwaitFinish? || p.AwaitComplete?
  {
    match p
    case AwaitSeal(id) => StartSealing(id)
    case AwaitFinish(id) => FinishRotation(id)
    case AwaitComplete(id) => RotationComplete(id)
  }

  function FreshId(l: Live): nat {
    l.nextId + 1
  }

  /** The manager opens a round trip with a new control ID. */
  function SendNew(l: Live, p: Progress): Live
    requires p.AwaitSeal? || p.AwaitFinish? || p.AwaitComplete?
  {
    Send(l.(nextId := FreshId(l), progress := p), Current(p))
  }

  function AckStep(l: Live): Live
    requires l.progress.AwaitSeal? || l.progress.AwaitFinish? || l.progress.AwaitComplete?
    requires l.progress.id in l.w.answers
  {
    match l.progress
    case AwaitSeal(id) => l.(progress := Sealed(l.w.answers[id].boundary))
    case AwaitFinish(_) => l.(progress := Finished)
    case AwaitComplete(_) => l.(progress := Resting)
  }

  /** The rename of the temporary log; nothing to do when it is gone already. */
  function Rotate(d: Disk): Disk {
    if d.tmp.None? then d else d.(active := d.tmp, tmp := None)
  }

  function ActLive(c: Config, d: Disk, l: Live, a: Action): (Disk, Live)
    requires EnabledLive(c, l, a) && !a.Crash?
  {
    match a
    case Submit(op) =>
      var m := Mutation(l.requests, op);
      (d, Send(l.(client := Some(m), requests := l.requests + 1), Mutate(m)))
    case Deliver(now) => (d, DeliverStep(l, now))
    case Abandon => (d, l.(client := None))
    case Write(openOk) => WriteStep(c, d, l, openOk)
    case DrainOne => DrainStep(d, l)
    case DrainDone => (d, l.(w := Conclude(l.w, l.drain.value.id), drain := None))
    case SendSeal => (d, SendNew(l, AwaitSeal(FreshId(l))))
    case Resend => (d, Send(l, Current(l.progress)))
    case TakeAck => (d, AckStep(l))
    case Capture(now) => (d, l.(progress := Captured(l.progress.boundary, Snapshot(l.mem, now))))
    case Store =>
      (d.(snapshotTmp := Some(SnapshotFile(l.progress.boundary, l.progress.data))),
       l.(progress := Stored(l.progress.boundary)))
    case Publish => (d.(snapshot := d.snapshotTmp, snapshotTmp := None), l.(progress := Published))
    case SendFinish => (d, SendNew(l, AwaitFinish(FreshId(l))))
    case RenameLog => (Rotate(d), l.(progress := Renamed))
    case SendComplete => (d, SendNew(l, AwaitComplete(FreshId(l))))
    case GiveUp => (d, l.(progress := Resting))
  }

  // ---- crashes and recovery ----

  function Spoil(f: Option<File>, tail: Tail): Option<File> {
    if f.None? then Some(File([], tail)) else Some(f.value.(tail := tail))
  }

  /** The disk as a crash leaves it. Files that are never read may hold anything. */
  function Crashed(c: Config, d: Disk, p: Process, a: Action): Disk
    requires a.Crash? && (a.line.NoLine? || (p.Up? && NextAppend(c.limits, p.live).Some?))
  {
    var d1 := d.(snapshotTmp := a.snapshotTmp, rebuild := a.rebuild);
    if a.line.NoLine? then d1
    else
      var (m, toTmp) := NextAppend(c.limits, p.live).value;
      var tail := if a.line.TornLine? then Torn else Unframed(Rec(p.live.w.lastIndex + 1, m.op));
      if toTmp then d1.(tmp := Spoil(d.tmp, tail)) else d1.(active := Spoil(d.active, tail))
  }

  function FirstLive(last: nat, data: Data): Live {
    Live(Opened(last), None, [], 0, Resting, None, map[], 0, data)
  }

  function BootStep(s: System, now: int): System
    requires s.process.Booting?
  {
    var d := s.disk;
    match s.process.stage
    case Cleaning => System(d.(snapshotTmp := None), Booting(Loading))
    case Loading => System(d, Booting(ReplayingActive(Start(d).last, Start(d).data)))
    case ReplayingActive(last, data) =>
      var r := ReplayAll(last, data, Records(d.active), now);
      if r.Err? then System(d, Failed(r.error))
      else System(d.(active := Repaired(d.active)), Booting(ReplayingTmp(r.last, r.data)))
    case ReplayingTmp(last, data) =>
      if d.tmp.None? then System(d, Booting(Ready(last, data)))
      else
        var r := ReplayAll(last, data, Records(d.tmp), now);
        if r.Err? then System(d, Failed(r.error))
        else System(d.(tmp := Repaired(d.tmp)), Booting(Rebuilding(r.last, r.data)))
    case Rebuilding(last, data) =>
      System(d.(rebuild := Some(File(Records(d.active) + Records(d.tmp), Clean))), Booting(Swapping(last, data)))
    case Swapping(last, data) => System(d.(active := d.rebuild, rebuild := None), Booting(Dropping(last, data)))
    case Dropping(last, data) => System(d.(tmp := None), Booting(Ready(last, data)))
    case Ready(last, data) => System(d.(active := Touch(d.active)), Up(FirstLive(last, data)))
  }

  function Step(c: Config, s: System, a: Action): System
    requires Enabled(c, s, a)
  {
    if a.Crash? then System(Crashed(c, s.disk, s.process, a), Booting(Cleaning))
    else if s.process.Booting? then BootStep(s, a.now)
    else var (d, l) := ActLive(c, s.disk, s.process.live, a); System(d, Up(l))
  }
}
