/** The writer as a state machine over its own fields and the two log files. Each function gives the new state, the new
    disk and the results sent to the callers. */
module WalWriterSpec {
  import opened Options
  import opened StoreTypes
  import opened WalTypes

  type Results = seq<(Mutation, Outcome)>

  function AddLine(f: Option<File>, rec: Rec): Option<File> {
    match f
    case None => Some(File([rec], Clean))
    case Some(file) => Some(file.(records := file.records + [rec]))
  }

  function Touch(f: Option<File>): Option<File> {
    if f.None? then Some(File([], Clean)) else f
  }

  /** Appends a record to the temporary or the active log, under the next index. */
  function Append(w: WriterState, d: Disk, m: Mutation, toTmp: bool): (WriterState, Disk, Results) {
    if !(if toTmp then w.tmpOpen else w.activeOpen) then (w, d, [(m, Busy)])
    else
      var i := w.lastIndex + 1;
      if toTmp
      then (w.(lastIndex := i, tmpCount := w.tmpCount + 1), d.(tmp := AddLine(d.tmp, Rec(i, m.op))), [(m, Written(i))])
      else (w.(lastIndex := i), d.(active := AddLine(d.active, Rec(i, m.op))), [(m, Written(i))])
  }

  /** Keeps a mutation for later, or refuses it when the queue is full. */
  function Hold(limits: Limits, w: WriterState, m: Mutation): (WriterState, Results) {
    if |w.hold| >= limits.hold then (w, [(m, Busy)]) else (w.(hold := w.hold + [m]), [])
  }

  function HandleMutation(limits: Limits, w: WriterState, d: Disk, m: Mutation): (WriterState, Disk, Results) {
    if w.mode == Rotating || (w.mode == Sealing && w.tmpCount >= limits.tmp) then
      var (w', rs) := Hold(limits, w, m); (w', d, rs)
    else Append(w, d, m, w.mode == Sealing)
  }

  /** `openOk` tells whether the file could be opened. */
  function HandleStartSealing(w: WriterState, d: Disk, id: nat, openOk: bool): (WriterState, Disk) {
    if id in w.answers then (w, d)
    else if w.mode != Idle then (w.(answers := w.answers[id := ControlResult(w.sealBoundary, 0)]), d)
    else if !openOk then (w, d)
    else
      (w.(mode := Sealing, sealBoundary := w.lastIndex, activeOpen := false, tmpOpen := true, tmpCount := 0,
          answers := w.answers[id := ControlResult(w.lastIndex, 0)]),
       d.(tmp := Touch(d.tmp)))
  }

  function HandleFinishRotation(w: WriterState, id: nat): WriterState {
    if id in w.answers then w
    else w.(mode := Rotating, tmpOpen := false, answers := w.answers[id := ControlResult(0, w.lastIndex)])
  }

  /** The first part of the handling of RotationComplete: back to the active log, with the held mutations in hand. */
  function Reopen(w: WriterState, d: Disk): (WriterState, Disk) {
    (w.(mode := Idle, activeOpen := true, hold := []), d.(active := Touch(d.active)))
  }

  /** Appends mutations to the active log, one after the other. */
  function Drain(w: WriterState, d: Disk, ms: seq<Mutation>): (WriterState, Disk, Results)
    decreases |ms|
  {
    if ms == [] then (w, d, [])
    else
      var (w1, d1, rs1) := Append(w, d, ms[0], false);
      var (w2, d2, rs2) := Drain(w1, d1, ms[1..]);
      (w2, d2, rs1 + rs2)
  }

  /** The last part: the answer is remembered. */
  function Conclude(w: WriterState, id: nat): WriterState {
    w.(answers := w.answers[id := ControlResult(0, 0)])
  }

  function HandleRotationComplete(w: WriterState, d: Disk, id: nat, openOk: bool): (WriterState, Disk, Results) {
    if id in w.answers || !openOk then (w, d, [])
    else
      var (w1, d1) := Reopen(w, d);
      var (w2, d2, rs) := Drain(w1, d1, w.hold);
      (Conclude(w2, id), d2, rs)
  }

  function Handle(limits: Limits, w: WriterState, d: Disk, msg: Message, openOk: bool): (WriterState, Disk, Results) {
    match msg
    case Mutate(m) => HandleMutation(limits, w, d, m)
    case StartSealing(id) => var (w', d') := HandleStartSealing(w, d, id, openOk); (w', d', [])
    case FinishRotation(id) => (HandleFinishRotation(w, id), d, [])
    case RotationComplete(id) => HandleRotationComplete(w, d, id, openOk)
  }

  /** The writer after a restart whose recovery found `last` as the last index. */
  function Opened(last: nat): WriterState {
    WriterState(Idle, last, 0, true, false, 0, [], map[])
  }
}
