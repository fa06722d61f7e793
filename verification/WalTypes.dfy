/** The write-ahead log: its files, the messages of its channel and the state of its writer. */
module WalTypes {
  import opened Options
  import opened StoreTypes

  datatype Rec = Rec(index: nat, op: Op)

  /** How a log file ends: after a newline, in an unreadable partial line, or in a whole record without its newline. */
  datatype Tail = Clean | Torn | Unframed(rec: Rec)

  datatype File = File(records: seq<Rec>, tail: Tail)

  /** A snapshot, labelled with the boundary index it was taken for. */
  datatype SnapshotFile = SnapshotFile(last: nat, data: Data)

  datatype Disk = Disk(snapshot: Option<SnapshotFile>, snapshotTmp: Option<SnapshotFile>,
                       active: Option<File>, tmp: Option<File>, rebuild: Option<File>)

  /** A request of the store, named by the number of its result channel. */
  datatype Mutation = Mutation(id: nat, op: Op)

  datatype Outcome = Written(index: nat) | Busy

  datatype Message =
    | Mutate(m: Mutation)
    | StartSealing(id: nat)
    | FinishRotation(id: nat)
    | RotationComplete(id: nat)

  datatype Mode = Idle | Sealing | Rotating

  datatype ControlResult = ControlResult(boundary: nat, lastTmp: nat)

  datatype Limits = Limits(tmp: nat, hold: nat)

  datatype WriterState = WriterState(mode: Mode, lastIndex: nat, sealBoundary: nat, activeOpen: bool, tmpOpen: bool,
                                     tmpCount: nat, hold: seq<Mutation>, answers: map<nat, ControlResult>)
}
