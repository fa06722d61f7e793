/** The writer as an object. Its methods compute the functions of WalWriterSpec. */
module WalWriter {
  import opened Options
  import opened StoreTypes
  import opened WalTypes
  import S = WalWriterSpec

  class Writer {
    const limits: Limits
    var mode: Mode
    var lastIndex: nat
    var sealBoundary: nat
    var activeOpen: bool
    var tmpOpen: bool
    var tmpCount: nat
    var hold: seq<Mutation>
    var answers: map<nat, ControlResult>
    var disk: Disk

    function Abs(): WriterState
      reads this
    {
      WriterState(mode, lastIndex, sealBoundary, activeOpen, tmpOpen, tmpCount, hold, answers)
    }

    /** Opens the log after a recovery. */
    constructor (l: Limits, d: Disk, last: nat)
      ensures limits == l && Abs() == S.Opened(last) && disk == d.(active := S.Touch(d.active))
    {
      limits, mode, lastIndex, sealBoundary, activeOpen, tmpOpen := l, Idle, last, 0, true, false;
      tmpCount, hold, answers := 0, [], map[];
      disk := d.(active := S.Touch(d.active));
    }

    method Append(m: Mutation, toTmp: bool) returns (rs: S.Results)
      modifies this
      ensures (Abs(), disk, rs) == S.Append(old(Abs()), old(disk), m, toTmp)
    {
      var open := if toTmp then tmpOpen else activeOpen;
      if !open { return [(m, Busy)]; }
      lastIndex := lastIndex + 1;
      var rec := Rec(lastIndex, m.op);
      if toTmp {
        disk := disk.(tmp := S.AddLine(disk.tmp, rec));
        tmpCount := tmpCount + 1;
      } else {
        disk := disk.(active := S.AddLine(disk.active, rec));
      }
      return [(m, Written(lastIndex))];
    }

    method HoldMutation(m: Mutation) returns (rs: S.Results)
      modifies this
      ensures (Abs(), rs) == S.Hold(limits, old(Abs()), m) && disk == old(disk)
    {
      if |hold| >= limits.hold { return [(m, Busy)]; }
      hold := hold + [m];
      return [];
    }

    method HandleMutation(m: Mutation) returns (rs: S.Results)
      modifies this
      ensures (Abs(), disk, rs) == S.HandleMutation(limits, old(Abs()), old(disk), m)
    {
      match mode {
        case Rotating => rs := HoldMutation(m);
        case Sealing =>
          if tmpCount >= limits.tmp {
            rs := HoldMutation(m);
          } else {
            rs := Append(m, true);
          }
        case Idle => rs := Append(m, false);
      }
    }

    /** Acknowledges the boundary, unless the temporary log cannot be opened. */
    method HandleStartSealing(id: nat, openOk: bool) returns (ack: Option<nat>)
      modifies this
      ensures (Abs(), disk) == S.HandleStartSealing(old(Abs()), old(disk), id, openOk)
      ensures ack == if id in answers then Some(answers[id].boundary) else None
    {
      if id in answers { return Some(answers[id].boundary); }
      if mode == Sealing || mode == Rotating {
        answers := answers[id := ControlResult(sealBoundary, 0)];
        return Some(sealBoundary);
      }
      if !openOk { return None; }
      disk := disk.(tmp := S.Touch(disk.tmp));
      sealBoundary := lastIndex;
      activeOpen := false;
      tmpOpen := true;
      tmpCount := 0;
      mode := Sealing;
      answers := answers[id := ControlResult(sealBoundary, 0)];
      return Some(sealBoundary);
    }

    method HandleFinishRotation(id: nat) returns (ack: nat)
      modifies this
      ensures Abs() == S.HandleFinishRotation(old(Abs()), id) && disk == old(disk)
      ensures id in answers && ack == answers[id].lastTmp
    {
      if id in answers { return answers[id].lastTmp; }
      tmpOpen := false;
      mode := Rotating;
      answers := answers[id := ControlResult(0, lastIndex)];
      return lastIndex;
    }

    /** Returns to the active log and drains the held mutations before anything newer. */
    method HandleRotationComplete(id: nat, openOk: bool) returns (rs: S.Results)
      modifies this
      ensures (Abs(), disk, rs) == S.HandleRotationComplete(old(Abs()), old(disk), id, openOk)
    {
      rs := [];
      if id in answers { return; }
      if !openOk { return; }
      disk := disk.(active := S.Touch(disk.active));
      activeOpen := true;
      mode := Idle;
      var held := hold;
      hold := [];
      ghost var w1, d1 := Abs(), disk;
      ghost var target := S.Drain(w1, d1, held);
      var i := 0;
      assert held[0..] == held && rs + target.2 == target.2;
      while i < |held|
        invariant 0 <= i <= |held|
        invariant var rest := S.Drain(Abs(), disk, held[i..]); target == (rest.0, rest.1, rs + rest.2)
      {
        assert held[i..][0] == held[i] && held[i..][1..] == held[i + 1..];
        ghost var w2, d2, sofar := Abs(), disk, rs;
        var r := Append(held[i], false);
        ghost var rest := S.Drain(Abs(), disk, held[i + 1..]);
        assert S.Drain(w2, d2, held[i..]) == (rest.0, rest.1, r + rest.2);
        assert sofar + (r + rest.2) == sofar + r + rest.2;
        rs := rs + r;
        i := i + 1;
      }
      assert held[i..] == [] && rs + [] == rs;
      answers := answers[id := ControlResult(0, 0)];
    }
  }
}
