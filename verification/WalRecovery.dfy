/** Recovery: replay of the snapshot and the log files into an empty store, repair of a partial last line, and the
    merge of a leftover temporary log into the active one. */
module WalRecovery {
  import opened Options
  import opened StoreTypes
  import opened WalTypes

  datatype Error = UnknownOp | Gap(got: nat, want: nat)

  datatype Replay = Ok(last: nat, data: Data) | Err(error: Error)

  /** Validates one record and applies it unless the state covers it already. */
  function ReplayOne(last: nat, data: Data, rec: Rec, now: int): Replay {
    if rec.op.Membership? then Err(UnknownOp)
    else if rec.index > last + 1 then Err(Gap(rec.index, last + 1))
    else if rec.index == last + 1 then Ok(rec.index, ApplyRecord(data, rec.op, now))
    else Ok(last, data)
  }

  function ReplayAll(last: nat, data: Data, recs: seq<Rec>, now: int): Replay
    decreases |recs|
  {
    if recs == [] then Ok(last, data)
    else
      var before := ReplayAll(last, data, recs[..|recs| - 1], now);
      if before.Err? then before else ReplayOne(before.last, before.data, recs[|recs| - 1], now)
  }

  /** The whole records of a file, with or without their newline. */
  function Records(f: Option<File>): seq<Rec> {
    match f
    case None => []
    case Some(file) => file.records + (if file.tail.Unframed? then [file.tail.rec] else [])
  }

  /** The file once its last line has been cut off or framed. */
  function Repaired(f: Option<File>): Option<File> {
    if f.None? then None else Some(File(Records(f), Clean))
  }

  function Start(d: Disk): Replay {
    match d.snapshot
    case None => Ok(0, map[])
    case Some(snap) => Ok(snap.last, snap.data)
  }

  /** The disk after the merge of a leftover temporary log. */
  function Merged(d: Disk): Disk {
    if d.tmp.None? then d
    else d.(active := Some(File(Records(d.active) + Records(d.tmp), Clean)), tmp := None, rebuild := None)
  }

  /** The whole recovery, when it is not interrupted. */
  function Recovered(d: Disk, now: int): Replay {
    var base := Start(d);
    var first := ReplayAll(base.last, base.data, Records(d.active), now);
    if first.Err? then first else ReplayAll(first.last, first.data, Records(d.tmp), now)
  }

  lemma {:induction false} ReplayConcat(last: nat, data: Data, a: seq<Rec>, b: seq<Rec>, now: int)
    ensures var first := ReplayAll(last, data, a, now);
            ReplayAll(last, data, a + b, now) ==
            if first.Err? then first else ReplayAll(first.last, first.data, b, now)
    decreases |b|
  {
    if b == [] {
      assert a + b == a;
    } else {
      assert (a + b)[..|a + b| - 1] == a + b[..|b| - 1] && (a + b)[|a + b| - 1] == b[|b| - 1];
      ReplayConcat(last, data, a, b[..|b| - 1], now);
    }
  }

  class Volume {
    var disk: Disk

    constructor (d: Disk)
      ensures disk == d
    {
      disk := d;
    }

    /** The loop over the complete lines of a file. */
    method ReplayLines(recs: seq<Rec>, last: nat, data: Data, now: int) returns (r: Replay)
      ensures r == ReplayAll(last, data, recs, now)
    {
      r := Ok(last, data);
      var i := 0;
      while i < |recs|
        invariant 0 <= i <= |recs| && r == ReplayAll(last, data, recs[..i], now) && r.Ok?
      {
        assert recs[..i + 1][..i] == recs[..i];
        r := ReplayOne(r.last, r.data, recs[i], now);
        if r.Err? {
          assert recs == recs[..i + 1] + recs[i + 1..];
          ReplayConcat(last, data, recs[..i + 1], recs[i + 1..], now);
          return;
        }
        i := i + 1;
      }
      assert recs[..i] == recs;
    }

    /** Replays one file and repairs its end; a file that fails validation is left alone. */
    method ReplayFile(f: File, last: nat, data: Data, now: int) returns (r: Replay, fixed: File)
      ensures r == ReplayAll(last, data, Records(Some(f)), now)
      ensures fixed == if r.Ok? then Repaired(Some(f)).value else f
    {
      fixed := f;
      r := ReplayLines(f.records, last, data, now);
      if r.Err? {
        if f.tail.Unframed? { ReplayConcat(last, data, f.records, [f.tail.rec], now); }
        assert f.records + [] == f.records;
        return;
      }
      match f.tail {
        case Clean => assert f.records + [] == f.records;
        case Torn =>
          fixed := File(f.records, Clean);
          assert f.records + [] == f.records;
        case Unframed(rec) =>
          ReplayConcat(last, data, f.records, [rec], now);
          assert [rec][..0] == [] && [rec][0] == rec;
          r := ReplayOne(r.last, r.data, rec, now);
          if r.Ok? { fixed := File(f.records + [rec], Clean); }
      }
    }

    /** Merges both logs into a fresh active log: write a side file, rename it into place, remove the temporary log. */
    method RebuildActive()
      requires disk.tmp.Some?
      modifies this
      ensures disk == Merged(old(disk))
    {
      var copy := Records(disk.active);
      copy := copy + Records(disk.tmp);
      disk := disk.(rebuild := Some(File(copy, Clean)));
      disk := disk.(active := disk.rebuild, rebuild := None);
      disk := disk.(tmp := None);
    }

    method Recover(now: int) returns (r: Replay)
      modifies this
      ensures r == Recovered(old(disk), now)
      ensures r.Ok? ==> disk == Merged(old(disk).(snapshotTmp := None, active := Repaired(old(disk).active),
                                                  tmp := Repaired(old(disk).tmp)))
    {
      disk := disk.(snapshotTmp := None);
      var last, data := 0, map[];
      if disk.snapshot.Some? {
        last, data := disk.snapshot.value.last, disk.snapshot.value.data;
      }
      r := Ok(last, data);
      if disk.active.Some? {
        var fixed;
        r, fixed := ReplayFile(disk.active.value, last, data, now);
        if r.Err? { return; }
        disk := disk.(active := Some(fixed));
      }
      var existed := disk.tmp.Some?;
      if existed {
        var fixed;
        r, fixed := ReplayFile(disk.tmp.value, r.last, r.data, now);
        if r.Err? { return; }
        disk := disk.(tmp := Some(fixed));
        RebuildActive();
      }
    }
  }
}
