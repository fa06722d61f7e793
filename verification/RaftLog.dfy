/** The replicated log in memory, with its compaction base. Entries up to the base are gone; a dummy entry with
    the term of the base stands in for them. `Full` is the log as if nothing had been compacted. */
module RaftLog {
  import opened Options
  import opened RaftTypes
  import RaftSpec

  class Log {
    var base: nat
    var entries: seq<Entry>
    ghost var discarded: seq<Entry>

    ghost predicate Valid()
      reads this
    {
      |entries| >= 1 && |discarded| == base && entries[0].term == RaftSpec.LastTerm(discarded)
    }

    ghost function Full(): seq<Entry>
      requires Valid()
      reads this
    {
      discarded + entries[1..]
    }

    constructor ()
      ensures Valid() && base == 0 && Full() == []
    {
      base, entries, discarded := 0, [Entry(0, None)], [];
    }

    function LastIndex(): (r: nat)
      requires Valid()
      reads this
      ensures r == |Full()|
    {
      base + |entries| - 1
    }

    function LastTerm(): (r: nat)
      requires Valid()
      reads this
      ensures r == RaftSpec.LastTerm(Full())
    {
      entries[|entries| - 1].term
    }

    function TermAt(i: nat): (r: nat)
      requires Valid() && base <= i <= LastIndex()
      reads this
      ensures r == RaftSpec.TermAt(Full(), i)
    {
      entries[i - base].term
    }

    function EntryAt(i: nat): (r: Entry)
      requires Valid() && base < i <= LastIndex()
      reads this
      ensures r == Full()[i - 1]
    {
      entries[i - base]
    }

    function Slice(from: nat): (r: seq<Entry>)
      requires Valid() && base < from <= LastIndex() + 1
      reads this
      ensures r == Full()[from - 1..]
    {
      entries[from - base..]
    }

    method Append(e: Entry)
      requires Valid()
      modifies this
      ensures Valid() && base == old(base) && Full() == old(Full()) + [e]
    {
      entries := entries + [e];
    }

    method Truncate(from: nat)
      requires Valid() && base < from <= LastIndex() + 1
      modifies this
      ensures Valid() && base == old(base) && Full() == old(Full())[..from - 1]
    {
      entries := entries[..from - base];
    }

    /** Places a recovered entry. Entries before the base are ignored. At the base itself, which no caller passes, the
        dummy is replaced and the whole tail dropped; the log stays valid only if the term agrees. */
    method Set(i: nat, e: Entry)
      requires Valid()
      modifies this`entries
      ensures i != base || e.term == old(entries[0].term) ==> Valid()
      ensures i < base ==> Full() == old(Full())
      ensures i == base ==> entries == [e] && (e.term == old(entries[0].term) ==> Full() == old(Full())[..base])
      ensures base < i <= |old(Full())| ==> Full() == old(Full())[..i - 1] + [e]
      ensures i > |old(Full())| && i != base ==> Full() == old(Full()) + [e]
    {
      if i < base { return; }
      if i < base + |entries| {
        entries := entries[..i - base];
      }
      entries := entries + [e];
    }

    /** Drops everything up to an index the log holds: the log as a whole does not change. */
    method Compact(lastIncluded: nat, lastIncludedTerm: nat)
      requires Valid() && base <= lastIncluded <= LastIndex()
      requires lastIncludedTerm == RaftSpec.TermAt(Full(), lastIncluded)
      modifies this
      ensures Valid() && base == lastIncluded && Full() == old(Full())
    {
      ghost var full := Full();
      if lastIncluded >= LastIndex() {
        entries := [Entry(lastIncludedTerm, None)];
      } else {
        entries := [Entry(lastIncludedTerm, None)] + entries[lastIncluded - base + 1..];
      }
      discarded := full[..lastIncluded];
      base := lastIncluded;
    }

    /** Replaces the log by a snapshot of `prefix`, of which only the last index and term are known. */
    method Reset(i: nat, t: nat, ghost prefix: seq<Entry>)
      requires |prefix| == i && RaftSpec.LastTerm(prefix) == t
      modifies this
      ensures Valid() && base == i && Full() == prefix
    {
      entries := [Entry(t, None)];
      discarded := prefix;
      base := i;
    }
  }
}
