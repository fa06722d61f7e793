/** The store as an object: a map from keys to entries, and the B+Tree index over their expiries. The clock reading of
    an operation and the success of its write to the log are inputs. */
module Store {
  import opened Options
  import opened StoreTypes
  import opened StoreSpec
  import opened BTreeOrder
  import opened BTreeHeap
  import opened BPlusTree

  /** The (expiry, key) pairs of the entries that expire. */
  function Pairs(d: Data): set<Expiration> {
    set k | k in d && d[k].exp != 0 :: Expiration(k, d[k].exp)
  }

  /** The pair of one key, if it expires. */
  function PairOf(d: Data, k: string): set<Expiration> {
    if k in d && d[k].exp != 0 then {Expiration(k, d[k].exp)} else {}
  }

  lemma InPairs(d: Data, x: Expiration)
    ensures x in Pairs(d) <==> x.key in d && d[x.key].exp == x.exp != 0
  {
    if x.key in d && d[x.key].exp == x.exp != 0 { assert x == Expiration(x.key, d[x.key].exp); }
  }

  lemma PairsRemoved(d: Data, k: string)
    ensures Pairs(d - {k}) == Pairs(d) - PairOf(d, k) && PairOf(d, k) <= Pairs(d)
  {
    forall x ensures x in Pairs(d - {k}) <==> x in Pairs(d) - PairOf(d, k) {
      InPairs(d, x);
      InPairs(d - {k}, x);
    }
  }

  lemma PairsUpdated(d: Data, k: string, e: Entry)
    ensures Pairs(d[k := e]) == Pairs(d) - PairOf(d, k) + PairOf(d[k := e], k)
  {
    var d' := d[k := e];
    var before, after := Pairs(d) - PairOf(d, k) + PairOf(d', k), Pairs(d');
    forall x ensures x in after <==> x in before {
      InPairs(d, x);
      InPairs(d', x);
    }
  }

  /** Loading snapshot entries one by one. */
  function Loaded(d: Data, es: seq<(string, Entry)>): Data {
    if es == [] then d else Loaded(d, es[..|es| - 1])[es[|es| - 1].0 := es[|es| - 1].1]
  }

  /** No key is there already, and none is loaded twice. */
  predicate NewKeys(d: Data, es: seq<(string, Entry)>) {
    && (forall i :: 0 <= i < |es| ==> es[i].0 !in d)
    && (forall i, j :: 0 <= i < j < |es| ==> es[i].0 != es[j].0)
  }

  predicate Absent(es: seq<(string, Entry)>, k: string) {
    forall i :: 0 <= i < |es| ==> es[i].0 != k
  }

  /** The last entry for its key. */
  predicate LastAt(es: seq<(string, Entry)>, i: nat) {
    i < |es| && forall j :: i < j < |es| ==> es[j].0 != es[i].0
  }

  /** A key that is not loaded is as before. */
  lemma {:induction false} LoadedOther(d: Data, es: seq<(string, Entry)>, k: string)
    requires Absent(es, k)
    ensures (k in Loaded(d, es) <==> k in d) && (k in d ==> Loaded(d, es)[k] == d[k])
    decreases |es|
  {
    if es != [] { LoadedOther(d, es[..|es| - 1], k); }
  }

  /** A key that is loaded has the value and the expiry of its last entry. */
  lemma {:induction false} LoadedLast(d: Data, es: seq<(string, Entry)>, i: nat)
    requires LastAt(es, i)
    ensures es[i].0 in Loaded(d, es) && Loaded(d, es)[es[i].0] == es[i].1
    decreases |es|
  {
    if i < |es| - 1 {
      var front := es[..|es| - 1];
      assert LastAt(front, i) && front[i] == es[i];
      LoadedLast(d, front, i);
    }
  }

  class CacheyStore {
    var data: Data
    const index: Tree

    /** Every entry that expires is in the index. */
    ghost predicate Valid()
      reads this, index, Nodes(index.shape), Leaves(index.shape)
    {
      index.Valid() && Pairs(data) <= index.Set()
    }

    /** The index holds nothing else. */
    ghost predicate Exact()
      reads this, index
    {
      index.Set() == Pairs(data)
    }

    constructor ()
      ensures Valid() && Exact() && data == map[] && fresh(index) && fresh(Nodes(index.shape))
    {
      data := map[];
      index := new Tree();
    }

    /** Removes an entry that is still the expired one that was seen. */
    method ExpireKey(key: string, seen: Entry, now: int)
      requires Valid()
      modifies this, index, Nodes(index.shape)
      ensures Valid() && (old(Exact()) ==> Exact())
      ensures forall m :: m in Nodes(index.shape) ==> m in old(Nodes(index.shape)) || fresh(m)
      ensures data == if key in old(data) && old(data)[key].exp == seen.exp && Expired(old(data)[key], now)
                      then old(data) - {key} else old(data)
    {
      if key !in data || data[key].exp != seen.exp || !Expired(data[key], now) { return; }
      var entry := data[key];
      PairsRemoved(data, key);
      data := data - {key};
      var _ := index.Delete(entry.exp, key);
    }

    method Get(key: string, now: int) returns (r: Result)
      requires Valid()
      modifies this, index, Nodes(index.shape)
      ensures Valid() && (old(Exact()) ==> Exact())
      ensures forall m :: m in Nodes(index.shape) ==> m in old(Nodes(index.shape)) || fresh(m)
      ensures (data, r) == Serve(old(data), Request.Get(key), now)
    {
      if key !in data { return InvalidKey; }
      var entry := data[key];
      if Expired(entry, now) {
        ExpireKey(key, entry, now);
        return InvalidKey;
      }
      return Found(entry.value);
    }

    /** Stores a value and clears the key's expiry, once the record is durable. */
    method Put(key: string, value: string, now: int, logged: bool) returns (r: Option<Result>)
      requires Valid()
      modifies this, index, Nodes(index.shape)
      ensures Valid() && (old(Exact()) ==> Exact())
      ensures forall m :: m in Nodes(index.shape) ==> m in old(Nodes(index.shape)) || fresh(m)
      ensures if logged then r.Some? && (data, r.value) == Serve(old(data), Request.Put(key, value), now)
              else r.None? && data == old(data)
    {
      if !logged { return None; }
      PairsUpdated(data, key, Entry(value, 0));
      if key in data && data[key].exp != 0 {
        var _ := index.Delete(data[key].exp, key);
      }
      data := data[key := Entry(value, 0)];
      return Some(Done);
    }

    method DeleteLocked(key: string, now: int) returns (r: Result)
      requires Valid()
      modifies this, index, Nodes(index.shape)
      ensures Valid() && (old(Exact()) ==> Exact())
      ensures forall m :: m in Nodes(index.shape) ==> m in old(Nodes(index.shape)) || fresh(m)
      ensures (data, r) == Serve(old(data), Request.Delete(key), now)
    {
      if key !in data { return InvalidKey; }
      var entry := data[key];
      var expired := Expired(entry, now);
      PairsRemoved(data, key);
      data := data - {key};
      if entry.exp != 0 {
        var _ := index.Delete(entry.exp, key);
      }
      return if expired then InvalidKey else Done;
    }

    method Delete(key: string, now: int, logged: bool) returns (r: Option<Result>)
      requires Valid()
      modifies this, index, Nodes(index.shape)
      ensures Valid() && (old(Exact()) ==> Exact())
      ensures forall m :: m in Nodes(index.shape) ==> m in old(Nodes(index.shape)) || fresh(m)
      ensures if logged || key !in old(data)
              then r.Some? && (data, r.value) == Serve(old(data), Request.Delete(key), now)
              else r.None? && data == old(data)
    {
      if key !in data { return Some(InvalidKey); }
      if !logged { return None; }
      var res := DeleteLocked(key, now);
      return Some(res);
    }

    /** Takes the pair of a key out of the index. */
    method DropPair(key: string)
      requires index.Valid()
      modifies index, Nodes(index.shape)
      ensures index.Valid() && index.Set() == old(index.Set()) - PairOf(data, key)
      ensures forall m :: m in Nodes(index.shape) ==> m in old(Nodes(index.shape)) || fresh(m)
    {
      if key in data && data[key].exp != 0 {
        var _ := index.Delete(data[key].exp, key);
      }
    }

    /** Sets an absolute expiry. The index stays exact unless the expiry is 0, which means none. */
    method TtlAtLocked(key: string, exp: int, now: int) returns (r: Result)
      requires Valid()
      modifies this, index, Nodes(index.shape)
      ensures Valid() && (old(Exact()) && exp != 0 ==> Exact())
      ensures forall m :: m in Nodes(index.shape) ==> m in old(Nodes(index.shape)) || fresh(m)
      ensures (data, r) == Serve(old(data), SetTtl(key, exp - now), now) && data == TtlAt(old(data), key, exp, now)
    {
      if key !in data { return InvalidKey; }
      var entry := data[key];
      PairsRemoved(data, key);
      PairsUpdated(data, key, entry.(exp := exp));
      DropPair(key);
      if Expired(entry, now) {
        data := data - {key};
        return InvalidKey;
      }
      data := data[key := entry.(exp := exp)];
      index.Insert(exp, key);
      return Done;
    }

    method TTL(key: string, ttl: int, now: int, logged: bool) returns (r: Option<Result>)
      requires Valid()
      modifies this, index, Nodes(index.shape)
      ensures Valid() && (old(Exact()) && now + ttl != 0 ==> Exact())
      ensures forall m :: m in Nodes(index.shape) ==> m in old(Nodes(index.shape)) || fresh(m)
      ensures if logged || key !in old(data)
              then r.Some? && (data, r.value) == Serve(old(data), SetTtl(key, ttl), now)
              else r.None? && data == old(data)
    {
      if key !in data { return Some(InvalidKey); }
      var exp := now + ttl;
      if !logged { return None; }
      var res := TtlAtLocked(key, exp, now);
      return Some(res);
    }

    /** Replays one record of the log. */
    method ApplyRecord(op: Op, now: int)
      requires Valid()
      modifies this, index, Nodes(index.shape)
      ensures Valid() && (old(Exact()) && !(op.Ttl? && op.exp == 0) ==> Exact())
      ensures forall m :: m in Nodes(index.shape) ==> m in old(Nodes(index.shape)) || fresh(m)
      ensures data == StoreTypes.ApplyRecord(old(data), op, now)
    {
      match op {
        case Put(k, v) => var _ := this.Put(k, v, now, true);
        case Del(k) => var _ := DeleteLocked(k, now);
        case Ttl(k, exp) => var _ := TtlAtLocked(k, exp, now);
        case _ =>
      }
    }

    method LoadEntry(key: string, e: Entry)
      requires Valid()
      modifies this, index, Nodes(index.shape)
      ensures Valid() && (old(Exact()) && key !in old(data) ==> Exact()) && data == old(data)[key := e]
      ensures forall m :: m in Nodes(index.shape) ==> m in old(Nodes(index.shape)) || fresh(m)
    {
      PairsUpdated(data, key, e);
      data := data[key := e];
      if e.exp != 0 {
        index.Insert(e.exp, key);
      }
    }

    /** Loads a snapshot. The index stays exact when the snapshot brings only new keys. */
    method ApplySnapshot(es: seq<(string, Entry)>)
      requires Valid()
      modifies this, index, Nodes(index.shape)
      ensures Valid() && (old(Exact()) && NewKeys(old(data), es) ==> Exact())
      ensures forall m :: m in Nodes(index.shape) ==> m in old(Nodes(index.shape)) || fresh(m)
      ensures data == Loaded(old(data), es)
      ensures forall i: nat :: LastAt(es, i) ==> es[i].0 in data && data[es[i].0] == es[i].1
      ensures forall k :: Absent(es, k) ==> (k in data <==> k in old(data)) && (k in data ==> data[k] == old(data)[k])
    {
      var i := 0;
      while i < |es|
        invariant 0 <= i <= |es| && data == Loaded(old(data), es[..i])
        invariant Valid() && (old(Exact()) && NewKeys(old(data), es) ==> Exact())
        invariant forall m :: m in Nodes(index.shape) ==> m in old(Nodes(index.shape)) || fresh(m)
      {
        assert es[..i + 1][..i] == es[..i];
        if NewKeys(old(data), es) { LoadedOther(old(data), es[..i], es[i].0); }
        LoadEntry(es[i].0, es[i].1);
        i := i + 1;
      }
      assert es[..i] == es;
      forall i: nat | LastAt(es, i) ensures es[i].0 in data && data[es[i].0] == es[i].1 { LoadedLast(old(data), es, i); }
      forall k | Absent(es, k)
        ensures (k in data <==> k in old(data)) && (k in data ==> data[k] == old(data)[k])
      {
        LoadedOther(old(data), es, k);
      }
    }

    /** The live entries, for a snapshot. */
    method TakeSnapshot(now: int) returns (out: Data)
      requires Valid()
      ensures out == Snapshot(data, now)
    {
      out := map[];
      var todo := data.Keys;
      while todo != {}
        invariant todo <= data.Keys
        invariant out == map k | k in data && k !in todo && !Expired(data[k], now) :: data[k]
        decreases |todo|
      {
        var k :| k in todo;
        todo := todo - {k};
        if !Expired(data[k], now) {
          out := out[k := data[k]];
        }
      }
    }

    /** One round of the clean-up: the entry goes if it is still the expired one, its index entry goes in any case. */
    method SweepOne(e: Expiration, now: int) returns (stillExpired: bool)
      requires Valid() && e in index.Set() && e.exp <= now
      modifies this, index, Nodes(index.shape)
      ensures Valid() && (old(Exact()) ==> Exact())
      ensures forall m :: m in Nodes(index.shape) ==> m in old(Nodes(index.shape)) || fresh(m)
      ensures stillExpired == (e.key in old(data) && old(data)[e.key].exp == e.exp && Expired(old(data)[e.key], now))
      ensures data == if stillExpired then old(data) - {e.key} else old(data)
      ensures |index.Set()| < old(|index.Set()|)
    {
      stillExpired := e.key in data && data[e.key].exp == e.exp && Expired(data[e.key], now);
      PairsRemoved(data, e.key);
      if stillExpired {
        data := data - {e.key};
      }
      var _ := index.Delete(e.exp, e.key);
    }

    /** The first index entry whose time has come; if there is none, nothing has expired. */
    method FirstExpired(now: int) returns (e: Option<Expiration>)
      requires Valid()
      ensures Valid() && (e.Some? ==> e.value in index.Set() && e.value.exp <= now)
      ensures e.None? ==> forall k :: k in data ==> !Expired(data[k], now)
    {
      e := index.First();
      if e.None? || e.value.exp > now {
        NothingExpired(data, index.Set(), e, now);
        return None;
      }
    }

    /** Removes up to `limit` expired entries, soonest first. Entries of the index that no longer belong to anything are
        dropped on the way without counting; each round shrinks the index, so the loop ends. */
    method CleanupExpired(limit: nat, now: int) returns (removed: nat)
      requires Valid()
      modifies this, index, Nodes(index.shape)
      ensures Valid() && (old(Exact()) ==> Exact())
      ensures removed <= limit && data.Keys <= old(data).Keys && removed == |old(data)| - |data|
      ensures Allowed(old(data), Sweep(old(data).Keys - data.Keys), now)
      ensures (data, Done) == Serve(old(data), Sweep(old(data).Keys - data.Keys), now)
      ensures removed < limit ==> forall k :: k in data ==> !Expired(data[k], now)
    {
      removed := 0;
      while removed < limit
        invariant Valid() && (old(Exact()) ==> Exact())
        invariant forall m :: m in Nodes(index.shape) ==> m in old(Nodes(index.shape)) || fresh(m)
        invariant removed <= limit && Swept(old(data), data, now) && removed == |old(data)| - |data|
        decreases |index.Set()|
      {
        var e := FirstExpired(now);
        if e.None? { break; }
        var stillExpired := SweepOne(e.value, now);
        if stillExpired {
          removed := removed + 1;
        }
      }
      SweptIsSweep(old(data), data, now);
    }
  }

  /** `d` without some of its expired entries. */
  predicate Swept(d: Data, d': Data, now: int) {
    d'.Keys <= d.Keys && forall k :: k in d ==> if k in d' then d'[k] == d[k] else Expired(d[k], now)
  }

  lemma SweptIsSweep(d: Data, d': Data, now: int)
    requires Swept(d, d', now)
    ensures d' == d - (d.Keys - d'.Keys) && Allowed(d, Sweep(d.Keys - d'.Keys), now)
  {
  }

  /** When the first entry of the index is still to come, nothing in the data has expired. */
  lemma NothingExpired(d: Data, s: set<Expiration>, first: Option<Expiration>, now: int)
    requires Pairs(d) <= s
    requires first.None? ==> s == {}
    requires first.Some? ==> first.value.exp > now && forall x :: x in s ==> x == first.value || Less(first.value, x)
    ensures forall k :: k in d ==> !Expired(d[k], now)
  {
    forall k | k in d ensures !Expired(d[k], now) {
      if d[k].exp != 0 { assert Expiration(k, d[k].exp) in Pairs(d); }
    }
  }
}
