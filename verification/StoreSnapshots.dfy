/** Snapshots there and back: the entries that a snapshot holds, written to disk, listed in any order and loaded into an
    empty store. */
module StoreSnapshots {
  import opened Options
  import opened StoreTypes
  import opened StoreSpec
  import opened Store
  import opened BTreeHeap
  import opened WalTypes
  import opened WalRecovery

  /** The entries of a map, each once, in whatever order. */
  predicate Lists(es: seq<(string, Entry)>, d: Data) {
    && (forall i :: 0 <= i < |es| ==> es[i].0 in d && d[es[i].0] == es[i].1)
    && (forall k :: k in d ==> !Absent(es, k))
    && NewKeys(map[], es)
  }

  method ListEntries(d: Data) returns (es: seq<(string, Entry)>)
    ensures Lists(es, d)
  {
    es := [];
    var todo := d.Keys;
    while todo != {}
      invariant todo <= d.Keys && Lists(es, d - todo)
      decreases |todo|
    {
      var k :| k in todo;
      ListsMore(es, d, todo, k);
      es := es + [(k, d[k])];
      todo := todo - {k};
    }
    assert d - {} == d;
  }

  lemma ListsMore(es: seq<(string, Entry)>, d: Data, todo: set<string>, k: string)
    requires k in todo && todo <= d.Keys && Lists(es, d - todo)
    ensures Lists(es + [(k, d[k])], d - (todo - {k}))
  {
    var more := es + [(k, d[k])];
    forall x | x in d - (todo - {k}) ensures !Absent(more, x) {
      if x == k {
        assert more[|es|].0 == x;
      } else {
        assert x in d - todo && !Absent(es, x);
        var i :| 0 <= i < |es| && es[i].0 == x;
        assert more[i].0 == x;
      }
    }
  }

  /** Loading a listing into an empty store gives back what was listed. */
  lemma ListedIsLoaded(es: seq<(string, Entry)>, d: Data)
    requires Lists(es, d)
    ensures Loaded(map[], es) == d
  {
    var m := Loaded(map[], es);
    forall k: string ensures (k in m <==> k in d) && (k in d ==> m[k] == d[k]) {
      if Absent(es, k) {
        LoadedOther(map[], es, k);
      } else {
        var i :| 0 <= i < |es| && es[i].0 == k;
        assert LastAt(es, i);
        LoadedLast(map[], es, i);
      }
    }
  }

  /** A snapshot taken at time `now`, whatever the order of its entries, brings back exactly the keys that were live then,
      each with its value and its expiry. */
  lemma SnapshotRoundTrip(d: Data, now: int, es: seq<(string, Entry)>, k: string)
    requires Lists(es, Snapshot(d, now))
    ensures var m := Loaded(map[], es); (k in m <==> Live(d, k, now)) && (k in m ==> m[k] == d[k])
  {
    ListedIsLoaded(es, Snapshot(d, now));
  }

  /** The first part of a recovery: a new store, loaded with the snapshot on disk. Replay goes on from these contents. */
  method LoadedStore(d: Disk) returns (s: CacheyStore)
    ensures fresh(s) && fresh(s.index) && fresh(Nodes(s.index.shape))
    ensures s.Valid() && s.Exact() && s.data == Start(d).data
  {
    var es := ListEntries(Start(d).data);
    s := new CacheyStore();
    s.ApplySnapshot(es);
    ListedIsLoaded(es, Start(d).data);
  }
}
