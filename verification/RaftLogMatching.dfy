/** Log matching and its consequences for a follower: the merged log is its own log or the leader's, and
    the records written before acknowledging rebuild exactly that log. */
module RaftLogMatching {
  import opened Options
  import opened RaftTypes
  import opened RaftSpec
  import opened RaftSystem
  import opened RaftHistory

  /** Two sound logs that agree on the term at an index agree up to it. */
  lemma LogsMatch(h: History, a: seq<Entry>, b: seq<Entry>, i: nat)
    requires Sound(h, a) && Sound(h, b) && i < |a| && i < |b| && a[i].term == b[i].term
    ensures a[..i + 1] == b[..i + 1]
  {
    assert SoundAt(h, a, i) && SoundAt(h, b, i);
  }

  lemma SoundPrefix(h: History, log: seq<Entry>, n: nat)
    requires Sound(h, log) && n <= |log|
    ensures Sound(h, log[..n])
  {
    forall i | 0 <= i < n ensures SoundAt(h, log[..n], i) {
      assert SoundAt(h, log, i);
      assert log[..n][..i + 1] == log[..i + 1];
    }
  }

  /** `es` is what the log `r` holds after `prev`, and `log` agrees with `r` at `prev`. */
  ghost predicate Fits(h: History, log: seq<Entry>, r: seq<Entry>, prev: nat, es: seq<Entry>) {
    && Sound(h, log) && Sound(h, r)
    && prev <= |log| && prev + |es| <= |r| && es == r[prev..prev + |es|]
    && (prev > 0 ==> log[prev - 1].term == r[prev - 1].term)
  }

  /** As far as the terms match, the logs are the same. */
  lemma MatchedPart(h: History, log: seq<Entry>, r: seq<Entry>, prev: nat, es: seq<Entry>, i: nat)
    requires Fits(h, log, r, prev, es) && i <= |es| && prev + i <= |log|
    requires i > 0 ==> log[prev + i - 1].term == es[i - 1].term
    ensures log[..prev + i] == r[..prev + i]
  {
    if i > 0 {
      LogsMatch(h, log, r, prev + i - 1);
    } else if prev > 0 {
      LogsMatch(h, log, r, prev - 1);
    }
  }

  lemma MergeIsPrefix(h: History, log: seq<Entry>, r: seq<Entry>, prev: nat, es: seq<Entry>)
    requires Fits(h, log, r, prev, es)
    ensures var k := MatchLength(log, prev, es);
            && log[..prev + k] == r[..prev + k]
            && Merged(log, prev, es) == (if k == |es| then log else r[..prev + |es|])
    ensures r[..prev + |es|] <= Merged(log, prev, es)
  {
    var k := MatchLength(log, prev, es);
    MatchedPart(h, log, r, prev, es, k);
    Splice(log, r, prev, es, k);
  }

  lemma Splice(log: seq<Entry>, r: seq<Entry>, prev: nat, es: seq<Entry>, k: nat)
    requires prev + |es| <= |r| && es == r[prev..prev + |es|] && k <= |es| && prev + k <= |log|
    requires log[..prev + k] == r[..prev + k]
    ensures log[..prev + k] + es[k..] == r[..prev + |es|]
  {
    assert es[k..] == r[prev + k..prev + |es|];
  }

  // ---- the durable log ----

  lemma {:induction false} RebuildConcat(log: seq<Entry>, a: seq<WalRecord>, b: seq<WalRecord>)
    ensures Rebuild(log, a + b) == Rebuild(Rebuild(log, a), b)
    decreases |a|
  {
    if a == [] {
      assert a + b == b;
    } else {
      assert (a + b)[1..] == a[1..] + b;
      RebuildConcat(SetEntry(log, a[0]), a[1..], b);
    }
  }

  /** Nothing matches after the first mismatch, so from there on every entry is written. */
  ghost predicate NothingMatches(log: seq<Entry>, prev: nat, es: seq<Entry>) {
    forall i :: prev <= i < prev + |es| && i < |log| ==> log[i].term != es[i - prev].term
  }

  lemma {:induction false} MissingAppends(base: seq<Entry>, log: seq<Entry>, prev: nat, es: seq<Entry>)
    requires |base| == prev && NothingMatches(log, prev, es)
    ensures Rebuild(base, Missing(log, prev, es)) == base + es
    decreases |es|
  {
    if es == [] {
      assert base + es == base;
    } else {
      var rec := Encode(prev + 1, es[0]);
      var rest := Missing(log, prev + 1, es[1..]);
      assert Missing(log, prev, es) == [rec] + rest;
      assert ([rec] + rest)[1..] == rest && ([rec] + rest)[0] == rec;
      MissingAppends(base + [es[0]], log, prev + 1, es[1..]);
      assert base + es == base + [es[0]] + es[1..];
    }
  }

  lemma {:induction false} MissingSkips(log: seq<Entry>, prev: nat, es: seq<Entry>, k: nat)
    requires prev + k <= |log| && k <= |es| && forall i :: 0 <= i < k ==> log[prev + i].term == es[i].term
    ensures Missing(log, prev, es) == Missing(log, prev + k, es[k..])
    decreases k
  {
    if k == 0 {
      assert es[0..] == es;
    } else {
      assert log[prev + 0].term == es[0].term;
      assert forall i :: 0 <= i < k - 1 ==> log[prev + 1 + i] == log[prev + (i + 1)] && es[1..][i] == es[i + 1];
      MissingSkips(log, prev + 1, es[1..], k - 1);
      assert es[1..][k - 1..] == es[k..];
    }
  }

  /** Replaying what a follower wrote turns its old log into the merged one. */
  lemma MissingRebuilds(h: History, log: seq<Entry>, r: seq<Entry>, prev: nat, es: seq<Entry>)
    requires Fits(h, log, r, prev, es)
    ensures Rebuild(log, Missing(log, prev, es)) == Merged(log, prev, es)
  {
    var k := MatchLength(log, prev, es);
    MissingSkips(log, prev, es, k);
    if k < |es| {
      LateMismatch(h, log, r, prev, es, k);
      MissingTail(log, prev, es, k);
    } else {
      assert es[k..] == [];
    }
  }

  lemma MissingTail(log: seq<Entry>, prev: nat, es: seq<Entry>, k: nat)
    requires k < |es| && prev + k <= |log| && (prev + k < |log| ==> log[prev + k].term != es[k].term)
    requires NothingMatches(log, prev + k + 1, es[k + 1..])
    ensures Rebuild(log, Missing(log, prev + k, es[k..])) == log[..prev + k] + es[k..]
  {
    var rec := Encode(prev + k + 1, es[k]);
    var rest := Missing(log, prev + k + 1, es[k + 1..]);
    assert es[k..][1..] == es[k + 1..] && es[k..][0] == es[k];
    assert Missing(log, prev + k, es[k..]) == [rec] + rest;
    assert ([rec] + rest)[1..] == rest && ([rec] + rest)[0] == rec;
    var base := log[..prev + k] + [es[k]];
    assert SetEntry(log, rec) == base;
    MissingAppends(base, log, prev + k + 1, es[k + 1..]);
    assert base + es[k + 1..] == log[..prev + k] + es[k..];
  }

  lemma MatchesBelow(h: History, log: seq<Entry>, r: seq<Entry>, j: nat, m: nat)
    requires Sound(h, log) && Sound(h, r) && m <= j < |log| && j < |r| && log[j].term == r[j].term
    ensures log[m] == r[m]
  {
    LogsMatch(h, log, r, j);
    assert log[m] == log[..j + 1][m] && r[m] == r[..j + 1][m];
  }

  lemma LateMismatch(h: History, log: seq<Entry>, r: seq<Entry>, prev: nat, es: seq<Entry>, k: nat)
    requires Fits(h, log, r, prev, es) && k < |es| && prev + k <= |log|
    requires prev + k < |log| ==> log[prev + k].term != es[k].term
    ensures NothingMatches(log, prev + k + 1, es[k + 1..])
  {
    forall j | prev + k + 1 <= j < prev + |es| && j < |log|
      ensures log[j].term != es[k + 1..][j - (prev + k + 1)].term
    {
      assert es[k + 1..][j - (prev + k + 1)] == es[j - prev] == r[j];
      if log[j].term == r[j].term {
        MatchesBelow(h, log, r, j, prev + k);
      }
    }
  }
}
