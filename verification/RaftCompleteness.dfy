/** Leader completeness: what is committed in a term is in the log of every leader of a later term. */
module RaftCompleteness {
  import opened Options
  import opened RaftTypes
  import opened RaftSpec
  import opened RaftSystem
  import opened RaftHistory

  /** A sound log is what the leader of its last term wrote, up to its length. */
  lemma LastReign(h: History, log: seq<Entry>)
    requires Sound(h, log) && log != []
    ensures var t := LastTerm(log); t in h.reigns && |log| <= |h.reigns[t].log| && log == h.reigns[t].log[..|log|]
  {
    assert SoundAt(h, log, |log| - 1);
    assert log[..|log|] == log;
  }

  /** Terms in a sound log do not exceed the last one. */
  lemma LastTermIsGreatest(h: History, log: seq<Entry>, i: nat)
    requires Sound(h, log) && i < |log| && LastTerm(log) in h.reigns && ReignOk(h, LastTerm(log))
    ensures log[i].term <= LastTerm(log)
  {
    LastReign(h, log);
    var r := h.reigns[LastTerm(log)];
    assert log[i] == r.log[i];
    if i < |r.start| { assert r.start[i] == r.log[i]; }
  }

  /** A candidate whose log is at least as up to date as a voter's has every entry prefix the voter held that ends
      in an entry of term `t` and that every leader between `t` and the candidate's term started from. */
  lemma UpToDateKeeps(s: System, h: History, mine: seq<Entry>, voters: seq<Entry>, t: nat, i: nat, u: nat)
    requires ReignsInv(s, h) && Sound(h, mine) && Sound(h, voters)
    requires t in h.reigns && 1 <= i <= |h.reigns[t].log| && h.reigns[t].log[i - 1].term == t && t < u
    requires h.reigns[t].log[..i] <= voters
    requires UpToDate(LastTerm(mine), |mine|, voters) && TermsBelow(mine, u)
    requires Survives(h, t, i, u - 1)
    ensures h.reigns[t].log[..i] <= mine
  {
    var p := h.reigns[t].log[..i];
    LastReign(h, voters);
    assert ReignOk(h, LastTerm(voters));
    assert voters[i - 1] == p[i - 1];
    LastTermIsGreatest(h, voters, i - 1);
    LastReign(h, mine);
    var l := LastTerm(mine);
    if l == LastTerm(voters) {
      assert voters == mine[..|voters|];
    } else {
      assert ReignOk(h, l);
      LongerThanStart(h, mine);
      assert p <= h.reigns[l].start;
    }
  }

  /** A log that ends in an entry of a leader's own term extends the log that leader started from. */
  lemma LongerThanStart(h: History, log: seq<Entry>)
    requires Sound(h, log) && log != [] && LastTerm(log) in h.reigns && ReignOk(h, LastTerm(log))
    ensures h.reigns[LastTerm(log)].start <= log
  {
    LastReign(h, log);
    var r := h.reigns[LastTerm(log)];
    assert log[|log| - 1] == r.log[|log| - 1];
  }

  lemma {:induction false} LeaderCompleteness(s: System, h: History, t: nat, n: nat, u: nat)
    requires AllElected(s, h) && AcksOk(s, h) && LeadersKeep(s, h) && Committed(s, h, t, n) && u in h.reigns && t < u
    ensures h.reigns[t].log[..n] <= h.reigns[u].start
    decreases u
  {
    forall v | v in h.reigns && t < v <= u - 1 ensures h.reigns[t].log[..n] <= h.reigns[v].start {
      LeaderCompleteness(s, h, t, n, v);
    }
    assert Survives(h, t, n, u - 1);
    assert Elected(s, h, u);
    var e := QuorumsMeet(s.nodes.Keys, Holding(s, h, t, n), h.reigns[u].electors);
    var k := Slot(e, t);
    assert k in h.acks && LeaderKeeps(h, u, k.node, k.term);
  }

  /** The term and index at which a committed prefix was committed. */
  lemma Witness(s: System, h: History, p: seq<Entry>, b: nat) returns (t: nat, n: nat)
    requires CommittedBy(s, h, p, b) && p != []
    ensures t <= b && Committed(s, h, t, n) && |p| <= n && p == h.reigns[t].log[..|p|]
  {
    t, n :| t <= b && Committed(s, h, t, n) && |p| <= n && p == h.reigns[t].log[..|p|];
  }

  lemma CommittedInLog(s: System, h: History, t: nat, n: nat, u: nat)
    requires AllElected(s, h) && AcksOk(s, h) && LeadersKeep(s, h) && Committed(s, h, t, n) && u in h.reigns && t <= u
    requires h.reigns[u].start <= h.reigns[u].log
    ensures h.reigns[t].log[..n] <= h.reigns[u].log
  {
    if t < u {
      LeaderCompleteness(s, h, t, n, u);
      PrefixTransitive(h.reigns[t].log[..n], h.reigns[u].start, h.reigns[u].log);
    } else {
      TakeIsPrefix(h.reigns[t].log, n);
    }
  }

  lemma PrefixTransitive(a: seq<Entry>, b: seq<Entry>, c: seq<Entry>)
    requires a <= b <= c
    ensures a <= c
  {
  }

  lemma TakeIsPrefix(a: seq<Entry>, n: nat)
    requires n <= |a|
    ensures a[..n] <= a
  {
  }

  lemma StartInLog(s: System, h: History, u: nat)
    requires ReignsInv(s, h) && u in h.reigns
    ensures h.reigns[u].start <= h.reigns[u].log
  {
    assert ReignOk(h, u);
  }

  lemma PrefixInLeader(s: System, h: History, p: seq<Entry>, t: nat, n: nat, u: nat)
    requires AllElected(s, h) && AcksOk(s, h) && LeadersKeep(s, h) && Committed(s, h, t, n) && |p| <= n && p == h.reigns[t].log[..|p|]
    requires u in h.reigns && t <= u && h.reigns[u].start <= h.reigns[u].log
    ensures p <= h.reigns[u].log
  {
    CommittedInLog(s, h, t, n, u);
    Prefixes(p, h.reigns[t].log, n, h.reigns[u].log);
  }

  lemma Prefixes(p: seq<Entry>, log: seq<Entry>, n: nat, log': seq<Entry>)
    requires |p| <= n <= |log| && p == log[..|p|] && log[..n] <= log'
    ensures p <= log'
  {
    assert log[..n][..|p|] == p;
  }

  /** What is committed up to some term is in the log of the leader of any term from there on. */
  lemma CommittedInLeader(s: System, h: History, p: seq<Entry>, b: nat, u: nat)
    requires ReignsInv(s, h) && AcksInv(s, h) && CommittedBy(s, h, p, b) && u in h.reigns && b <= u
    ensures p <= h.reigns[u].log
  {
    if p != [] {
      var t, n := Witness(s, h, p, b);
      StartInLog(s, h, u);
      PrefixInLeader(s, h, p, t, n, u);
    }
  }

  /** Two committed prefixes never disagree. */
  lemma CommittedAgree(s: System, h: History, p: seq<Entry>, b: nat, q: seq<Entry>, c: nat)
    requires ReignsInv(s, h) && AcksInv(s, h) && CommittedBy(s, h, p, b) && CommittedBy(s, h, q, c)
    ensures p <= q || q <= p
  {
    if p != [] && q != [] {
      var t, n := Witness(s, h, p, b);
      var u, m := Witness(s, h, q, c);
      var w := if t <= u then u else t;
      StartInLog(s, h, w);
      PrefixInLeader(s, h, p, t, n, w);
      PrefixInLeader(s, h, q, u, m, w);
    }
  }
}
