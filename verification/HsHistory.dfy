/** The history of all votes of correct replicas, and why it forces agreement. An event records, besides the vote, the
    voter's lock when it checked the block, and its highest certified block and its lock afterwards. */
module HsHistory {
  import opened HsTypes
  import opened HsQuorum

  datatype Event = Event(voter: Id, block: BlockId, lock: BlockId, high: BlockId, after: BlockId)

  /** `b` is `a` or lies above it on the same branch. */
  predicate Extends(b: BlockId, a: BlockId) {
    b == a || (!b.Genesis? && Extends(b.parent, a))
  }

  /** Heights grow along the branch. */
  predicate Rising(b: BlockId) {
    b.Genesis? || (Height(b) > Height(b.parent) && Rising(b.parent))
  }

  predicate HasVoted(h: seq<Event>, v: Id, b: BlockId) {
    exists i :: 0 <= i < |h| && h[i].voter == v && h[i].block == b
  }

  /** The members whose signature on a vote for `b` may exist. */
  function Voters(c: Config, byzantine: set<Id>, h: seq<Event>, b: BlockId): set<Id> {
    set v | v in c.members && (v in byzantine || HasVoted(h, v, b))
  }

  predicate Certified(c: Config, byzantine: set<Id>, h: seq<Event>, b: BlockId)
    requires c.members != {}
  {
    b.Genesis? || |Voters(c, byzantine, h, b)| >= Quorum(c)
  }

  /** The assumption on the membership: 3f + 1 members, at most f of them Byzantine. */
  predicate Setting(c: Config, byzantine: set<Id>) {
    c.members != {} && |c.members| == 3 * Faults(c) + 1 && |byzantine| <= Faults(c)
  }

  /** A correct vote: on a certified parent, at a larger height, and either above the lock or justified higher than it.
      What it leaves behind is a lock no lower than the parent of the highest certified block. */
  predicate EventOk(c: Config, byzantine: set<Id>, past: seq<Event>, e: Event)
    requires c.members != {}
  {
    && e.voter in c.members && e.voter !in byzantine && !e.block.Genesis?
    && Certified(c, byzantine, past, e.block.parent) && Height(e.block) > Height(e.block.parent)
    && Certified(c, byzantine, past, e.lock)
    && (Extends(e.block, e.lock) || Height(e.block.parent) > Height(e.lock))
    && Certified(c, byzantine, past, e.high) && Height(e.high) >= Height(e.block.parent)
    && (!e.high.Genesis? ==> Height(e.after) >= Height(e.high.parent))
  }

  /** The votes of one replica rise in height, and its lock never falls. */
  predicate InOrder(e: Event, later: Event) {
    e.voter == later.voter ==> Height(e.block) < Height(later.block) && Height(e.after) <= Height(later.lock)
  }

  predicate HistoryOk(c: Config, byzantine: set<Id>, h: seq<Event>)
    requires c.members != {}
  {
    && (forall j :: 0 <= j < |h| ==> EventOk(c, byzantine, h[..j], h[j]))
    && (forall i, j :: 0 <= i < j < |h| ==> InOrder(h[i], h[j]))
  }

  // ---- branches ----

  lemma {:induction false} ExtendsTransitive(x: BlockId, y: BlockId, z: BlockId)
    requires Extends(x, y) && Extends(y, z)
    ensures Extends(x, z)
    decreases x
  {
    if x != y { ExtendsTransitive(x.parent, y, z); }
  }

  lemma {:induction false} RisingAbove(b: BlockId, a: BlockId)
    requires Rising(b) && Extends(b, a)
    ensures Height(a) <= Height(b) && Rising(a)
    decreases b
  {
    if b != a { RisingAbove(b.parent, a); }
  }

  // ---- certified blocks ----

  lemma VotersGrow(c: Config, byzantine: set<Id>, h: seq<Event>, h': seq<Event>, b: BlockId)
    requires c.members != {} && h <= h' && Certified(c, byzantine, h, b)
    ensures Certified(c, byzantine, h', b)
  {
    forall v | HasVoted(h, v, b) ensures HasVoted(h', v, b) {
      var i :| 0 <= i < |h| && h[i].voter == v && h[i].block == b;
      assert h'[i] == h[i];
    }
    SubsetSize(Voters(c, byzantine, h, b), Voters(c, byzantine, h', b));
  }

  /** Someone correct voted for a certified block. */
  lemma CorrectVoter(c: Config, byzantine: set<Id>, h: seq<Event>, b: BlockId) returns (i: nat)
    requires Setting(c, byzantine) && Certified(c, byzantine, h, b) && !b.Genesis?
    ensures i < |h| && h[i].block == b && h[i].voter !in byzantine
  {
    var vs := Voters(c, byzantine, h, b);
    var v := CommonCorrect(c, byzantine, vs, vs);
    i :| 0 <= i < |h| && h[i].voter == v && h[i].block == b;
  }

  lemma {:induction false} CertifiedParent(c: Config, byzantine: set<Id>, h: seq<Event>, b: BlockId)
    requires Setting(c, byzantine) && HistoryOk(c, byzantine, h) && Certified(c, byzantine, h, b) && !b.Genesis?
    ensures Certified(c, byzantine, h, b.parent) && Height(b) > Height(b.parent)
  {
    var i := CorrectVoter(c, byzantine, h, b);
    assert EventOk(c, byzantine, h[..i], h[i]);
    VotersGrow(c, byzantine, h[..i], h, b.parent);
  }

  lemma {:induction false} CertifiedRises(c: Config, byzantine: set<Id>, h: seq<Event>, b: BlockId)
    requires Setting(c, byzantine) && HistoryOk(c, byzantine, h) && Certified(c, byzantine, h, b)
    ensures Rising(b)
    decreases b
  {
    if !b.Genesis? {
      CertifiedParent(c, byzantine, h, b);
      CertifiedRises(c, byzantine, h, b.parent);
    }
  }

  /** A correct replica that voted for both of two certified blocks. */
  lemma CommonVoter(c: Config, byzantine: set<Id>, h: seq<Event>, h': seq<Event>, a: BlockId, b: BlockId)
    returns (i: nat, j: nat)
    requires Setting(c, byzantine) && !a.Genesis? && !b.Genesis?
    requires Certified(c, byzantine, h, a) && Certified(c, byzantine, h', b)
    ensures i < |h| && h[i].block == a && j < |h'| && h'[j].block == b && h[i].voter == h'[j].voter
  {
    var v := CommonCorrect(c, byzantine, Voters(c, byzantine, h, a), Voters(c, byzantine, h', b));
    i :| 0 <= i < |h| && h[i].voter == v && h[i].block == a;
    j :| 0 <= j < |h'| && h'[j].voter == v && h'[j].block == b;
  }

  /** At most one block is certified at each height. */
  lemma OnePerHeight(c: Config, byzantine: set<Id>, h: seq<Event>, a: BlockId, b: BlockId)
    requires Setting(c, byzantine) && HistoryOk(c, byzantine, h)
    requires Certified(c, byzantine, h, a) && Certified(c, byzantine, h, b) && Height(a) == Height(b)
    ensures a == b
  {
    CertifiedRises(c, byzantine, h, a);
    CertifiedRises(c, byzantine, h, b);
    if !a.Genesis? && !b.Genesis? {
      var i, j := CommonVoter(c, byzantine, h, h, a, b);
    }
  }

  // ---- agreement ----

  /** Three blocks in a direct chain, at consecutive heights. */
  predicate Triple(b0: BlockId, b1: BlockId, b2: BlockId) {
    && !b0.Genesis? && !b1.Genesis? && !b2.Genesis? && b1.parent == b0 && b2.parent == b1
    && Height(b1) == Height(b0) + 1 && Height(b2) == Height(b0) + 2
  }

  /** Every block certified within the first `n` events, at or above the height of `b0`, is on its branch. */
  ghost predicate OnBranch(c: Config, byzantine: set<Id>, h: seq<Event>, n: nat, b0: BlockId)
    requires c.members != {} && n <= |h|
  {
    forall w :: Certified(c, byzantine, h[..n], w) && Height(w) >= Height(b0) ==> Extends(w, b0)
  }

  /** Once a replica has voted for the third block of a triple, its lock is at least as high as the first. */
  lemma LockedAbove(c: Config, byzantine: set<Id>, h: seq<Event>, i: nat, b0: BlockId, b1: BlockId, b2: BlockId)
    requires Setting(c, byzantine) && HistoryOk(c, byzantine, h) && Triple(b0, b1, b2)
    requires i < |h| && h[i].block == b2 && OnBranch(c, byzantine, h, i, b0)
    ensures Height(h[i].after) >= Height(b0)
  {
    assert EventOk(c, byzantine, h[..i], h[i]);
    var high := h[i].high;
    VotersGrow(c, byzantine, h[..i], h, high);
    CertifiedRises(c, byzantine, h, high);
    assert Extends(high, b0) && high != b0;
    RisingAbove(high.parent, b0);
  }

  /** A vote cast under a lock that high is for a block on the branch. */
  lemma VotesAbove(c: Config, byzantine: set<Id>, h: seq<Event>, j: nat, b0: BlockId)
    requires c.members != {} && HistoryOk(c, byzantine, h) && j < |h|
    requires Height(h[j].lock) >= Height(b0) && OnBranch(c, byzantine, h, j, b0)
    ensures Extends(h[j].block, b0)
  {
    var e := h[j];
    assert EventOk(c, byzantine, h[..j], e);
    if Extends(e.block, e.lock) { ExtendsTransitive(e.block, e.lock, b0); }
  }

  /** One more event. */
  lemma BranchGrows(c: Config, byzantine: set<Id>, h: seq<Event>, n: nat, b0: BlockId, b1: BlockId, b2: BlockId, w: BlockId)
    requires Setting(c, byzantine) && HistoryOk(c, byzantine, h) && Triple(b0, b1, b2) && n <= |h|
    requires Certified(c, byzantine, h, b2) && Certified(c, byzantine, h[..n], w) && Height(w) >= Height(b0)
    requires forall m :: 0 <= m < n ==> OnBranch(c, byzantine, h, m, b0)
    ensures Extends(w, b0)
  {
    VotersGrow(c, byzantine, h[..n], h, w);
    CertifiedParent(c, byzantine, h, b2);
    CertifiedParent(c, byzantine, h, b1);
    CertifiedRises(c, byzantine, h, b0);
    CertifiedRises(c, byzantine, h, w);
    if Height(w) == Height(b0) {
      OnePerHeight(c, byzantine, h, w, b0);
    } else if Height(w) == Height(b1) {
      OnePerHeight(c, byzantine, h, w, b1);
    } else if Height(w) == Height(b2) {
      OnePerHeight(c, byzantine, h, w, b2);
      assert Extends(b1, b0);
    } else {
      var i, j := CommonVoter(c, byzantine, h, h[..n], b2, w);
      assert h[..n][j] == h[j];
      assert j < i ==> InOrder(h[j], h[i]);
      assert i < j && InOrder(h[i], h[j]);
      LockedAbove(c, byzantine, h, i, b0, b1, b2);
      VotesAbove(c, byzantine, h, j, b0);
    }
  }

  lemma {:induction false} AllOnBranch(c: Config, byzantine: set<Id>, h: seq<Event>, n: nat,
                                       b0: BlockId, b1: BlockId, b2: BlockId)
    requires Setting(c, byzantine) && HistoryOk(c, byzantine, h) && Triple(b0, b1, b2) && n <= |h|
    requires Certified(c, byzantine, h, b2)
    ensures OnBranch(c, byzantine, h, n, b0)
    decreases n
  {
    forall m | 0 <= m < n ensures OnBranch(c, byzantine, h, m, b0) {
      AllOnBranch(c, byzantine, h, m, b0, b1, b2);
    }
    forall w | Certified(c, byzantine, h[..n], w) && Height(w) >= Height(b0) ensures Extends(w, b0) {
      BranchGrows(c, byzantine, h, n, b0, b1, b2, w);
    }
  }

  /** The heart of agreement: when a direct chain of three blocks at consecutive heights is certified, every certified
      block at or above the height of the first one extends it, whenever it was certified. */
  lemma CertifiedExtends(c: Config, byzantine: set<Id>, h: seq<Event>, b0: BlockId, b1: BlockId, b2: BlockId, w: BlockId)
    requires Setting(c, byzantine) && HistoryOk(c, byzantine, h) && Triple(b0, b1, b2)
    requires Certified(c, byzantine, h, b2) && Certified(c, byzantine, h, w) && Height(w) >= Height(b0)
    ensures Extends(w, b0)
  {
    AllOnBranch(c, byzantine, h, |h|, b0, b1, b2);
    assert h[..|h|] == h;
  }
}
