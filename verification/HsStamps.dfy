/** The epoch a leader stamps on a block against the epoch a follower derives from the block's ancestry, on one growing
    branch from the root. */
module HsStamps {
  import opened Options
  import opened HsEpoch
  import HsReplica

  /** What a block carries, as far as membership goes: the change of a transition block may be unreadable. */
  datatype Kind = Plain | Transition(change: Option<Change>)

  /** `certifies`: the block justifies itself with a certificate of its parent. */
  datatype Block = Block(kind: Kind, epoch: nat, certifies: bool)

  // ---- the follower ----

  /** A transition with three direct descendants, each certifying its parent, is committed. */
  predicate Settled(branch: seq<Block>, i: nat) {
    && i + 3 < |branch| && branch[i].kind.Transition?
    && branch[i + 1].certifies && branch[i + 2].certifies && branch[i + 3].certifies
  }

  /** The committed changes at or above position `i`, oldest first. */
  function SettledFrom(branch: seq<Block>, i: nat): seq<Option<Change>>
    decreases |branch| - i
  {
    if i >= |branch| then []
    else (if Settled(branch, i) then [branch[i].kind.change] else []) + SettledFrom(branch, i + 1)
  }

  function Derived(branch: seq<Block>): seq<Option<Change>> {
    SettledFrom(branch, 0)
  }

  /** The set after a sequence of changes; `None` once one of them cannot be applied. */
  function FoldSets(s: ValidatorSet, changes: seq<Option<Change>>): Option<ValidatorSet>
    decreases |changes|
  {
    if changes == [] then Some(s)
    else
      var before, last := FoldSets(s, changes[..|changes| - 1]), changes[|changes| - 1];
      if before.None? || last.None? then None else Apply(before.value, last.value)
  }

  function At(branch: seq<Block>, i: nat): Option<Block> {
    if i < |branch| then Some(branch[i]) else None
  }

  /** Walks from the block at the top of the branch down to the root and collects the committed transitions. */
  method CollectTransitions(branch: seq<Block>) returns (transitions: seq<Option<Change>>)
    ensures HsReplica.Reversed(transitions) == Derived(branch)
  {
    transitions := [];
    var c1: Option<Block>, c2: Option<Block>, c3: Option<Block> := None, None, None;
    var i := |branch|;
    while i > 0
      invariant 0 <= i <= |branch| && HsReplica.Reversed(transitions) == SettledFrom(branch, i)
      invariant c1 == At(branch, i) && c2 == At(branch, i + 1) && c3 == At(branch, i + 2)
    {
      i := i - 1;
      var cur := branch[i];
      NextSettled(branch, i);
      if cur.kind.Transition? && c3.Some? && c1.value.certifies && c2.value.certifies && c3.value.certifies {
        HsReplica.ReversedAdd(transitions, cur.kind.change);
        transitions := transitions + [cur.kind.change];
      }
      c3, c2, c1 := c2, c1, Some(cur);
    }
  }

  lemma NextSettled(branch: seq<Block>, i: nat)
    requires i < |branch|
    ensures SettledFrom(branch, i) ==
            if Settled(branch, i) then [branch[i].kind.change] + SettledFrom(branch, i + 1) else SettledFrom(branch, i + 1)
  {
  }

  lemma {:induction false} FoldPrefix(s: ValidatorSet, changes: seq<Option<Change>>, n: nat)
    requires n <= |changes| && FoldSets(s, changes).Some?
    ensures FoldSets(s, changes[..n]).Some? && FoldSets(s, changes[..n]).value.epoch == s.epoch + n
    decreases |changes| - n
  {
    if n == |changes| {
      assert changes[..n] == changes;
      FoldEpoch(s, changes);
    } else {
      FoldPrefix(s, changes, n + 1);
      assert changes[..n + 1][..n] == changes[..n];
    }
  }

  lemma {:induction false} FoldEpoch(s: ValidatorSet, changes: seq<Option<Change>>)
    requires FoldSets(s, changes).Some?
    ensures FoldSets(s, changes).value.epoch == s.epoch + |changes|
    decreases |changes|
  {
    if changes != [] { FoldEpoch(s, changes[..|changes| - 1]); }
  }

  lemma FoldFails(s: ValidatorSet, changes: seq<Option<Change>>, n: nat)
    requires n <= |changes| && FoldSets(s, changes[..n]).None?
    ensures FoldSets(s, changes).None?
  {
    if FoldSets(s, changes).Some? { FoldPrefix(s, changes, n); }
  }

  lemma FoldStep(s: ValidatorSet, done: seq<Option<Change>>, x: Option<Change>)
    ensures FoldSets(s, done + [x]) ==
            var before := FoldSets(s, done); if before.None? || x.None? then None else Apply(before.value, x.value)
  {
    assert (done + [x])[..|done|] == done;
  }

  /** A change that cannot be applied leaves no set for the epoch. */
  lemma FailsAt(s: ValidatorSet, transitions: seq<Option<Change>>, i: nat)
    requires i <= |transitions| && FoldSets(s, HsReplica.Reversed(transitions[i..])).None?
    ensures FoldSets(s, HsReplica.Reversed(transitions)).None?
  {
    var front, tail := transitions[..i], transitions[i..];
    assert front + tail == transitions;
    HsReplica.ReversedConcat(front, tail);
    var all, n := HsReplica.Reversed(transitions), |tail|;
    assert all[..n] == HsReplica.Reversed(tail);
    FoldFails(s, all, n);
  }

  /** Applies the changes, of which the newest comes first, from the oldest to the newest. */
  method FoldOldestFirst(base: ValidatorSet, transitions: seq<Option<Change>>) returns (r: Option<ValidatorSet>)
    ensures r == FoldSets(base, HsReplica.Reversed(transitions))
  {
    var current := base;
    var i := |transitions|;
    ghost var done: seq<Option<Change>> := [];
    while i > 0
      invariant 0 <= i <= |transitions| && done == HsReplica.Reversed(transitions[i..])
      invariant FoldSets(base, done) == Some(current)
    {
      i := i - 1;
      HsReplica.TailDone(transitions, i);
      FoldStep(base, done, transitions[i]);
      done := done + [transitions[i]];
      if transitions[i].None? {
        FailsAt(base, transitions, i);
        return None;
      }
      var next := ApplyChange(current, transitions[i].value);
      if next.None? {
        FailsAt(base, transitions, i);
        return None;
      }
      current := next.value;
    }
    assert transitions[0..] == transitions;
    return Some(current);
  }

  // ---- who is in the set ----

  predicate Names(change: Option<Change>, id: string) {
    change.Some? && (Adds(change.value, id) || Removes(change.value, id))
  }

  /** The last of the changes that names the id. */
  predicate LastNames(changes: seq<Option<Change>>, i: nat, id: string) {
    i < |changes| && Names(changes[i], id) && forall j :: i < j < |changes| ==> !Names(changes[j], id)
  }

  predicate Unnamed(changes: seq<Option<Change>>, id: string) {
    forall i :: 0 <= i < |changes| ==> !Names(changes[i], id)
  }

  /** An id is in the set if and only if the last change that names it adds it, or none names it and it was in the base
      set. */
  predicate InSet(base: ValidatorSet, changes: seq<Option<Change>>, id: string) {
    || (exists i :: 0 <= i < |changes| && LastNames(changes, i, id) && Adds(changes[i].value, id))
    || (Unnamed(changes, id) && id in base.members)
  }

  lemma {:induction false} FoldedMembers(base: ValidatorSet, changes: seq<Option<Change>>, id: string)
    requires FoldSets(base, changes).Some?
    ensures id in FoldSets(base, changes).value.members <==> InSet(base, changes, id)
    decreases |changes|
  {
    if changes != [] {
      var n := |changes| - 1;
      var front, last := changes[..n], changes[n];
      FoldedMembers(base, front, id);
      ApplyTakes(FoldSets(base, front).value, last.value, id);
      if Names(last, id) {
        NamedLast(base, changes, id);
      } else {
        NotNamedLast(base, changes, id);
      }
    }
  }

  lemma NamedLast(base: ValidatorSet, changes: seq<Option<Change>>, id: string)
    requires changes != [] && Names(changes[|changes| - 1], id)
    ensures InSet(base, changes, id) <==> Adds(changes[|changes| - 1].value, id)
  {
    var n := |changes| - 1;
    assert LastNames(changes, n, id);
    if InSet(base, changes, id) {
      var i :| 0 <= i < |changes| && LastNames(changes, i, id) && Adds(changes[i].value, id);
      assert i == n;
    }
  }

  lemma NotNamedLast(base: ValidatorSet, changes: seq<Option<Change>>, id: string)
    requires changes != [] && !Names(changes[|changes| - 1], id)
    ensures InSet(base, changes, id) <==> InSet(base, changes[..|changes| - 1], id)
  {
    var n := |changes| - 1;
    var front := changes[..n];
    assert forall i :: 0 <= i < n ==> front[i] == changes[i];
    forall i | 0 <= i < n ensures LastNames(changes, i, id) <==> LastNames(front, i, id) {
      if LastNames(changes, i, id) { assert forall j :: i < j < n ==> front[j] == changes[j]; }
    }
    assert !LastNames(changes, n, id);
    assert Unnamed(changes, id) <==> Unnamed(front, id);
  }

  /** Derives the epoch of the block at the top of the branch and the validator set of that epoch. */
  method DeriveEpoch(branch: seq<Block>, base: ValidatorSet) returns (epoch: nat, r: Option<ValidatorSet>)
    ensures epoch == |Derived(branch)| && r == FoldSets(base, Derived(branch))
    ensures r.Some? ==> r.value.epoch == base.epoch + epoch
    ensures r.Some? ==> forall id :: id in r.value.members <==> InSet(base, Derived(branch), id)
  {
    var transitions := CollectTransitions(branch);
    epoch := |transitions|;
    r := FoldOldestFirst(base, transitions);
    if r.Some? {
      FoldEpoch(base, Derived(branch));
      forall id ensures id in r.value.members <==> InSet(base, Derived(branch), id) {
        FoldedMembers(base, Derived(branch), id);
      }
    }
  }

  // ---- the leader ----

  datatype Leader = Leader(sets: map<nat, ValidatorSet>, epoch: nat)

  /** A committed transition activates the set that follows the one of its own epoch. */
  function Activate(l: Leader, b: Block): Leader {
    if b.kind.Plain? || b.kind.change.None? || b.epoch !in l.sets then l
    else
      match Apply(l.sets[b.epoch], b.kind.change.value)
      case None => l
      case Some(ns) => Leader(l.sets[ns.epoch := ns], ns.epoch)
  }

  class EpochKeeper {
    var sets: map<nat, ValidatorSet>
    var epoch: nat

    ghost function View(): Leader
      reads this
    {
      Leader(sets, epoch)
    }

    constructor (base: ValidatorSet)
      ensures View() == Leader(map[0 := base], 0)
    {
      sets, epoch := map[0 := base], 0;
    }

    method ActivateTransition(b: Block)
      modifies this
      ensures View() == Activate(old(View()), b)
    {
      if b.kind.Plain? || b.kind.change.None? || b.epoch !in sets { return; }
      var ns := ApplyChange(sets[b.epoch], b.kind.change.value);
      if ns.None? { return; }
      sets := sets[ns.value.epoch := ns.value];
      epoch := ns.value.epoch;
    }
  }

  /** The leader and its branch after proposing `kinds`, each block once its parent is certified. When the last block is
      certified too, its grandparent is committed. */
  function Lead(base: ValidatorSet, kinds: seq<Kind>): (r: (Leader, seq<Block>))
    ensures |r.1| == |kinds|
    decreases |kinds|
  {
    if kinds == [] then (Leader(map[0 := base], 0), [])
    else
      var (l, branch) := Lead(base, kinds[..|kinds| - 1]);
      var branch' := branch + [Block(kinds[|kinds| - 1], l.epoch, true)];
      (if |branch'| >= 3 then Activate(l, branch'[|branch'| - 3]) else l, branch')
  }

  // ---- agreement ----

  function Short(n: nat, k: nat): nat {
    if n < k then 0 else n - k
  }

  /** The changes among the kinds, oldest first. */
  function ChangesOf(kinds: seq<Kind>): seq<Option<Change>>
    decreases |kinds|
  {
    if kinds == [] then []
    else
      var last := kinds[|kinds| - 1];
      ChangesOf(kinds[..|kinds| - 1]) + if last.Transition? then [last.change] else []
  }

  lemma ChangesStep(kinds: seq<Kind>, n: nat)
    requires n < |kinds|
    ensures ChangesOf(kinds[..n + 1]) == ChangesOf(kinds[..n]) + if kinds[n].Transition? then [kinds[n].change] else []
  {
    assert kinds[..n + 1][..n] == kinds[..n];
  }

  lemma {:induction false} ChangesPrefix(kinds: seq<Kind>, m: nat, n: nat)
    requires m <= n <= |kinds|
    ensures ChangesOf(kinds[..m]) <= ChangesOf(kinds[..n])
    decreases n - m
  {
    if m < n {
      ChangesPrefix(kinds, m, n - 1);
      ChangesStep(kinds, n - 1);
    }
  }

  /** On a branch of direct certifying blocks, all transitions but those in the last three blocks are committed. */
  predicate Direct(branch: seq<Block>, kinds: seq<Kind>) {
    |branch| == |kinds| && forall i :: 0 <= i < |branch| ==> branch[i].kind == kinds[i] && branch[i].certifies
  }

  lemma {:induction false} DirectSettled(branch: seq<Block>, kinds: seq<Kind>, i: nat)
    requires Direct(branch, kinds)
    ensures i >= Short(|kinds|, 3) ==> SettledFrom(branch, i) == []
    ensures i <= Short(|kinds|, 3) ==> ChangesOf(kinds[..i]) + SettledFrom(branch, i) == ChangesOf(kinds[..Short(|kinds|, 3)])
    decreases |branch| - i
  {
    if i < |branch| {
      DirectSettled(branch, kinds, i + 1);
      if i < Short(|kinds|, 3) {
        ChangesStep(kinds, i);
        var here := if Settled(branch, i) then [branch[i].kind.change] else [];
        assert ChangesOf(kinds[..i]) + (here + SettledFrom(branch, i + 1))
               == ChangesOf(kinds[..i]) + here + SettledFrom(branch, i + 1);
      }
    }
  }

  lemma DerivedDirect(branch: seq<Block>, kinds: seq<Kind>)
    requires Direct(branch, kinds)
    ensures Derived(branch) == ChangesOf(kinds[..Short(|kinds|, 3)])
  {
    DirectSettled(branch, kinds, 0);
    assert kinds[..0] == [];
  }

  lemma {:induction false} LeadDirect(base: ValidatorSet, kinds: seq<Kind>)
    ensures Direct(Lead(base, kinds).1, kinds)
    decreases |kinds|
  {
    if kinds != [] { LeadDirect(base, kinds[..|kinds| - 1]); }
  }

  /** The stamp of a block is the epoch of the leader when it proposed it. */
  lemma {:induction false} LeadPrefix(base: ValidatorSet, kinds: seq<Kind>, m: nat)
    requires m <= |kinds|
    ensures Lead(base, kinds).1[..m] == Lead(base, kinds[..m]).1
    ensures m < |kinds| ==> Lead(base, kinds).1[m].epoch == Lead(base, kinds[..m]).0.epoch
    decreases |kinds|
  {
    if m == |kinds| {
      assert kinds[..m] == kinds;
    } else {
      var front := kinds[..|kinds| - 1];
      LeadPrefix(base, front, m);
      assert front[..m] == kinds[..m];
      if m == |kinds| - 1 { assert front == kinds[..m]; }
    }
  }

  /** One more certified block commits the block two below it. */
  lemma LeadStep(base: ValidatorSet, kinds: seq<Kind>)
    requires |kinds| >= 1
    ensures var l := Lead(base, kinds[..|kinds| - 1]).0;
            Lead(base, kinds).0 == if |kinds| >= 3 then Activate(l, Lead(base, kinds).1[|kinds| - 3]) else l
  {
  }

  lemma LeadBlock(base: ValidatorSet, kinds: seq<Kind>, i: nat)
    requires i < |kinds|
    ensures Lead(base, kinds).1[i] == Block(kinds[i], Lead(base, kinds[..i]).0.epoch, true)
  {
    LeadDirect(base, kinds);
    LeadPrefix(base, kinds, i);
  }

  /** No two of the first `n` blocks that are transitions are closer than three blocks. */
  predicate Spaced(kinds: seq<Kind>, n: nat)
    requires n <= |kinds|
  {
    forall p, q :: 0 <= p < q < n && kinds[p].Transition? && kinds[q].Transition? ==> q - p >= 3
  }

  /** The first `n` blocks hold transitions that are well spaced and can all be applied. */
  predicate Sound(base: ValidatorSet, kinds: seq<Kind>, n: nat)
    requires n <= |kinds|
  {
    Spaced(kinds, n) && FoldSets(base, ChangesOf(kinds[..n])).Some?
  }

  /** What the leader has activated after the first `n` blocks were committed. */
  predicate Activated(base: ValidatorSet, l: Leader, changes: seq<Option<Change>>) {
    l.epoch == |changes| && l.epoch in l.sets && FoldSets(base, changes) == Some(l.sets[l.epoch])
  }

  lemma SoundPrefix(base: ValidatorSet, kinds: seq<Kind>, m: nat, n: nat)
    requires m <= n <= |kinds| && Sound(base, kinds, n)
    ensures Sound(base, kinds, m)
  {
    ChangesPrefix(kinds, m, n);
    var all, some := ChangesOf(kinds[..n]), ChangesOf(kinds[..m]);
    assert all[..|some|] == some;
    FoldPrefix(base, all, |some|);
  }

  /** Between two transitions that are well spaced nothing changes. */
  lemma QuietBefore(kinds: seq<Kind>, q: nat)
    requires q < |kinds| && kinds[q].Transition? && Spaced(kinds, q + 1)
    ensures ChangesOf(kinds[..Short(q, 2)]) == ChangesOf(kinds[..q])
  {
    if q >= 1 { ChangesStep(kinds, q - 1); }
    if q >= 2 { ChangesStep(kinds, q - 2); }
  }

  lemma {:induction false} LeaderActivates(base: ValidatorSet, kinds: seq<Kind>)
    requires base.epoch == 0 && Sound(base, kinds, Short(|kinds|, 2))
    ensures UpToTwo(base, kinds)
    decreases |kinds|
  {
    if |kinds| < 3 {
      SmallLead(base, kinds);
    } else {
      var q := |kinds| - 3;
      SoundPrefix(base, kinds, q, q + 1);
      SoundFront(base, kinds, q, q + 2);
      LeaderActivates(base, kinds[..q + 2]);
      SoundPrefix(base, kinds, Short(q, 2), q + 1);
      SoundFront(base, kinds, Short(q, 2), q);
      LeaderActivates(base, kinds[..q]);
      NextUpToTwo(base, kinds, q);
    }
  }

  /** The leader has activated the changes of all blocks but the last two. */
  predicate UpToTwo(base: ValidatorSet, kinds: seq<Kind>) {
    Activated(base, Lead(base, kinds).0, ChangesOf(kinds[..Short(|kinds|, 2)]))
  }

  lemma NextUpToTwo(base: ValidatorSet, kinds: seq<Kind>, q: nat)
    requires base.epoch == 0 && |kinds| == q + 3 && Sound(base, kinds, q + 1)
    requires UpToTwo(base, kinds[..q + 2]) && UpToTwo(base, kinds[..q])
    ensures UpToTwo(base, kinds)
  {
    assert kinds[..q + 2][..q] == kinds[..q] && kinds[..q][..Short(q, 2)] == kinds[..Short(q, 2)];
    if kinds[q].Transition? { QuietBefore(kinds, q); }
    ActivationStep(base, kinds, q);
  }

  lemma SoundFront(base: ValidatorSet, kinds: seq<Kind>, m: nat, n: nat)
    requires m <= n <= |kinds| && Sound(base, kinds, m)
    ensures Sound(base, kinds[..n], m) && kinds[..n][..m] == kinds[..m]
  {
    assert kinds[..n][..m] == kinds[..m];
  }

  lemma ActivationStep(base: ValidatorSet, kinds: seq<Kind>, q: nat)
    requires base.epoch == 0 && |kinds| == q + 3 && FoldSets(base, ChangesOf(kinds[..q + 1])).Some?
    requires Activated(base, Lead(base, kinds[..q + 2]).0, ChangesOf(kinds[..q]))
    requires kinds[q].Transition? ==> Lead(base, kinds[..q]).0.epoch == |ChangesOf(kinds[..q])|
    ensures Activated(base, Lead(base, kinds).0, ChangesOf(kinds[..q + 1]))
  {
    LeadStep(base, kinds);
    LeadBlock(base, kinds, q);
    ChangesStep(kinds, q);
    NextActivated(base, Lead(base, kinds[..q + 2]).0, Lead(base, kinds).1[q],
                  ChangesOf(kinds[..q]), ChangesOf(kinds[..q + 1]));
  }

  lemma SmallLead(base: ValidatorSet, kinds: seq<Kind>)
    requires |kinds| < 3
    ensures Lead(base, kinds).0 == Leader(map[0 := base], 0) && ChangesOf(kinds[..Short(|kinds|, 2)]) == []
  {
    if |kinds| >= 1 {
      LeadStep(base, kinds);
      if |kinds| >= 2 { LeadStep(base, kinds[..|kinds| - 1]); }
    }
  }

  lemma NextActivated(base: ValidatorSet, l: Leader, b: Block, before: seq<Option<Change>>, after: seq<Option<Change>>)
    requires base.epoch == 0 && Activated(base, l, before) && FoldSets(base, after).Some?
    requires b.kind.Transition? ==> b.epoch == |before|
    requires after == before + if b.kind.Transition? then [b.kind.change] else []
    ensures Activated(base, Activate(l, b), after)
  {
    if b.kind.Transition? {
      FoldStep(base, before, b.kind.change);
      FoldEpoch(base, before);
    } else {
      assert after == before;
    }
  }

  /** A follower accepts the stamp of block `m`, and can derive the validator set of its epoch. */
  predicate Accepts(base: ValidatorSet, branch: seq<Block>, m: nat)
    requires m < |branch|
  {
    branch[m].epoch == |Derived(branch[..m + 1])| && FoldSets(base, Derived(branch[..m + 1])).Some?
  }

  predicate AllAccepted(base: ValidatorSet, branch: seq<Block>) {
    forall m :: 0 <= m < |branch| ==> Accepts(base, branch, m)
  }

  lemma DerivedAt(base: ValidatorSet, kinds: seq<Kind>, m: nat)
    requires m < |kinds|
    ensures Derived(Lead(base, kinds).1[..m + 1]) == ChangesOf(kinds[..Short(m, 2)])
  {
    LeadDirect(base, kinds);
    DerivedDirect(Lead(base, kinds).1[..m + 1], kinds[..m + 1]);
    assert kinds[..m + 1][..Short(m, 2)] == kinds[..Short(m, 2)];
  }

  /** With sound transitions the stamp of every block is the epoch that followers derive, and the derived set is the one
      the leader has activated. */
  lemma SoundAccepts(base: ValidatorSet, kinds: seq<Kind>, m: nat)
    requires base.epoch == 0 && m < |kinds| && Sound(base, kinds, Short(|kinds|, 3))
    ensures var branch, l := Lead(base, kinds).1, Lead(base, kinds[..m]).0;
            && Accepts(base, branch, m) && branch[m].epoch in l.sets
            && FoldSets(base, Derived(branch[..m + 1])) == Some(l.sets[branch[m].epoch])
  {
    SoundPrefix(base, kinds, Short(m, 2), Short(|kinds|, 3));
    assert kinds[..m][..Short(m, 2)] == kinds[..Short(m, 2)];
    LeaderActivates(base, kinds[..m]);
    LeadPrefix(base, kinds, m);
    DerivedAt(base, kinds, m);
  }

  // ---- and only then ----

  predicate Numbered(l: Leader) {
    forall e :: e in l.sets ==> l.sets[e].epoch == e
  }

  lemma ActivateNumbered(l: Leader, b: Block)
    requires Numbered(l)
    ensures Numbered(Activate(l, b))
  {
  }

  lemma {:induction false} SetsNumbered(base: ValidatorSet, kinds: seq<Kind>)
    requires base.epoch == 0
    ensures Numbered(Lead(base, kinds).0)
    decreases |kinds|
  {
    if kinds != [] {
      SetsNumbered(base, kinds[..|kinds| - 1]);
      LeadStep(base, kinds);
      if |kinds| >= 3 { ActivateNumbered(Lead(base, kinds[..|kinds| - 1]).0, Lead(base, kinds).1[|kinds| - 3]); }
    }
  }

  /** If followers accept every stamp, a committed transition is well spaced from those before. */
  lemma AcceptedSpacing(base: ValidatorSet, kinds: seq<Kind>, q: nat)
    requires base.epoch == 0 && q + 3 < |kinds| && kinds[q].Transition?
    requires AllAccepted(base, Lead(base, kinds).1)
    ensures ChangesOf(kinds[..Short(q, 2)]) == ChangesOf(kinds[..q])
  {
    StampIs(base, kinds, q);
    StampIs(base, kinds, q + 2);
    StampIs(base, kinds, q + 3);
    ChangesStep(kinds, q);
    StampMoves(base, kinds, q);
    ChangesPrefix(kinds, Short(q, 2), q);
  }

  lemma StampIs(base: ValidatorSet, kinds: seq<Kind>, m: nat)
    requires m < |kinds| && AllAccepted(base, Lead(base, kinds).1)
    ensures Lead(base, kinds).1[m].epoch == |ChangesOf(kinds[..Short(m, 2)])|
  {
    assert Accepts(base, Lead(base, kinds).1, m);
    DerivedAt(base, kinds, m);
  }

  /** The stamp changes after a transition only to the epoch that follows the transition's own. */
  lemma StampMoves(base: ValidatorSet, kinds: seq<Kind>, q: nat)
    requires base.epoch == 0 && q + 3 < |kinds|
    ensures var branch := Lead(base, kinds).1;
            branch[q + 3].epoch == branch[q + 2].epoch || branch[q + 3].epoch == branch[q].epoch + 1
  {
    LeadPrefix(base, kinds, q);
    LeadPrefix(base, kinds, q + 2);
    LeadPrefix(base, kinds, q + 3);
    assert kinds[..q + 3][..q + 2] == kinds[..q + 2];
    LeadStep(base, kinds[..q + 3]);
    SetsNumbered(base, kinds[..q + 2]);
  }

  lemma {:induction false} AcceptedSound(base: ValidatorSet, kinds: seq<Kind>, n: nat)
    requires base.epoch == 0 && n <= Short(|kinds|, 3)
    requires AllAccepted(base, Lead(base, kinds).1)
    ensures Sound(base, kinds, n)
    decreases n
  {
    if n == 0 {
      assert kinds[..0] == [];
    } else {
      var q := n - 1;
      AcceptedSound(base, kinds, q);
      assert Accepts(base, Lead(base, kinds).1, q + 3);
      DerivedAt(base, kinds, q + 3);
      if kinds[q].Transition? {
        AcceptedSpacing(base, kinds, q);
        NoneBetween(kinds, q);
      }
    }
  }

  lemma NoneBetween(kinds: seq<Kind>, q: nat)
    requires q < |kinds| && ChangesOf(kinds[..Short(q, 2)]) == ChangesOf(kinds[..q])
    ensures forall p :: 0 <= p < q && q - p < 3 ==> !kinds[p].Transition?
  {
    if q >= 1 { ChangesStep(kinds, q - 1); }
    if q >= 2 { ChangesStep(kinds, q - 2); }
  }

  /** Followers accept every block of a leader's branch if and only if the transitions that are committed on it are at
      least three blocks apart and can all be applied. */
  lemma EpochsAgree(base: ValidatorSet, kinds: seq<Kind>)
    requires base.epoch == 0
    ensures Sound(base, kinds, Short(|kinds|, 3)) <==> AllAccepted(base, Lead(base, kinds).1)
  {
    if Sound(base, kinds, Short(|kinds|, 3)) { SoundAcceptsAll(base, kinds, Lead(base, kinds).1); }
    if AllAccepted(base, Lead(base, kinds).1) { AcceptedSound(base, kinds, Short(|kinds|, 3)); }
  }

  lemma SoundAcceptsAll(base: ValidatorSet, kinds: seq<Kind>, branch: seq<Block>)
    requires base.epoch == 0 && Sound(base, kinds, Short(|kinds|, 3)) && branch == Lead(base, kinds).1
    ensures AllAccepted(base, branch)
  {
    forall m | 0 <= m < |branch| ensures Accepts(base, branch, m) {
      SoundAccepts(base, kinds, m);
    }
  }
}
