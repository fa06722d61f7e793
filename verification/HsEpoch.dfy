/** Membership by epochs: a transition block changes the validator set once it is committed. A leader stamps its blocks
    with the epoch it has activated; a follower derives the epoch of a block from its ancestry. */
module HsEpoch {
  import opened Options

  type Key = seq<nat>

  const KEY_SIZE := 32

  datatype ValidatorSet = ValidatorSet(epoch: nat, members: set<string>, keys: map<string, Key>)

  datatype Entry = Entry(id: string, pub: Key)

  datatype Change = Change(add: seq<Entry>, remove: seq<string>)

  // ---- one change ----

  function Removed(mc: Change): set<string> {
    set i | 0 <= i < |mc.remove| :: mc.remove[i]
  }

  function Added(adds: seq<Entry>): set<string> {
    set i | 0 <= i < |adds| :: adds[i].id
  }

  function AddKeys(keys: map<string, Key>, adds: seq<Entry>): map<string, Key>
    decreases |adds|
  {
    if adds == [] then keys
    else AddKeys(keys, adds[..|adds| - 1])[adds[|adds| - 1].id := adds[|adds| - 1].pub]
  }

  /** Members are removed once each. */
  predicate RemovesOk(s: ValidatorSet, mc: Change) {
    && (forall i :: 0 <= i < |mc.remove| ==> mc.remove[i] in s.members)
    && (forall i, j :: 0 <= i < j < |mc.remove| ==> mc.remove[i] != mc.remove[j])
  }

  /** Newcomers are added once each, with a proper key. */
  predicate AddsOk(left: set<string>, adds: seq<Entry>) {
    && (forall i :: 0 <= i < |adds| ==> |adds[i].pub| == KEY_SIZE && adds[i].id !in left)
    && (forall i, j :: 0 <= i < j < |adds| ==> adds[i].id != adds[j].id)
  }

  /** The change is well formed and leaves somebody. */
  predicate WellFormed(s: ValidatorSet, mc: Change) {
    var left := s.members - Removed(mc);
    RemovesOk(s, mc) && AddsOk(left, mc.add) && left + Added(mc.add) != {}
  }

  function Apply(s: ValidatorSet, mc: Change): Option<ValidatorSet> {
    if !WellFormed(s, mc) then None
    else Some(ValidatorSet(s.epoch + 1, s.members - Removed(mc) + Added(mc.add), AddKeys(s.keys, mc.add)))
  }

  method RemoveMembers(s: ValidatorSet, mc: Change) returns (left: Option<set<string>>)
    ensures left.Some? <==> RemovesOk(s, mc)
    ensures left.Some? ==> left.value == s.members - Removed(mc)
  {
    var rest := s.members;
    var i := 0;
    while i < |mc.remove|
      invariant i <= |mc.remove|
      invariant forall k :: 0 <= k < i ==> mc.remove[k] in s.members
      invariant forall k, l :: 0 <= k < l < i ==> mc.remove[k] != mc.remove[l]
      invariant rest == s.members - (set k | 0 <= k < i :: mc.remove[k])
    {
      if mc.remove[i] !in rest { return None; }
      rest := rest - {mc.remove[i]};
      i := i + 1;
    }
    return Some(rest);
  }

  method AddMembers(left: set<string>, keys: map<string, Key>, adds: seq<Entry>)
    returns (r: Option<(set<string>, map<string, Key>)>)
    ensures r.Some? <==> AddsOk(left, adds)
    ensures r.Some? ==> r.value == (left + Added(adds), AddKeys(keys, adds))
  {
    var members, all := left, keys;
    var i := 0;
    while i < |adds|
      invariant i <= |adds| && AddsOk(left, adds[..i])
      invariant members == left + Added(adds[..i]) && all == AddKeys(keys, adds[..i])
    {
      var a := adds[i];
      if a.id in members || |a.pub| != KEY_SIZE {
        Refused(left, adds, i);
        return None;
      }
      AddedGrows(adds, i);
      AddsGrow(left, adds, i);
      members := members + {a.id};
      all := all[a.id := a.pub];
      i := i + 1;
    }
    assert adds[..i] == adds;
    return Some((members, all));
  }

  lemma Refused(left: set<string>, adds: seq<Entry>, i: nat)
    requires i < |adds| && (adds[i].id in left + Added(adds[..i]) || |adds[i].pub| != KEY_SIZE)
    ensures !AddsOk(left, adds)
  {
    if adds[i].id in Added(adds[..i]) {
      var k :| 0 <= k < i && adds[..i][k].id == adds[i].id;
      assert adds[k].id == adds[i].id;
    }
  }

  // ---- id by id ----

  predicate Adds(mc: Change, id: string) {
    exists i :: 0 <= i < |mc.add| && mc.add[i].id == id
  }

  predicate Removes(mc: Change, id: string) {
    exists i :: 0 <= i < |mc.remove| && mc.remove[i] == id
  }

  /** What a change makes of one id: a newcomer comes in with its own key, a member stays unless it is removed, and nobody
      else gets another key. */
  predicate Takes(s: ValidatorSet, mc: Change, s': ValidatorSet, id: string) {
    && (id in s'.members <==> Adds(mc, id) || (id in s.members && !Removes(mc, id)))
    && (forall i :: 0 <= i < |mc.add| && mc.add[i].id == id ==> id in s'.keys && s'.keys[id] == mc.add[i].pub)
    && (!Adds(mc, id) ==> (id in s'.keys <==> id in s.keys) && (id in s.keys ==> s'.keys[id] == s.keys[id]))
  }

  lemma {:induction false} KeyAdded(keys: map<string, Key>, adds: seq<Entry>, i: nat)
    requires i < |adds| && forall j :: i < j < |adds| ==> adds[j].id != adds[i].id
    ensures adds[i].id in AddKeys(keys, adds) && AddKeys(keys, adds)[adds[i].id] == adds[i].pub
    decreases |adds|
  {
    if i < |adds| - 1 { KeyAdded(keys, adds[..|adds| - 1], i); }
  }

  lemma {:induction false} KeyStays(keys: map<string, Key>, adds: seq<Entry>, id: string)
    requires forall i :: 0 <= i < |adds| ==> adds[i].id != id
    ensures (id in AddKeys(keys, adds) <==> id in keys) && (id in keys ==> AddKeys(keys, adds)[id] == keys[id])
    decreases |adds|
  {
    if adds != [] { KeyStays(keys, adds[..|adds| - 1], id); }
  }

  lemma ApplyTakes(s: ValidatorSet, mc: Change, id: string)
    requires Apply(s, mc).Some?
    ensures Takes(s, mc, Apply(s, mc).value, id)
  {
    assert Adds(mc, id) <==> id in Added(mc.add);
    assert Removes(mc, id) <==> id in Removed(mc);
    if Adds(mc, id) {
      forall i | 0 <= i < |mc.add| && mc.add[i].id == id
        ensures id in AddKeys(s.keys, mc.add) && AddKeys(s.keys, mc.add)[id] == mc.add[i].pub
      {
        KeyAdded(s.keys, mc.add, i);
      }
    } else {
      KeyStays(s.keys, mc.add, id);
    }
  }

  /** Derives the next set, or fails. */
  method ApplyChange(s: ValidatorSet, mc: Change) returns (r: Option<ValidatorSet>)
    ensures r == Apply(s, mc) && (r.Some? <==> WellFormed(s, mc))
    ensures r.Some? ==> r.value.epoch == s.epoch + 1 && forall id :: Takes(s, mc, r.value, id)
  {
    var left := RemoveMembers(s, mc);
    if left.None? { return None; }
    var all := AddMembers(left.value, s.keys, mc.add);
    if all.None? || all.value.0 == {} { return None; }
    r := Some(ValidatorSet(s.epoch + 1, all.value.0, all.value.1));
    forall id ensures Takes(s, mc, r.value, id) { ApplyTakes(s, mc, id); }
  }

  lemma AddsGrow(left: set<string>, adds: seq<Entry>, i: nat)
    requires i < |adds| && AddsOk(left, adds[..i])
    requires adds[i].id !in left + Added(adds[..i]) && |adds[i].pub| == KEY_SIZE
    ensures AddsOk(left, adds[..i + 1])
  {
    forall k | 0 <= k < i ensures adds[k].id != adds[i].id {
      assert adds[..i][k].id in Added(adds[..i]);
    }
  }

  lemma AddedGrows(adds: seq<Entry>, i: nat)
    requires i < |adds|
    ensures Added(adds[..i + 1]) == Added(adds[..i]) + {adds[i].id} && adds[..i + 1][..i] == adds[..i]
  {
    forall id | id in Added(adds[..i]) + {adds[i].id} ensures id in Added(adds[..i + 1]) {
      if id in Added(adds[..i]) {
        var k :| 0 <= k < i && adds[..i][k].id == id;
        assert adds[..i + 1][k].id == id;
      } else {
        assert adds[..i + 1][i].id == id;
      }
    }
    forall id | id in Added(adds[..i + 1]) ensures id in Added(adds[..i]) + {adds[i].id} {
      var k :| 0 <= k < i + 1 && adds[..i + 1][k].id == id;
      if k < i { assert adds[..i][k].id == id; }
    }
  }
}
