/** A follower tries each height once: whether or not its vote became durable and left, until a restart it votes only
    above the block it has accepted. Its head is a tallest block it knows. */
module HsHeights {
  import opened Options
  import opened HsTypes
  import opened HsSpec
  import opened HsRecovery
  import opened HsDurable
  import opened HsHistory
  import opened HsSystem
  import opened HsInvariant
  import opened HsSafety
  import opened HsSteps
  import opened HsCrash
  import opened HsTheorems
  import opened HsLeader
  import opened HsSkips
  import opened HsCertify

  /** From here on the replica has voted only above the height. */
  predicate VotesOver(h: seq<Event>, from: nat, r: Id, height: nat) {
    forall i :: from <= i < |h| && h[i].voter == r ==> Height(h[i].block) > height
  }

  /** One handler: an accepted block uses up its height, and a vote is above all heights used up before. */
  lemma HandlerSpends(c: Config, byzantine: set<Id>, h: seq<Event>, r: Replica, b: Block, durable: bool)
    requires c.members != {} && Sound(r) && Content(b) == Some(b.id) && b.parent.value in r.blocks
    ensures var (r', news) := Follower(c, byzantine, h, r, b, durable);
            && r'.vHeight >= b.height && r'.vHeight >= r.vHeight && r'.id == r.id
            && (news != [] ==> b.height > r.vHeight && |news| == 1 && news[0].block == b.id)
  {
    TakenCounts(c, KeysOf(byzantine, h), Insert(r, b), b.justify);
  }

  lemma DeliverSpends(c: Config, byzantine: set<Id>, s: System, a: Action)
    requires c.members != {} && AllSound(s) && a.Deliver? && Enabled(c, s, a) && s.replicas[a.to].id == a.to
    ensures var s' := Complete(c, byzantine, s, a);
            && a.to in s'.replicas && s'.replicas[a.to].vHeight >= s.replicas[a.to].vHeight
            && VotesOver(s'.history, |s.history|, a.to, s.replicas[a.to].vHeight)
            && (Acceptable(c, KeysOf(byzantine, s.history), s.replicas[a.to], a.p, a.signed)
                ==> s'.replicas[a.to].vHeight >= a.p.block.height)
  {
    if Acceptable(c, KeysOf(byzantine, s.history), s.replicas[a.to], a.p, a.signed) {
      var r := s.replicas[a.to];
      var (r', news) := Follower(c, byzantine, s.history, r, a.p.block, a.durable);
      AcceptedShape(c, byzantine, s, a);
      HandlerSpends(c, byzantine, s.history, r, a.p.block, a.durable);
      OneVoteOver(s.history, news, a.to, r.vHeight);
    } else {
      RefusedShape(c, byzantine, s, a);
    }
  }

  lemma OneVoteOver(h: seq<Event>, news: seq<Event>, r: Id, height: nat)
    requires news != [] ==> |news| == 1 && Height(news[0].block) > height
    ensures VotesOver(h + news, |h|, r, height)
  {
  }

  lemma ActorVotes(c: Config, byzantine: set<Id>, s: System, a: Action)
    requires c.members != {} && AllSound(s) && Enabled(c, s, a) && !a.Crash?
    requires Actor(c, a) in s.replicas && s.replicas[Actor(c, a)].id == Actor(c, a)
    ensures forall e :: e in NewEvents(c, byzantine, s, a) ==> e.voter == Actor(c, a)
  {
  }

  lemma HistoryIs(c: Config, byzantine: set<Id>, s: System, a: Action)
    requires c.members != {} && AllSound(s) && Enabled(c, s, a)
    ensures var d := if a.Crash? then a.during else a;
            var h' := Step(c, byzantine, s, a).history; h' == s.history || h' == s.history + NewEvents(c, byzantine, s, d)
  {
  }

  lemma OthersVote(c: Config, byzantine: set<Id>, s: System, a: Action, r: Id, height: nat)
    requires c.members != {} && AllSound(s) && Enabled(c, s, a) && Actor(c, a) != r
    requires Actor(c, a) in s.replicas && s.replicas[Actor(c, a)].id == Actor(c, a)
    ensures VotesOver(Step(c, byzantine, s, a).history, |s.history|, r, height)
  {
    var d := if a.Crash? then a.during else a;
    ActorVotes(c, byzantine, s, d);
    HistoryIs(c, byzantine, s, a);
    NotMine(s.history, NewEvents(c, byzantine, s, d), r, height);
  }

  lemma NotMine(h: seq<Event>, news: seq<Event>, r: Id, height: nat)
    requires forall e :: e in news ==> e.voter != r
    ensures VotesOver(h + news, |h|, r, height)
  {
  }

  lemma StepVotesOver(c: Config, byzantine: set<Id>, s: System, a: Action, r: Id)
    requires c.members != {} && AllSound(s) && Enabled(c, s, a) && r in s.replicas && r != c.leader
    requires (forall x :: x in s.replicas ==> s.replicas[x].id == x) && !(a.Crash? && Actor(c, a) == r)
    ensures var s' := Step(c, byzantine, s, a);
            && r in s'.replicas && s'.replicas[r].vHeight >= s.replicas[r].vHeight && s.history <= s'.history
            && VotesOver(s'.history, |s.history|, r, s.replicas[r].vHeight)
  {
    HistoryStays(c, byzantine, s, a);
    assert Actor(c, a) in s.replicas;
    if Actor(c, a) == r {
      DeliverSpends(c, byzantine, s, a);
    } else {
      OthersStay(c, byzantine, s, a, r);
      OthersVote(c, byzantine, s, a, r, s.replicas[r].vHeight);
    }
  }

  lemma VotesOverMore(h: seq<Event>, h1: seq<Event>, h': seq<Event>, r: Id, low: nat, high: nat)
    requires h <= h1 <= h' && low <= high && VotesOver(h1, |h|, r, low) && VotesOver(h', |h1|, r, high)
    ensures h <= h' && VotesOver(h', |h|, r, low)
  {
  }

  lemma CutMore(run: seq<Action>, more: seq<Action>) returns (front: seq<Action>, a: Action)
    requires more != []
    ensures more == front + [a] && run + more == run + front + [a] && |front| < |more|
  {
    front, a := CutLast(more);
  }

  lemma SteadyBefore(c: Config, more: seq<Action>, front: seq<Action>, a: Action, r: Id)
    requires more == front + [a] && Steady(c, more, r)
    ensures Steady(c, front, r) && !(a.Crash? && Actor(c, a) == r)
  {
    assert more[|front|] == a && forall i :: 0 <= i < |front| ==> front[i] == more[i];
  }

  lemma ExecCut(c: Config, byzantine: set<Id>, run: seq<Action>, a: Action)
    requires Setting(c, byzantine) && Exec(c, byzantine, run + [a]).Some?
    ensures Exec(c, byzantine, run).Some?
    ensures var s := Exec(c, byzantine, run).value;
            AllSound(s) && Enabled(c, s, a) && Exec(c, byzantine, run + [a]).value == Step(c, byzantine, s, a)
  {
    assert (run + [a])[..|run|] == run;
  }

  lemma {:induction false} RunVotesOver(c: Config, byzantine: set<Id>, run: seq<Action>, more: seq<Action>, r: Id)
    requires Setting(c, byzantine) && byzantine <= c.members && r in c.members - byzantine && r != c.leader
    requires Exec(c, byzantine, run).Some? && Exec(c, byzantine, run + more).Some? && Steady(c, more, r)
    ensures var s, s' := Exec(c, byzantine, run).value, Exec(c, byzantine, run + more).value;
            && r in s.replicas && r in s'.replicas && s'.replicas[r].vHeight >= s.replicas[r].vHeight && s.history <= s'.history
            && VotesOver(s'.history, |s.history|, r, s.replicas[r].vHeight)
    decreases |more|
  {
    RunSound(c, byzantine, run);
    if more == [] {
      assert run + more == run;
    } else {
      var front, a := CutMore(run, more);
      SteadyBefore(c, more, front, a, r);
      ExecCut(c, byzantine, run + front, a);
      RunVotesOver(c, byzantine, run, front, r);
      RunSound(c, byzantine, run + front);
      var s, s1 := Exec(c, byzantine, run).value, Exec(c, byzantine, run + front).value;
      StepVotesOver(c, byzantine, s1, a, r);
      VotesOverMore(s.history, s1.history, Step(c, byzantine, s1, a).history, r, s.replicas[r].vHeight, s1.replicas[r].vHeight);
    }
  }

  /** Once a follower has accepted a block, all its later votes before its next restart are above that block, even if the
      height of the vote could not be made durable and no vote was cast. */
  lemma HeightIsSpent(c: Config, byzantine: set<Id>, run: seq<Action>, a: Action, more: seq<Action>)
    requires Setting(c, byzantine) && byzantine <= c.members && a.Deliver? && a.to in c.members - byzantine && a.to != c.leader
    requires Exec(c, byzantine, run).Some? && Exec(c, byzantine, run + [a]).Some? && Exec(c, byzantine, run + [a] + more).Some?
    requires var s := Exec(c, byzantine, run).value;
             && a.to in s.replicas && Sound(s.replicas[a.to])
             && Acceptable(c, KeysOf(byzantine, s.history), s.replicas[a.to], a.p, a.signed)
    requires Steady(c, more, a.to)
    ensures var n := |Exec(c, byzantine, run + [a]).value.history|;
            VotesOver(Exec(c, byzantine, run + [a] + more).value.history, n, a.to, a.p.block.height)
  {
    RunSound(c, byzantine, run);
    ExecCut(c, byzantine, run, a);
    DeliverSpends(c, byzantine, Exec(c, byzantine, run).value, a);
    RunVotesOver(c, byzantine, run + [a], more, a.to);
  }

  // ---- the head ----

  lemma FollowerHead(c: Config, byzantine: set<Id>, h: seq<Event>, r: Replica, b: Block, durable: bool)
    requires c.members != {} && Sound(r) && Content(b) == Some(b.id) && b.parent.value in r.blocks && HeadHighest(r)
    ensures var r' := Follower(c, byzantine, h, r, b, durable).0; HeadHighest(r') && r'.id == r.id
  {
    TakenCounts(c, KeysOf(byzantine, h), Insert(r, b), b.justify);
  }

  lemma StepHead(c: Config, byzantine: set<Id>, s: System, a: Action, r: Id)
    requires c.members != {} && AllSound(s) && Enabled(c, s, a) && r in s.replicas && r != c.leader && HeadHighest(s.replicas[r])
    requires s.replicas[r].id == r && !(a.Crash? && Actor(c, a) == r)
    ensures var s' := Step(c, byzantine, s, a); r in s'.replicas && HeadHighest(s'.replicas[r])
  {
    if Actor(c, a) != r {
      OthersStay(c, byzantine, s, a, r);
    } else if Acceptable(c, KeysOf(byzantine, s.history), s.replicas[r], a.p, a.signed) {
      AcceptedShape(c, byzantine, s, a);
      FollowerHead(c, byzantine, s.history, s.replicas[r], a.p.block, a.durable);
    } else {
      RefusedShape(c, byzantine, s, a);
    }
  }

  /** Until its first restart, the head of a follower is a tallest block of its tree, whatever it is sent. */
  lemma {:induction false} HeadIsTallest(c: Config, byzantine: set<Id>, run: seq<Action>, r: Id)
    requires Setting(c, byzantine) && byzantine <= c.members && r in c.members - byzantine && r != c.leader
    requires Exec(c, byzantine, run).Some? && Steady(c, run, r)
    ensures r in Exec(c, byzantine, run).value.replicas && HeadHighest(Exec(c, byzantine, run).value.replicas[r])
    decreases |run|
  {
    if run != [] {
      var before, a := CutMore([], run);
      assert run == [] + run && [] + before == before;
      SteadyBefore(c, run, before, a, r);
      ExecCut(c, byzantine, before, a);
      HeadIsTallest(c, byzantine, before, r);
      RunSound(c, byzantine, before);
      StepHead(c, byzantine, Exec(c, byzantine, before).value, a, r);
    }
  }
}
