/** Quorums: any two of them share more than `f` members exactly when there are 3f + 1 members in all. */
module HsQuorum {
  import opened HsTypes

  lemma UnionSize(a: set<Id>, b: set<Id>)
    ensures |a + b| == |a| + |b| - |a * b|
  {
    assert a + b == a + (b - a) && a !! (b - a);
    assert b == (b - a) + (a * b) && (b - a) !! (a * b);
  }

  lemma SubsetSize(a: set<Id>, b: set<Id>)
    requires a <= b
    ensures |a| <= |b|
  {
    assert b == a + (b - a) && a !! (b - a);
  }

  lemma Overlap(members: set<Id>, a: set<Id>, b: set<Id>, q: nat)
    requires a <= members && b <= members && |a| >= q && |b| >= q
    ensures |a * b| >= 2 * q - |members|
  {
    UnionSize(a, b);
    SubsetSize(a + b, members);
  }

  /** With 3f + 1 members, of which at most f are Byzantine, two quorums have a correct member in common. */
  lemma CommonCorrect(c: Config, byzantine: set<Id>, a: set<Id>, b: set<Id>) returns (v: Id)
    requires c.members != {} && |c.members| == 3 * Faults(c) + 1 && |byzantine| <= Faults(c)
    requires a <= c.members && b <= c.members && |a| >= Quorum(c) && |b| >= Quorum(c)
    ensures v in a && v in b && v !in byzantine
  {
    Overlap(c.members, a, b, Quorum(c));
    if a * b <= byzantine { SubsetSize(a * b, byzantine); }
    v :| v in a * b && v !in byzantine;
  }

  function Range(lo: nat, hi: nat): (s: set<Id>)
    requires lo <= hi
    ensures forall i :: i in s <==> lo <= i < hi
    ensures |s| == hi - lo
    decreases hi
  {
    if lo == hi then {} else Range(lo, hi - 1) + {hi - 1}
  }

  /** A membership is good if any two quorums share more members than can be faulty. */
  ghost predicate Intersecting(n: nat)
    requires n >= 1
  {
    var c := Config(Range(0, n), 0);
    forall a: set<Id>, b: set<Id> ::
      a <= c.members && b <= c.members && |a| >= Quorum(c) && |b| >= Quorum(c) ==> |a * b| > Faults(c)
  }

  /** The quorum 2f + 1 with f = (n - 1) / 3 is good exactly for n = 3f + 1. */
  lemma IntersectingIff(n: nat)
    requires n >= 1
    ensures Intersecting(n) <==> n == 3 * ((n - 1) / 3) + 1
  {
    var c := Config(Range(0, n), 0);
    var f, q := Faults(c), Quorum(c);
    if n == 3 * f + 1 {
      forall a: set<Id>, b: set<Id> | a <= c.members && b <= c.members && |a| >= q && |b| >= q ensures |a * b| > f {
        Overlap(c.members, a, b, q);
      }
    } else {
      var a, b := Range(0, q), Range(n - q, n);
      assert a * b <= Range(if n - q < q then n - q else q, q) by {
        assert forall i :: i in a * b ==> n - q <= i < q;
      }
      SubsetSize(a * b, Range(if n - q < q then n - q else q, q));
      assert a <= c.members && b <= c.members && |a| == q && |b| == q;
      assert !(|a * b| > f);
    }
  }
}
