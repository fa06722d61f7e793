/** The order of the expiration index: by expiry first, then by key. */
module BTreeOrder {
  datatype Expiration = Expiration(key: string, exp: int)

  predicate StringLess(a: string, b: string) {
    if b == [] then false
    else if a == [] then true
    else a[0] < b[0] || (a[0] == b[0] && StringLess(a[1..], b[1..]))
  }

  predicate Less(a: Expiration, b: Expiration) {
    if a.exp != b.exp then a.exp < b.exp else StringLess(a.key, b.key)
  }

  lemma {:induction false} StringTransitive(a: string, b: string, c: string)
    requires StringLess(a, b) && StringLess(b, c)
    ensures StringLess(a, c)
  {
    if a != [] && a[0] == b[0] == c[0] { StringTransitive(a[1..], b[1..], c[1..]); }
  }

  lemma {:induction false} StringTotal(a: string, b: string)
    ensures StringLess(a, b) || a == b || StringLess(b, a)
    ensures !(StringLess(a, b) && StringLess(b, a)) && !StringLess(a, a)
  {
    if a != [] && b != [] && a[0] == b[0] {
      StringTotal(a[1..], b[1..]);
      if a[1..] == b[1..] { assert a == [a[0]] + a[1..] && b == [b[0]] + b[1..]; }
    }
    if a != [] { StringTotal(a[1..], a[1..]); }
  }

  /** `Less` is a strict total order. */
  lemma TotalOrder()
    ensures forall a, b, c :: Less(a, b) && Less(b, c) ==> Less(a, c)
    ensures forall a, b :: Less(a, b) || a == b || Less(b, a)
    ensures forall a, b :: Less(a, b) ==> !Less(b, a)
    ensures forall a :: !Less(a, a)
  {
    forall a, b, c | Less(a, b) && Less(b, c) ensures Less(a, c) {
      if a.exp == b.exp == c.exp { StringTransitive(a.key, b.key, c.key); }
    }
    forall a, b ensures (Less(a, b) || a == b || Less(b, a)) && (Less(a, b) ==> !Less(b, a)) && !Less(a, a) {
      StringTotal(a.key, b.key);
      StringTotal(a.key, a.key);
    }
  }

  /** Strictly ascending. */
  predicate Sorted(s: seq<Expiration>) {
    forall i, j :: 0 <= i < j < |s| ==> Less(s[i], s[j])
  }

  /** The number of keys below the target, in a sorted sequence. */
  function LowerBound(s: seq<Expiration>, x: Expiration): (r: nat)
    ensures r <= |s|
    ensures forall i :: 0 <= i < r ==> Less(s[i], x)
    ensures r < |s| ==> !Less(s[r], x)
  {
    if s == [] || !Less(s[0], x) then 0 else 1 + LowerBound(s[1..], x)
  }

  /** The number of keys not above the target, in a sorted sequence. */
  function ChildIndex(s: seq<Expiration>, x: Expiration): (r: nat)
    ensures r <= |s|
    ensures forall i :: 0 <= i < r ==> !Less(x, s[i])
    ensures r < |s| ==> Less(x, s[r])
  {
    if s == [] || Less(x, s[0]) then 0 else 1 + ChildIndex(s[1..], x)
  }

  /** The binary search of a leaf. */
  method FindLowerBound(s: seq<Expiration>, x: Expiration) returns (lo: nat)
    requires Sorted(s)
    ensures lo == LowerBound(s, x)
  {
    TotalOrder();
    var hi := |s|;
    lo := 0;
    while lo < hi
      invariant 0 <= lo <= LowerBound(s, x) <= hi <= |s|
    {
      var mid := (lo + hi) / 2;
      if Less(s[mid], x) {
        lo := mid + 1;
      } else {
        hi := mid;
      }
    }
  }

  /** The binary search of an internal node. */
  method FindChildIndex(s: seq<Expiration>, x: Expiration) returns (lo: nat)
    requires Sorted(s)
    ensures lo == ChildIndex(s, x)
  {
    TotalOrder();
    var hi := |s|;
    lo := 0;
    while lo < hi
      invariant 0 <= lo <= ChildIndex(s, x) <= hi <= |s|
    {
      var mid := (lo + hi) / 2;
      if Less(x, s[mid]) {
        hi := mid;
      } else {
        lo := mid + 1;
      }
    }
  }
}
