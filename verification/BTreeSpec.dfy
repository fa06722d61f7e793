/** The B+Tree as a value: insertion with splits, deletion with borrowing and merging. The functions are total; on a
    node without exactly one child more than keys, which no operation produces, they do nothing. */
module BTreeSpec {
  import opened Options
  import opened BTreeOrder

  const ORDER := 8
  const MAX_KEYS := ORDER - 1
  const MIN_KEYS := MAX_KEYS / 2

  datatype Tree =
    | Leaf(keys: seq<Expiration>)
    | Node(keys: seq<Expiration>, children: seq<Tree>)

  predicate Proper(t: Tree) {
    t.Node? ==> |t.children| == |t.keys| + 1
  }

  function InsertAt<T>(s: seq<T>, i: nat, x: T): seq<T>
    requires i <= |s|
  {
    s[..i] + [x] + s[i..]
  }

  function RemoveAt<T>(s: seq<T>, i: nat): seq<T>
    requires i < |s|
  {
    s[..i] + s[i + 1..]
  }

  // ---- insertion ----

  datatype Inserted = Fits(tree: Tree) | Split(left: Tree, key: Expiration, right: Tree)

  /** A leaf, split in two when it holds too many keys. */
  function SplitLeaf(keys: seq<Expiration>): Inserted {
    if |keys| <= MAX_KEYS then Fits(Leaf(keys))
    else var mid := |keys| / 2; Split(Leaf(keys[..mid]), keys[mid], Leaf(keys[mid..]))
  }

  /** An internal node, split around its middle key when it holds too many. */
  function SplitNode(keys: seq<Expiration>, children: seq<Tree>): Inserted
    requires |children| == |keys| + 1
  {
    if |keys| <= MAX_KEYS then Fits(Node(keys, children))
    else
      var mid := |keys| / 2;
      Split(Node(keys[..mid], children[..mid + 1]), keys[mid], Node(keys[mid + 1..], children[mid + 1..]))
  }

  /** A node whose child i has become one tree or two. */
  function PutInserted(keys: seq<Expiration>, children: seq<Tree>, i: nat, c: Inserted): Inserted
    requires |children| == |keys| + 1 && i <= |keys|
  {
    match c
    case Fits(t) => Fits(Node(keys, children[i := t]))
    case Split(l, k, r) => SplitNode(InsertAt(keys, i, k), InsertAt(children[i := l], i + 1, r))
  }

  function InsertInKeys(keys: seq<Expiration>, x: Expiration): Inserted {
    var i := LowerBound(keys, x);
    if i < |keys| && keys[i] == x then Fits(Leaf(keys)) else SplitLeaf(InsertAt(keys, i, x))
  }

  function Insert(t: Tree, x: Expiration): Inserted
    decreases t, 1
  {
    InsertHere(t, x)
  }

  /** Insertion as it looks from one node: into its keys, or into the child that must hold the entry. */
  function InsertHere(t: Tree, x: Expiration): Inserted
    decreases t, 0
  {
    if t.Leaf? then InsertInKeys(t.keys, x)
    else if !Proper(t) then Fits(t)
    else var i := ChildIndex(t.keys, x); PutInserted(t.keys, t.children, i, Insert(t.children[i], x))
  }

  /** The whole tree: a split root gets a new root above it. */
  function InsertRoot(t: Tree, x: Expiration): Tree {
    match Insert(t, x)
    case Fits(t') => t'
    case Split(l, k, r) => Node([k], [l, r])
  }

  // ---- deletion ----

  /** Two neighbours and the separator between them. */
  datatype Pair = Pair(left: Tree, key: Expiration, right: Tree)

  /** The left neighbour lends its last key, or its last child. */
  function LendLast(p: Pair): Pair {
    var last := |p.left.keys| - 1;
    if p.left.keys == [] || !Proper(p.left) then p
    else if p.left.Leaf? then
      var moved := p.left.keys[last];
      Pair(Leaf(p.left.keys[..last]), moved, Leaf([moved] + p.right.keys))
    else if p.right.Leaf? then p
    else
      Pair(Node(p.left.keys[..last], p.left.children[..last + 1]),
           p.left.keys[last],
           Node([p.key] + p.right.keys, [p.left.children[last + 1]] + p.right.children))
  }

  /** The right neighbour lends its first key, or its first child. */
  function LendFirst(p: Pair): Pair {
    if |p.right.keys| < 2 || !Proper(p.right) then p
    else if p.right.Leaf? then
      Pair(Leaf(p.left.keys + [p.right.keys[0]]), p.right.keys[1], Leaf(p.right.keys[1..]))
    else if p.left.Leaf? then p
    else
      Pair(Node(p.left.keys + [p.key], p.left.children + [p.right.children[0]]),
           p.right.keys[0],
           Node(p.right.keys[1..], p.right.children[1..]))
  }

  /** Two neighbours become one; between internal nodes the separator comes down. */
  function Join(p: Pair): Tree {
    if p.left.Leaf? || p.right.Leaf? then Leaf(p.left.keys + p.right.keys)
    else Node(p.left.keys + [p.key] + p.right.keys, p.left.children + p.right.children)
  }

  function PairAt(t: Tree, i: nat): Pair
    requires t.Node? && Proper(t) && i < |t.keys|
  {
    Pair(t.children[i], t.keys[i], t.children[i + 1])
  }

  function PutPair(t: Tree, i: nat, p: Pair): Tree
    requires t.Node? && Proper(t) && i < |t.keys|
  {
    Node(t.keys[i := p.key], t.children[i := p.left][i + 1 := p.right])
  }

  function PutJoined(t: Tree, i: nat, c: Tree): Tree
    requires t.Node? && Proper(t) && i < |t.keys|
  {
    Node(RemoveAt(t.keys, i), RemoveAt(t.children[i := c], i + 1))
  }

  /** Restores the occupancy of a child that may have lost a key: borrow from a neighbour, or merge with one. */
  function FixChild(t: Tree, i: nat): Tree
    requires t.Node? && Proper(t) && i <= |t.keys|
  {
    var n := |t.keys|;
    if |t.children[i].keys| >= MIN_KEYS || n == 0 then t
    else if i > 0 && |t.children[i - 1].keys| > MIN_KEYS then PutPair(t, i - 1, LendLast(PairAt(t, i - 1)))
    else if i < n && |t.children[i + 1].keys| > MIN_KEYS then PutPair(t, i, LendFirst(PairAt(t, i)))
    else if i > 0 then PutJoined(t, i - 1, Join(PairAt(t, i - 1)))
    else PutJoined(t, i, Join(PairAt(t, i)))
  }

  function DeleteFromKeys(keys: seq<Expiration>, x: Expiration): Option<Tree> {
    var i := LowerBound(keys, x);
    if i >= |keys| || keys[i] != x then None else Some(Leaf(RemoveAt(keys, i)))
  }

  /** The tree without `x`, or nothing if `x` is not where it would have to be. */
  function Delete(t: Tree, x: Expiration): Option<Tree>
    decreases t, 1
  {
    DeleteHere(t, x)
  }

  /** Deletion as it looks from one node. */
  function DeleteHere(t: Tree, x: Expiration): Option<Tree>
    decreases t, 0
  {
    if t.Leaf? then DeleteFromKeys(t.keys, x)
    else if !Proper(t) then None
    else var i := ChildIndex(t.keys, x); PutDeleted(t.keys, t.children, i, Delete(t.children[i], x))
  }

  /** A node whose child i may have lost a key. */
  function PutDeleted(keys: seq<Expiration>, children: seq<Tree>, i: nat, c: Option<Tree>): Option<Tree>
    requires |children| == |keys| + 1 && i <= |keys|
  {
    if c.None? then None else Some(FixChild(Node(keys, children[i := c.value]), i))
  }

  /** The whole tree: a root with a single child gives way to it. */
  function DeleteRoot(t: Tree, x: Expiration): Option<Tree> {
    match Delete(t, x)
    case None => None
    case Some(t') => if t'.Node? && |t'.children| == 1 then Some(t'.children[0]) else Some(t')
  }
}
