/** The daily root over record hashes: levels are paired off, an odd last node with itself. The hash of a
    pair is any function. */
module Merkle {
  type Hash = (string, string) -> string

  datatype Pair = Pair(left: string, right: string)

  function Above(hash: Hash, level: seq<string>, i: nat): string
    requires 2 * i < |level|
  {
    hash(level[2 * i], if 2 * i + 1 < |level| then level[2 * i + 1] else level[2 * i])
  }

  function NextLevel(hash: Hash, level: seq<string>): (next: seq<string>)
    ensures |next| == (|level| + 1) / 2
    ensures forall i :: 0 <= i < |next| ==> next[i] == Above(hash, level, i)
  {
    seq((|level| + 1) / 2, i requires 0 <= i < (|level| + 1) / 2 => Above(hash, level, i))
  }

  function Root(hash: Hash, leaves: seq<string>): string
    decreases |leaves|
  {
    if leaves == [] then "" else if |leaves| == 1 then leaves[0] else Root(hash, NextLevel(hash, leaves))
  }

  method MerkleRoot(hash: Hash, leaves: seq<string>) returns (root: string)
    ensures root == Root(hash, leaves)
  {
    if |leaves| == 0 {
      return "";
    }
    var level := leaves;
    while |level| > 1
      invariant |level| >= 1 && Root(hash, level) == Root(hash, leaves)
      decreases |level|
    {
      var next: seq<string> := [];
      var i := 0;
      while i < |level|
        invariant i == 2 * |next| && i <= |level| + 1
        invariant forall k :: 0 <= k < |next| ==> next[k] == Above(hash, level, k)
      {
        var left := level[i];
        var right := left;
        if i + 1 < |level| {
          right := level[i + 1];
        }
        next := next + [hash(left, right)];
        i := i + 2;
      }
      assert next == NextLevel(hash, level);
      level := next;
    }
    root := level[0];
  }

  // ---------------------------------------------------------------------------
  // The tree
  // ---------------------------------------------------------------------------

  /** Nodes at a height over n leaves. */
  function Width(n: nat, height: nat): nat {
    if height == 0 then n else (Width(n, height - 1) + 1) / 2
  }

  /** Node i at a height, top down: a leaf, or the hash of its children, the last of an odd row twice. */
  function Node(hash: Hash, leaves: seq<string>, height: nat, i: nat): string
    requires i < Width(|leaves|, height)
    decreases height
  {
    if height == 0 then leaves[i]
    else
      hash(Node(hash, leaves, height - 1, 2 * i),
           Node(hash, leaves, height - 1, if 2 * i + 1 < Width(|leaves|, height - 1) then 2 * i + 1 else 2 * i))
  }

  function Row(hash: Hash, leaves: seq<string>, height: nat): (row: seq<string>)
    ensures |row| == Width(|leaves|, height)
    ensures forall i :: 0 <= i < |row| ==> row[i] == Node(hash, leaves, height, i)
  {
    seq(Width(|leaves|, height), i requires 0 <= i < Width(|leaves|, height) => Node(hash, leaves, height, i))
  }

  lemma RowAbove(hash: Hash, leaves: seq<string>, height: nat)
    ensures NextLevel(hash, Row(hash, leaves, height)) == Row(hash, leaves, height + 1)
  {}

  /** From any height on, the loop computes the top node of the tree. */
  lemma {:induction false} RootOfRow(hash: Hash, leaves: seq<string>, height: nat, top: nat)
    requires height <= top && Width(|leaves|, top) == 1
    requires forall h :: height <= h < top ==> Width(|leaves|, h) > 1
    ensures Root(hash, Row(hash, leaves, height)) == Node(hash, leaves, top, 0)
    decreases top - height
  {
    if height < top {
      RowAbove(hash, leaves, height);
      RootOfRow(hash, leaves, height + 1, top);
    }
  }

  function Height(n: nat): nat {
    if n <= 1 then 0 else 1 + Height((n + 1) / 2)
  }

  lemma {:induction false} WidthAbove(n: nat, height: nat)
    ensures Width(n, height + 1) == Width((n + 1) / 2, height)
  {
    if height > 0 {
      WidthAbove(n, height - 1);
    }
  }

  lemma {:induction false} OneAtTheTop(n: nat)
    requires n >= 1
    ensures Width(n, Height(n)) == 1 && forall h :: 0 <= h < Height(n) ==> Width(n, h) > 1
  {
    if n > 1 {
      OneAtTheTop((n + 1) / 2);
      WidthAbove(n, Height((n + 1) / 2));
      forall h | 0 <= h < Height(n) ensures Width(n, h) > 1 {
        if h > 0 {
          WidthAbove(n, h - 1);
        }
      }
    }
  }

  /** The level loop computes the root of the duplicate-last tree. */
  lemma RootIsTree(hash: Hash, leaves: seq<string>)
    requires leaves != []
    ensures Width(|leaves|, Height(|leaves|)) == 1
    ensures Root(hash, leaves) == Node(hash, leaves, Height(|leaves|), 0)
  {
    OneAtTheTop(|leaves|);
    assert Row(hash, leaves, 0) == leaves;
    RootOfRow(hash, leaves, 0, Height(|leaves|));
  }

  // ---------------------------------------------------------------------------
  // Binding
  // ---------------------------------------------------------------------------

  function PairAt(level: seq<string>, i: nat): Pair
    requires 2 * i < |level|
  {
    Pair(level[2 * i], if 2 * i + 1 < |level| then level[2 * i + 1] else level[2 * i])
  }

  /** The first place where two levels pair off differently, from i on. */
  function FirstDifference(a: seq<string>, b: seq<string>, i: nat): nat
    requires |a| == |b| && i <= (|a| + 1) / 2
    decreases (|a| + 1) / 2 - i
  {
    if i == (|a| + 1) / 2 || PairAt(a, i) != PairAt(b, i) then i else FirstDifference(a, b, i + 1)
  }

  lemma {:induction false} DifferenceIsFound(a: seq<string>, b: seq<string>, i: nat)
    requires |a| == |b| && i <= (|a| + 1) / 2 && (forall k :: 0 <= k < 2 * i && k < |a| ==> a[k] == b[k]) && a != b
    ensures var d := FirstDifference(a, b, i); 2 * d < |a| && PairAt(a, d) != PairAt(b, d)
    decreases (|a| + 1) / 2 - i
  {
    if i < (|a| + 1) / 2 && PairAt(a, i) == PairAt(b, i) {
      DifferenceIsFound(a, b, i + 1);
    }
  }

  /** Two inputs of the hash, found by comparing the levels of two lists. */
  function Collision(hash: Hash, a: seq<string>, b: seq<string>): (Pair, Pair)
    requires |a| == |b| && |a| > 1 && a != b
    decreases |a|
  {
    var x, y := NextLevel(hash, a), NextLevel(hash, b);
    if x == y || |x| <= 1 then
      DifferenceIsFound(a, b, 0);
      var d := FirstDifference(a, b, 0);
      (PairAt(a, d), PairAt(b, d))
    else Collision(hash, x, y)
  }

  /** Lists of one length with one root are the same list, or the comparison of their levels exhibits two
      different inputs with one hash. */
  lemma {:induction false} RootBindsList(hash: Hash, a: seq<string>, b: seq<string>)
    requires |a| == |b| && Root(hash, a) == Root(hash, b) && a != b
    ensures |a| > 1
    ensures var (p, q) := Collision(hash, a, b); p != q && hash(p.left, p.right) == hash(q.left, q.right)
    decreases |a|
  {
    if |a| > 1 {
      var x, y := NextLevel(hash, a), NextLevel(hash, b);
      if x == y || |x| <= 1 {
        assert x == y;
        DifferenceIsFound(a, b, 0);
        var d := FirstDifference(a, b, 0);
        assert x[d] == Above(hash, a, d) && y[d] == Above(hash, b, d);
      } else {
        RootBindsList(hash, x, y);
      }
    }
  }

  lemma RootAbove(hash: Hash, leaves: seq<string>)
    requires |leaves| > 1
    ensures Root(hash, leaves) == Root(hash, NextLevel(hash, leaves))
  {}

  /** The root does not bind the length: for every list of more than one leaf, its first level of hashes is a
      shorter list with the same root. Lists of one length, as in RootBindsList, are bound. */
  lemma LevelHasSameRoot(hash: Hash, leaves: seq<string>)
    requires |leaves| > 1
    ensures |NextLevel(hash, leaves)| < |leaves| && Root(hash, NextLevel(hash, leaves)) == Root(hash, leaves)
  {
    RootAbove(hash, leaves);
  }

  /** Repeating the last record of an odd list changes nothing either. */
  lemma RepeatedLastIsUnseen(hash: Hash, leaves: seq<string>)
    requires |leaves| > 1 && |leaves| % 2 == 1
    ensures Root(hash, leaves + [leaves[|leaves| - 1]]) == Root(hash, leaves)
  {
    hide Root;
    var longer := leaves + [leaves[|leaves| - 1]];
    var x, y := NextLevel(hash, leaves), NextLevel(hash, longer);
    forall i | 0 <= i < |x| ensures x[i] == y[i] {
      assert x[i] == Above(hash, leaves, i) && y[i] == Above(hash, longer, i);
    }
    assert x == y;
    RootAbove(hash, leaves);
    RootAbove(hash, longer);
  }
}
