// Merkle trees over an abstract two-argument parent hash.
//
// The reference tree gives every node a value by height and position: a node's children are the two
// nodes below it, and a node without a right child uses its left child twice.  The three root
// computations of the relayer and its proof verifiers are related to this tree.
module Merkle {
  import opened Common

  type Parent<!H> = (H, H) -> H

  // ---------- The reference tree ----------

  // Number of nodes at height d over n leaves.
  function Width(n: nat, d: nat): nat {
    if d == 0 then n else (Width(n, d - 1) + 1) / 2
  }

  // Height of the tree over n leaves.
  function Depth(n: nat): nat
    requires n > 0
  {
    if n == 1 then 0 else 1 + Depth((n + 1) / 2)
  }

  function Node<H>(parent: Parent<H>, leaves: seq<H>, d: nat, k: nat): H
    requires k < Width(|leaves|, d)
    decreases d
  {
    if d == 0 then leaves[k] else
    var w := Width(|leaves|, d - 1);
    parent(Node(parent, leaves, d - 1, 2 * k),
           Node(parent, leaves, d - 1, if 2 * k + 1 < w then 2 * k + 1 else 2 * k))
  }

  function Pow2(d: nat): (p: nat)
    ensures p >= 1
  {
    if d == 0 then 1 else 2 * Pow2(d - 1)
  }

  // The tree is as low as it can be.
  lemma {:induction false} DepthBounds(n: nat)
    requires n > 0
    ensures n == 1 ==> Depth(n) == 0
    ensures n > 1 ==> Depth(n) > 0 && Pow2(Depth(n) - 1) < n <= Pow2(Depth(n))
  {
    if n > 2 {
      DepthBounds((n + 1) / 2);
    }
  }

  lemma {:induction false} WidthOfHalf(n: nat, d: nat)
    ensures Width((n + 1) / 2, d) == Width(n, d + 1)
  {
    if d > 0 {
      WidthOfHalf(n, d - 1);
    }
  }

  lemma {:induction false} WidthAtTop(n: nat)
    requires n > 0
    ensures Width(n, Depth(n)) == 1
  {
    if n > 1 {
      WidthAtTop((n + 1) / 2);
      WidthOfHalf(n, Depth(n) - 1);
    }
  }

  function Root<H>(parent: Parent<H>, leaves: seq<H>): H
    requires |leaves| > 0
  {
    WidthAtTop(|leaves|);
    Node(parent, leaves, Depth(|leaves|), 0)
  }

  // ---------- One level up ----------

  function RightChild(n: nat, k: nat): nat {
    if 2 * k + 1 < n then 2 * k + 1 else 2 * k
  }

  function Parents<H>(parent: Parent<H>, s: seq<H>): (up: seq<H>)
    ensures |up| == (|s| + 1) / 2
    ensures forall k :: 0 <= k < |up| ==> up[k] == parent(s[2 * k], s[RightChild(|s|, k)])
  {
    seq((|s| + 1) / 2, k requires 0 <= k < (|s| + 1) / 2 => parent(s[2 * k], s[RightChild(|s|, k)]))
  }

  lemma {:induction false} NodeOfParents<H>(parent: Parent<H>, s: seq<H>, d: nat, k: nat)
    requires k < Width((|s| + 1) / 2, d)
    ensures k < Width(|s|, d + 1)
    ensures Node(parent, Parents(parent, s), d, k) == Node(parent, s, d + 1, k)
    decreases d
  {
    WidthOfHalf(|s|, d);
    if d == 0 {
      assert Node(parent, s, 0, 2 * k) == s[2 * k];
      assert Width(|s|, 0) == |s|;
    } else {
      var w := Width((|s| + 1) / 2, d - 1);
      WidthOfHalf(|s|, d - 1);
      NodeOfParents(parent, s, d - 1, 2 * k);
      NodeOfParents(parent, s, d - 1, if 2 * k + 1 < w then 2 * k + 1 else 2 * k);
    }
  }

  // Hashing a level pairwise does not change the root.
  lemma RootOfParents<H>(parent: Parent<H>, s: seq<H>)
    requires |s| > 1
    ensures Root(parent, s) == Root(parent, Parents(parent, s))
  {
    WidthAtTop((|s| + 1) / 2);
    NodeOfParents(parent, s, Depth((|s| + 1) / 2), 0);
  }

  // ---------- Proof paths ----------

  // The leaf that an index of any size selects: only its low Depth(n) bits matter, and a position in
  // the padding selects the leaf that the padding repeats.
  function Landing(n: nat, i: int): (k: nat)
    requires n > 0
    ensures k < n
    decreases n
  {
    if n == 1 then 0 else
    var up := Landing((n + 1) / 2, i / 2);
    if i % 2 == 0 then 2 * up else RightChild(n, up)
  }

  lemma {:induction false} LandingInRange(n: nat, i: int)
    requires 0 <= i < n
    ensures Landing(n, i) == i
    decreases n
  {
    if n > 1 {
      LandingInRange((n + 1) / 2, i / 2);
    }
  }

  // The siblings met while climbing from the leaf at an index.
  function Path<H>(parent: Parent<H>, s: seq<H>, i: int): (path: seq<H>)
    requires |s| > 0
    ensures |path| == Depth(|s|)
    decreases |s|
  {
    if |s| == 1 then [] else
    var up := Landing((|s| + 1) / 2, i / 2);
    [s[if i % 2 == 0 then RightChild(|s|, up) else 2 * up]] + Path(parent, Parents(parent, s), i / 2)
  }

  // What a verifier computes from a leaf and a path; the index gives the side at each step.
  function Climb<H>(parent: Parent<H>, x: H, i: int, path: seq<H>): H
    decreases |path|
  {
    if path == [] then x else
    Climb(parent, if i % 2 == 0 then parent(x, path[0]) else parent(path[0], x), i / 2, path[1..])
  }

  // The position paired with k on a level of w nodes; a last unpaired node is its own sibling.
  function Sibling(w: nat, k: nat): (j: nat)
    requires k < w
    ensures j < w
  {
    if k % 2 == 1 then k - 1 else if k + 1 < w then k + 1 else k
  }

  // i >> d
  function Shift(i: nat, d: nat): nat {
    if d == 0 then i else Shift(i / 2, d - 1)
  }

  lemma {:induction false} ShiftInRange(n: nat, i: nat, d: nat)
    requires i < n
    ensures Shift(i, d) < Width(n, d)
  {
    if d > 0 {
      ShiftInRange((n + 1) / 2, i / 2, d - 1);
      WidthOfHalf(n, d - 1);
    }
  }

  // The sibling met at height d when climbing from leaf i.
  function SiblingAt(n: nat, i: nat, d: nat): (j: nat)
    requires i < n
    ensures j < Width(n, d)
  {
    ShiftInRange(n, i, d);
    Sibling(Width(n, d), Shift(i, d))
  }

  lemma SiblingAtHalf(n: nat, i: nat, d: nat)
    requires i < n && d > 0
    ensures SiblingAt((n + 1) / 2, i / 2, d - 1) == SiblingAt(n, i, d)
  {
    WidthOfHalf(n, d - 1);
  }

  lemma NodeBesideHalf<H>(parent: Parent<H>, s: seq<H>, i: nat, d: nat)
    requires i < |s| && d > 0
    ensures Node(parent, Parents(parent, s), d - 1, SiblingAt((|s| + 1) / 2, i / 2, d - 1))
            == Node(parent, s, d, SiblingAt(|s|, i, d))
  {
    var k := SiblingAt((|s| + 1) / 2, i / 2, d - 1);
    SiblingAtHalf(|s|, i, d);
    NodeOfParents(parent, s, d - 1, k);
  }

  // Every element of a path is a node of the reference tree, at the height it is used.
  lemma {:induction false} PathNodes<H>(parent: Parent<H>, s: seq<H>, i: nat, d: nat)
    requires i < |s| && d < Depth(|s|)
    ensures Path(parent, s, i)[d] == Node(parent, s, d, SiblingAt(|s|, i, d))
    decreases d, 1
  {
    if d == 0 {
      PathHead(parent, s, i);
    } else {
      HalfIsSmaller(|s|, i, d);
      PathNodesUp(parent, s, Parents(parent, s), i, d);
    }
  }

  lemma HalfIsSmaller(n: nat, i: nat, d: nat)
    requires i < n && 0 < d < Depth(n)
    ensures i / 2 < (n + 1) / 2 < n && d - 1 < Depth((n + 1) / 2)
  {
  }

  lemma {:induction false} PathNodesUp<H>(parent: Parent<H>, s: seq<H>, up: seq<H>, i: nat, d: nat)
    requires i < |s| && 0 < d < Depth(|s|) && up == Parents(parent, s)
    requires i / 2 < |up| && d - 1 < Depth(|up|)
    ensures Path(parent, s, i)[d] == Node(parent, s, d, SiblingAt(|s|, i, d))
    decreases d, 0
  {
    PathNodes(parent, up, i / 2, d - 1);
    PathStep(parent, s, up, i, d);
  }

  lemma PathStep<H>(parent: Parent<H>, s: seq<H>, up: seq<H>, i: nat, d: nat)
    requires i < |s| && 0 < d < Depth(|s|) && up == Parents(parent, s)
    requires i / 2 < |up| && d - 1 < Depth(|up|)
    requires Path(parent, up, i / 2)[d - 1] == Node(parent, up, d - 1, SiblingAt(|up|, i / 2, d - 1))
    ensures Path(parent, s, i)[d] == Node(parent, s, d, SiblingAt(|s|, i, d))
  {
    PathNext(parent, s, i, d);
    NodeBesideHalf(parent, s, i, d);
  }

  lemma PathHead<H>(parent: Parent<H>, s: seq<H>, i: nat)
    requires i < |s| && |s| > 1
    ensures Path(parent, s, i)[0] == Node(parent, s, 0, SiblingAt(|s|, i, 0))
  {
    PathTail(parent, s, i);
  }

  lemma PathNext<H>(parent: Parent<H>, s: seq<H>, i: nat, d: nat)
    requires i < |s| && 0 < d < Depth(|s|)
    ensures Path(parent, s, i)[d] == Path(parent, Parents(parent, s), i / 2)[d - 1]
  {
    PathTail(parent, s, i);
  }

  // A path starts with the sibling and goes on in the level above.
  lemma PathTail<H>(parent: Parent<H>, s: seq<H>, i: nat)
    requires i < |s| && |s| > 1
    ensures Path(parent, s, i) == [s[Sibling(|s|, i)]] + Path(parent, Parents(parent, s), i / 2)
  {
    LandingInRange((|s| + 1) / 2, i / 2);
    FirstSibling(|s|, i);
  }

  lemma FirstSibling(n: nat, i: nat)
    requires i < n
    ensures Sibling(n, i) == if i % 2 == 0 then RightChild(n, i / 2) else 2 * (i / 2)
  {
    assert i == 2 * (i / 2) + i % 2;
  }

  // Completeness: the path of an index climbs to the root from the leaf the index selects.
  lemma {:induction false} PathClimbsToRoot<H>(parent: Parent<H>, s: seq<H>, i: int)
    requires |s| > 0
    ensures Climb(parent, s[Landing(|s|, i)], i, Path(parent, s, i)) == Root(parent, s)
    decreases |s|
  {
    if |s| > 1 {
      var up := Parents(parent, s);
      PathClimbsToRoot(parent, up, i / 2);
      RootOfParents(parent, s);
      assert Path(parent, s, i)[1..] == Path(parent, up, i / 2);
    }
  }

  lemma Completeness<H>(parent: Parent<H>, leaves: seq<H>, i: nat)
    requires i < |leaves|
    ensures Climb(parent, leaves[i], i, Path(parent, leaves, i)) == Root(parent, leaves)
  {
    PathClimbsToRoot(parent, leaves, i);
    LandingInRange(|leaves|, i);
  }

  // ---------- Soundness ----------

  datatype Collision<H> = Collision(left: H, right: H, left': H, right': H)

  // Two different pairs of nodes with the same parent.
  ghost predicate Collides<H>(parent: Parent<H>, c: Collision<H>) {
    (c.left != c.left' || c.right != c.right') && parent(c.left, c.right) == parent(c.left', c.right')
  }

  // Where an accepted proof and the tree first differ on the way down from the root.
  ghost function FindCollision<H>(parent: Parent<H>, s: seq<H>, x: H, i: int, path: seq<H>): Collision<H>
    requires |s| > 0 && |path| == Depth(|s|)
    decreases |s|
  {
    if |s| == 1 then Collision(x, x, x, x) else
    var up := Parents(parent, s);
    var k := Landing(|up|, i / 2);
    var (left, right) := if i % 2 == 0 then (x, path[0]) else (path[0], x);
    if parent(left, right) == up[k] && path[1..] == Path(parent, up, i / 2)
    then Collision(left, right, s[2 * k], s[RightChild(|s|, k)])
    else FindCollision(parent, up, parent(left, right), i / 2, path[1..])
  }

  // A proof of the tree's depth that reaches the root is the tree's own proof, or it exhibits a collision.
  lemma {:induction false} Soundness<H>(parent: Parent<H>, s: seq<H>, x: H, i: int, path: seq<H>)
    requires |s| > 0 && |path| == Depth(|s|)
    requires Climb(parent, x, i, path) == Root(parent, s)
    ensures || (x == s[Landing(|s|, i)] && path == Path(parent, s, i))
            || Collides(parent, FindCollision(parent, s, x, i, path))
    decreases |s|
  {
    if |s| > 1 {
      var up := Parents(parent, s);
      var k := Landing(|up|, i / 2);
      var (left, right) := if i % 2 == 0 then (x, path[0]) else (path[0], x);
      RootOfParents(parent, s);
      Soundness(parent, up, parent(left, right), i / 2, path[1..]);
      if parent(left, right) == up[k] && path[1..] == Path(parent, up, i / 2) {
        assert path == [path[0]] + path[1..];
      }
    }
  }

  ghost predicate Injective<H(!new)>(parent: Parent<H>) {
    forall a, b, c, d :: parent(a, b) == parent(c, d) ==> a == c && b == d
  }

  // With an injective parent hash each index admits exactly one leaf and one path of the tree's depth.
  lemma UniqueProof<H(!new)>(parent: Parent<H>, s: seq<H>, x: H, i: int, path: seq<H>)
    requires |s| > 0 && |path| == Depth(|s|) && Injective(parent)
    ensures Climb(parent, x, i, path) == Root(parent, s)
            <==> x == s[Landing(|s|, i)] && path == Path(parent, s, i)
  {
    PathClimbsToRoot(parent, s, i);
    if Climb(parent, x, i, path) == Root(parent, s) {
      Soundness(parent, s, x, i, path);
    }
  }

  // ---------- The relayer's computations ----------

  // A level with its last node repeated when its length is odd.
  function Padded<H>(s: seq<H>): (p: seq<H>)
    ensures |p| % 2 == 0
  {
    if |s| % 2 != 0 then s + [s[|s| - 1]] else s
  }

  method ComputeMerkleRoot<H>(parent: Parent<H>, txhs: seq<H>) returns (root: Option<H>)
    ensures root == if txhs == [] then None else Some(Root(parent, txhs))
    decreases |txhs|
  {
    if |txhs| == 0 {
      return None;
    }
    if |txhs| == 1 {
      return Some(txhs[0]);
    }
    var padded := txhs;
    if |padded| % 2 != 0 {
      padded := padded + [padded[|padded| - 1]];
    }
    var parents: seq<H> := [];
    var i := 0;
    while i < |padded|
      invariant i == 2 * |parents| <= |padded|
      invariant forall k :: 0 <= k < |parents| ==> parents[k] == parent(txhs[2 * k], txhs[RightChild(|txhs|, k)])
    {
      parents := parents + [parent(padded[i], padded[i + 1])];
      i := i + 2;
    }
    assert parents == Parents(parent, txhs);
    RootOfParents(parent, txhs);
    root := ComputeMerkleRoot(parent, parents);
  }

  // The path that ComputeMerkleRootAndProof appends, for every integer index: an index outside a padded
  // level contributes nothing there, and the next level continues at position 0.
  function ProofAppended<H>(parent: Parent<H>, s: seq<H>, i: int): seq<H>
    decreases |s|
  {
    if |s| <= 1 then []
    else Mate(Padded(s), i) + ProofAppended(parent, Parents(parent, s), if 0 <= i < |Padded(s)| then i / 2 else 0)
  }

  lemma {:induction false} ProofAppendedIsPath<H>(parent: Parent<H>, s: seq<H>, i: int)
    requires 0 <= i < |s|
    ensures ProofAppended(parent, s, i) == Path(parent, s, i)
    decreases |s|
  {
    if |s| > 1 {
      PathTail(parent, s, i);
      MateIsSibling(s, i);
      ProofAppendedIsPath(parent, Parents(parent, s), i / 2);
    }
  }

  // Beyond the padded leaves an index takes the path of position 0 one level up.
  lemma ProofOutside<H>(parent: Parent<H>, s: seq<H>, i: int)
    requires |s| > 1 && (i < 0 || i > |s| || (i == |s| && |s| % 2 == 0))
    ensures ProofAppended(parent, s, i) == Path(parent, Parents(parent, s), 0)
  {
    ProofAppendedIsPath(parent, Parents(parent, s), 0);
  }

  lemma MateIsSibling<H>(s: seq<H>, i: int)
    requires 0 <= i < |s|
    ensures i < |Padded(s)| && Mate(Padded(s), i) == [s[Sibling(|s|, i)]]
  {
  }

  // The proof element taken from one level.
  function Mate<H>(padded: seq<H>, i: int): seq<H>
    requires |padded| % 2 == 0
  {
    if 0 <= i < |padded| then [padded[if i % 2 == 0 then i + 1 else i - 1]] else []
  }

  lemma AppendUnfolds<H>(parent: Parent<H>, s: seq<H>, i: int, proof: seq<H>)
    requires |s| > 1
    ensures proof + Mate(Padded(s), i)
            + ProofAppended(parent, Parents(parent, s), if 0 <= i < |Padded(s)| then i / 2 else 0)
            == proof + ProofAppended(parent, s, i)
  {
    AppendAssociates(proof, Mate(Padded(s), i),
                     ProofAppended(parent, Parents(parent, s), if 0 <= i < |Padded(s)| then i / 2 else 0));
  }

  lemma AppendAssociates<H>(a: seq<H>, b: seq<H>, c: seq<H>)
    ensures a + b + c == a + (b + c)
  {
  }

  method ComputeMerkleRootAndProof<H>(parent: Parent<H>, txhs: seq<H>, txIndex: int, proof: seq<H>)
    returns (root: Option<H>, proof': seq<H>)
    ensures root == if txhs == [] then None else Some(Root(parent, txhs))
    ensures proof' == proof + ProofAppended(parent, txhs, txIndex)
    decreases |txhs|
  {
    if |txhs| == 0 {
      return None, proof;
    }
    if |txhs| == 1 {
      return Some(txhs[0]), proof;
    }
    var padded := txhs;
    if |txhs| % 2 != 0 {
      padded := txhs + [txhs[|txhs| - 1]];
    }
    var parents, newIndex, longer := HashLevel(parent, txhs, padded, txIndex, proof);
    RootOfParents(parent, txhs);
    root, proof' := ComputeMerkleRootAndProof(parent, parents, newIndex, longer);
    AppendUnfolds(parent, txhs, txIndex, proof);
  }

  // The loop over one padded level of ComputeMerkleRootAndProof.
  method HashLevel<H>(parent: Parent<H>, ghost txhs: seq<H>, padded: seq<H>, txIndex: int, proof: seq<H>)
    returns (parents: seq<H>, newIndex: int, proof': seq<H>)
    requires padded == Padded(txhs)
    ensures parents == Parents(parent, txhs)
    ensures newIndex == if 0 <= txIndex < |padded| then txIndex / 2 else 0
    ensures proof' == proof + Mate(padded, txIndex)
  {
    parents, newIndex, proof' := [], 0, proof;
    var i := 0;
    while i < |padded|
      invariant i == 2 * |parents| <= |padded|
      invariant forall k :: 0 <= k < |parents| ==> parents[k] == parent(txhs[2 * k], txhs[RightChild(|txhs|, k)])
      invariant newIndex == if 0 <= txIndex < i then txIndex / 2 else 0
      invariant proof' == if 0 <= txIndex < i then proof + Mate(padded, txIndex) else proof
    {
      parents := parents + [parent(padded[i], padded[i + 1])];
      if i == txIndex || i + 1 == txIndex {
        if i == txIndex {
          proof' := proof' + [padded[i + 1]];
        } else {
          proof' := proof' + [padded[i]];
        }
        newIndex := |parents| - 1;
      }
      i := i + 2;
    }
  }

  // The iterative form: an odd last node is paired with itself instead of being appended.
  method BuildMerkleRoot<H>(parent: Parent<H>, txHashes: seq<H>) returns (root: Option<H>)
    ensures root == if txHashes == [] then None else Some(Root(parent, txHashes))
  {
    if |txHashes| == 0 {
      return None;
    }
    var level := txHashes;
    while |level| > 1
      invariant |level| > 0
      invariant Root(parent, level) == Root(parent, txHashes)
      decreases |level|
    {
      var newLevel: seq<H> := [];
      var i := 0;
      while i < |level|
        invariant i == 2 * |newLevel| <= |level| + 1
        invariant |newLevel| <= (|level| + 1) / 2
        invariant forall k :: 0 <= k < |newLevel| ==> newLevel[k] == parent(level[2 * k], level[RightChild(|level|, k)])
      {
        if i + 1 < |level| {
          newLevel := newLevel + [parent(level[i], level[i + 1])];
        } else {
          newLevel := newLevel + [parent(level[i], level[i])];
        }
        i := i + 2;
      }
      assert newLevel == Parents(parent, level);
      RootOfParents(parent, level);
      level := newLevel;
    }
    root := Some(level[0]);
  }

  method VerifyProof<H(==)>(parent: Parent<H>, txid: H, root: H, txIndex: int, path: seq<H>) returns (ok: bool)
    ensures ok == (Climb(parent, txid, txIndex, path) == root)
  {
    if txid == root && txIndex == 0 && |path| == 0 {
      return true;
    }
    var current := txid;
    var index := txIndex;
    var i := 0;
    while i < |path|
      invariant 0 <= i <= |path|
      invariant Climb(parent, current, index, path[i..]) == Climb(parent, txid, txIndex, path)
    {
      if index % 2 == 0 {
        current := parent(current, path[i]);
      } else {
        current := parent(path[i], current);
      }
      index := index / 2;
      i := i + 1;
    }
    ok := current == root;
  }
}
