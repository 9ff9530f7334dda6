// Transaction inclusion proofs as bytes: txid || siblings || root, 32 bytes each.
module Spv {
  import opened Common
  import opened Merkle

  type Digest = s: seq<byte> | |s| == 32 witness seq(32, _ => 0)

  // Double SHA-256, kept abstract: the theorems hold for every such function.
  type Sha = seq<byte> -> Digest

  function ParentOf(dsha: Sha): Parent<Digest> {
    (left: Digest, right: Digest) => dsha(left + right)
  }

  // ---------- Byte form of a path ----------

  function Flatten(path: seq<Digest>): (bytes: seq<byte>)
    ensures |bytes| == 32 * |path|
  {
    if path == [] then [] else path[0] + Flatten(path[1..])
  }

  function Split(bytes: seq<byte>): (path: seq<Digest>)
    requires |bytes| % 32 == 0
    ensures 32 * |path| == |bytes|
  {
    if bytes == [] then [] else [bytes[..32]] + Split(bytes[32..])
  }

  lemma {:induction false} SplitFlatten(path: seq<Digest>)
    ensures Split(Flatten(path)) == path
  {
    if path != [] {
      var bytes := Flatten(path);
      assert bytes[..32] == path[0] && bytes[32..] == Flatten(path[1..]);
      SplitFlatten(path[1..]);
    }
  }

  lemma {:induction false} FlattenSnoc(path: seq<Digest>, d: Digest)
    ensures Flatten(path + [d]) == Flatten(path) + d
  {
    if path == [] {
      assert Flatten([d]) == d + Flatten([]);
      assert [] + [d] == [d];
    } else {
      assert (path + [d])[1..] == path[1..] + [d];
      FlattenSnoc(path[1..], d);
    }
  }

  // ---------- Checking a raw proof ----------

  // None stands for the run-time panic on an empty proof.
  function RawVerdict(dsha: Sha, proof: seq<byte>, index: int): Option<bool> {
    if |proof| % 32 != 0 then Some(false)
    else if |proof| == 0 then None
    else if |proof| == 32 then Some(true)
    else Some(Climb<Digest>(ParentOf(dsha), proof[..32], index, Split(proof[32..|proof| - 32])) == proof[|proof| - 32..])
  }

  method VerifyRawProof(dsha: Sha, proof: seq<byte>, index: int) returns (verdict: Option<bool>)
    ensures verdict == RawVerdict(dsha, proof, index)
    ensures |proof| % 32 != 0 ==> verdict == Some(false)
    ensures |proof| == 0 ==> verdict == None
    ensures |proof| == 32 ==> verdict == Some(true)
  {
    if |proof| % 32 != 0 {
      return Some(false);
    }
    if |proof| == 64 {
      return Some(proof[..32] == proof[32..]);
    }
    if |proof| < 32 {
      return None;
    }
    var current: Digest := proof[..32];
    var idx := index;
    var i := 1;
    while i < |proof| / 32 - 1
      invariant 1 <= i && (|proof| > 32 ==> i <= |proof| / 32 - 1)
      invariant |proof| > 32 ==>
                  Climb<Digest>(ParentOf(dsha), current, idx, Split(proof[32 * i..|proof| - 32]))
                  == Climb<Digest>(ParentOf(dsha), proof[..32], index, Split(proof[32..|proof| - 32]))
      invariant |proof| == 32 ==> current == proof[..32]
    {
      var next: Digest := proof[32 * i..32 * i + 32];
      assert proof[32 * i..|proof| - 32][..32] == next;
      assert proof[32 * i..|proof| - 32][32..] == proof[32 * (i + 1)..|proof| - 32];
      current := if idx % 2 == 0 then dsha(current + next) else dsha(next + current);
      idx := idx / 2;
      i := i + 1;
    }
    verdict := Some(current == proof[|proof| - 32..]);
  }

  // The byte form accepts exactly what the structured form accepts.
  lemma RawProofAgrees(dsha: Sha, txid: Digest, path: seq<Digest>, root: Digest, index: int)
    ensures RawVerdict(dsha, txid + Flatten(path) + root, index)
            == Some(Climb<Digest>(ParentOf(dsha), txid, index, path) == root)
  {
    var proof := txid + Flatten(path) + root;
    assert proof[..32] == txid && proof[|proof| - 32..] == root;
    assert proof[32..|proof| - 32] == Flatten(path);
    SplitFlatten(path);
  }

  // ---------- Building a proof for a block ----------

  datatype SpvError = NotInBlock | BadHash(position: nat)

  datatype SpvProof = SpvProof(merkleRoot: Digest, proof: seq<byte>, txIndex: nat)

  // The digests that a block's hash strings denote.
  ghost predicate Decodes(parse: string -> Option<Digest>, txHashes: seq<string>, digests: seq<Digest>) {
    |digests| == |txHashes| && forall i :: 0 <= i < |digests| ==> parse(txHashes[i]) == Some(digests[i])
  }

  ghost predicate FirstAt(txHashes: seq<string>, txHash: string, i: nat) {
    i < |txHashes| && txHashes[i] == txHash && txHash !in txHashes[..i]
  }

  function FirstIndex(txHashes: seq<string>, txHash: string): (i: nat)
    requires txHash in txHashes
    ensures FirstAt(txHashes, txHash, i)
  {
    if txHashes[0] == txHash then 0
    else
      assert txHashes == [txHashes[0]] + txHashes[1..];
      1 + FirstIndex(txHashes[1..], txHash)
  }

  // All digests of a block, or the position of the first string that is no hash.
  function Digests(parse: string -> Option<Digest>, txHashes: seq<string>): (r: Result<seq<Digest>, nat>)
    ensures r.Ok? ==> Decodes(parse, txHashes, r.value)
    ensures r.Err? ==> r.error < |txHashes| && parse(txHashes[r.error]).None?
                       && forall i :: 0 <= i < r.error ==> parse(txHashes[i]).Some?
  {
    if txHashes == [] then Ok([]) else
    var n := |txHashes| - 1;
    var front := Digests(parse, txHashes[..n]);
    if front.Err? then front
    else
      match parse(txHashes[n])
      case None => Err(n)
      case Some(d) => Ok(front.value + [d])
  }

  lemma {:induction false} DigestsStop(parse: string -> Option<Digest>, txHashes: seq<string>, k: nat)
    requires k < |txHashes| && parse(txHashes[k]).None? && forall i :: 0 <= i < k ==> parse(txHashes[i]).Some?
    ensures Digests(parse, txHashes) == Err(k)
    decreases |txHashes|
  {
    if k < |txHashes| - 1 {
      DigestsStop(parse, txHashes[..|txHashes| - 1], k);
    }
  }

  // The inclusion proof of a transaction in a block.
  function SpvOf(dsha: Sha, parse: string -> Option<Digest>, txHash: string, txHashes: seq<string>)
    : Result<SpvProof, SpvError>
  {
    if txHash !in txHashes then Err(NotInBlock)
    else
      var digests := Digests(parse, txHashes);
      if digests.Err? then Err(BadHash(digests.error))
      else
        var i := FirstIndex(txHashes, txHash);
        Ok(SpvProof(Root<Digest>(ParentOf(dsha), digests.value), Flatten(Path<Digest>(ParentOf(dsha), digests.value, i)), i))
  }

  // A generated proof is accepted by the raw check.
  lemma GeneratedProofVerifies(dsha: Sha, parse: string -> Option<Digest>, txHash: string, txHashes: seq<string>)
    ensures var r := SpvOf(dsha, parse, txHash, txHashes);
            r.Ok? ==> Proves(dsha, parse, txHash, r.value.merkleRoot, r.value.proof, r.value.txIndex)
  {
    var r := SpvOf(dsha, parse, txHash, txHashes);
    if r.Ok? {
      SpvProofVerifies(dsha, parse, txHash, txHashes, Digests(parse, txHashes).value, r.value.txIndex);
    }
  }

  method Serialize(path: seq<Digest>) returns (bytes: seq<byte>)
    ensures bytes == Flatten(path)
  {
    bytes := [];
    for k := 0 to |path|
      invariant bytes == Flatten(path[..k])
    {
      FlattenSnoc(path[..k], path[k]);
      assert path[..k + 1] == path[..k] + [path[k]];
      bytes := bytes + path[k];
    }
    assert path[..|path|] == path;
  }

  // Parses the hashes of a block up to the first one that is malformed.
  method ParseHashes(parse: string -> Option<Digest>, txHashes: seq<string>) returns (r: Result<seq<Digest>, nat>)
    ensures r == Digests(parse, txHashes)
  {
    var digests: seq<Digest> := [];
    for n := 0 to |txHashes|
      invariant Digests(parse, txHashes[..n]) == Ok(digests) && |digests| == n
    {
      var hash := parse(txHashes[n]);
      assert txHashes[..n + 1][..n] == txHashes[..n];
      if hash.None? {
        DigestsStop(parse, txHashes, n);
        return Err(n);
      }
      digests := digests + [hash.value];
    }
    assert txHashes[..|txHashes|] == txHashes;
    r := Ok(digests);
  }

  method GenerateSPVProof(dsha: Sha, parse: string -> Option<Digest>, txHash: string, txHashes: seq<string>)
    returns (r: Result<SpvProof, SpvError>)
    ensures r == SpvOf(dsha, parse, txHash, txHashes)
    ensures r == Err(NotInBlock) <==> txHash !in txHashes
    ensures r.Err? && r.error.BadHash? ==> var k := r.error.position;
              k < |txHashes| && parse(txHashes[k]).None? && forall i :: 0 <= i < k ==> parse(txHashes[i]).Some?
    ensures r.Ok? ==> FirstAt(txHashes, txHash, r.value.txIndex)
    ensures r.Ok? ==> Proves(dsha, parse, txHash, r.value.merkleRoot, r.value.proof, r.value.txIndex)
  {
    var txIndex := -1;
    for i := 0 to |txHashes|
      invariant txIndex == -1 && txHash !in txHashes[..i]
    {
      if txHashes[i] == txHash {
        txIndex := i;
        break;
      }
    }
    if txIndex == -1 {
      return Err(NotInBlock);
    }
    assert txIndex == FirstIndex(txHashes, txHash);
    var digests := ParseHashes(parse, txHashes);
    if digests.Err? {
      return Err(BadHash(digests.error));
    }
    var root, proof := ComputeMerkleRootAndProof(ParentOf(dsha), digests.value, txIndex, []);
    ProofAppendedIsPath<Digest>(ParentOf(dsha), digests.value, txIndex);
    assert proof == Path<Digest>(ParentOf(dsha), digests.value, txIndex);
    var bytes := Serialize(proof);
    r := Ok(SpvProof(root.value, bytes, txIndex));
    assert r == SpvOf(dsha, parse, txHash, txHashes);
    GeneratedProofVerifies(dsha, parse, txHash, txHashes);
  }

  // A stored proof is good for a transaction when the raw check accepts it.
  ghost predicate Proves(dsha: Sha, parse: string -> Option<Digest>,
                         txHash: string, merkleRoot: seq<byte>, proof: seq<byte>, txIndex: int)
  {
    && parse(txHash).Some? && |merkleRoot| == 32
    && RawVerdict(dsha, parse(txHash).value + proof + merkleRoot, txIndex) == Some(true)
  }

  lemma SpvProofVerifies(dsha: Sha, parse: string -> Option<Digest>,
                         txHash: string, txHashes: seq<string>, digests: seq<Digest>, i: nat)
    requires Decodes(parse, txHashes, digests) && i < |txHashes| && txHashes[i] == txHash
    ensures Proves(dsha, parse, txHash, Root<Digest>(ParentOf(dsha), digests),
                   Flatten(Path<Digest>(ParentOf(dsha), digests, i)), i)
  {
    Completeness(ParentOf(dsha), digests, i);
    RawProofAgrees(dsha, digests[i], Path<Digest>(ParentOf(dsha), digests, i), Root<Digest>(ParentOf(dsha), digests), i);
  }

  // Read backwards: a raw proof of the block's depth that verifies shows the transaction to be in the
  // block at that position, unless it exhibits two different inputs of double SHA-256 with one digest.
  lemma RawProofSound(dsha: Sha, digests: seq<Digest>, txid: Digest, path: seq<Digest>, i: nat)
    requires i < |digests| && |path| == Depth(|digests|)
    requires RawVerdict(dsha, txid + Flatten(path) + Root<Digest>(ParentOf(dsha), digests), i) == Some(true)
    ensures || (txid == digests[i] && path == Path<Digest>(ParentOf(dsha), digests, i))
            || exists a, b :: a != b && |a| == 64 && |b| == 64 && dsha(a) == dsha(b)
  {
    RawProofAgrees(dsha, txid, path, Root<Digest>(ParentOf(dsha), digests), i);
    Soundness<Digest>(ParentOf(dsha), digests, txid, i, path);
    LandingInRange(|digests|, i);
    ghost var c := FindCollision<Digest>(ParentOf(dsha), digests, txid, i, path);
    if Collides<Digest>(ParentOf(dsha), c) {
      CollisionOfBytes(dsha, c);
    }
  }

  lemma CollisionOfBytes(dsha: Sha, c: Collision<Digest>)
    requires Collides<Digest>(ParentOf(dsha), c)
    ensures exists a, b :: a != b && |a| == 64 && |b| == 64 && dsha(a) == dsha(b)
  {
    var a, b := c.left + c.right, c.left' + c.right';
    assert c.left == a[..32] && c.right == a[32..] && c.left' == b[..32] && c.right' == b[32..];
    assert dsha(a) == dsha(b);
  }

  // ---------- Small blocks ----------

  // The root of two transactions hashes the first before the second; the last of three is hashed with itself.
  lemma SmallRoots(dsha: Sha, a: Digest, b: Digest, c: Digest)
    ensures Root<Digest>(ParentOf(dsha), [a]) == a
    ensures Root<Digest>(ParentOf(dsha), [a, b]) == dsha(a + b)
    ensures Root<Digest>(ParentOf(dsha), [a, b, c]) == dsha(dsha(a + b) + dsha(c + c))
  {
    var parent := ParentOf(dsha);
    assert Parents<Digest>(parent, [a, b]) == [dsha(a + b)];
    assert Parents<Digest>(parent, [a, b, c]) == [dsha(a + b), dsha(c + c)];
    RootOfParents<Digest>(parent, [a, b]);
    RootOfParents<Digest>(parent, [a, b, c]);
    RootOfParents<Digest>(parent, [dsha(a + b), dsha(c + c)]);
    assert Parents<Digest>(parent, [dsha(a + b), dsha(c + c)]) == [dsha(dsha(a + b) + dsha(c + c))];
  }

  // A proof with one sibling: at an even index the transaction is hashed before it, at an odd index after it.
  lemma OneSibling(dsha: Sha, txid: Digest, sibling: Digest, root: Digest, index: int)
    ensures RawVerdict(dsha, txid + sibling + root, index)
            == Some((if index % 2 == 0 then dsha(txid + sibling) else dsha(sibling + txid)) == root)
  {
    assert Flatten([sibling]) == sibling + Flatten([]);
    assert txid + Flatten([sibling]) + root == txid + sibling + root;
    RawProofAgrees(dsha, txid, [sibling], root, index);
  }
}
