/**
 * Merkle trees as in RFC 6962, sections 2.1 and 2.1.1 (packages/receipt/src/merkle.ts).
 * Leaves and sibling hashes are byte strings; the hex text around them is not modelled.
 */
module Merkle {
  import opened Prelude

  datatype Position = Left | Right | Other(name: string)

  /** `hash` may have any length: the verifier rejects a sibling that is not 32 bytes. */
  datatype Step = Step(position: Position, hash: Bytes)

  datatype MerkleError = EmptyTree | IndexOutOfRange

  function LeafPreimage(leaf: Bytes): Bytes { [0x00] + leaf }

  function NodePreimage(left: Bytes, right: Bytes): Bytes { [0x01] + left + right }

  function Pow2(d: nat): (p: nat)
    ensures p >= 1
  {
    if d == 0 then 1 else 2 * Pow2(d - 1)
  }

  function SplitFrom(k: nat, n: nat): (r: nat)
    requires 1 <= k < n
    ensures k <= r < n <= 2 * r
    decreases n - k
  {
    if k * 2 < n then SplitFrom(k * 2, n) else k
  }

  function Split(n: nat): (k: nat)
    requires n >= 2
    ensures 1 <= k < n <= 2 * k
  {
    SplitFrom(1, n)
  }

  method SplitPoint(n: nat) returns (k: nat)
    requires n >= 2
    ensures k == Split(n)
    ensures exists d: nat :: k == Pow2(d)
  {
    k := 1;
    ghost var d := 0;
    while k * 2 < n
      invariant 1 <= k < n && k == Pow2(d)
      invariant SplitFrom(k, n) == Split(n)
      decreases n - k
    {
      k := k * 2;
      d := d + 1;
    }
  }

  /** The split of a tree that fits under 2^d leaves half under 2^(d-1) on each side. */
  lemma {:induction false} SplitHalves(k: nat, e: nat, n: nat, d: nat)
    requires 1 <= k < n <= Pow2(d) && k == Pow2(e)
    ensures d > 0 && SplitFrom(k, n) <= Pow2(d - 1) && n - SplitFrom(k, n) <= Pow2(d - 1)
    decreases n - k
  {
    Pow2Ordered(e, d);
    if k * 2 < n {
      SplitHalves(k * 2, e + 1, n, d);
    } else {
      Pow2Monotone(e, d - 1);
    }
  }

  lemma {:induction false} Pow2Monotone(a: nat, b: nat)
    requires a <= b
    ensures Pow2(a) <= Pow2(b)
    decreases b - a
  {
    if a < b { Pow2Monotone(a, b - 1); }
  }

  lemma Pow2Ordered(a: nat, b: nat)
    requires Pow2(a) < Pow2(b)
    ensures a < b
  {
    if b <= a { Pow2Monotone(b, a); }
  }

  /** Merkle tree hash of a non-empty list. */
  function Mth(h: Sha256, leaves: seq<Bytes>): Digest
    requires |leaves| > 0
    decreases |leaves|
  {
    if |leaves| == 1 then h(LeafPreimage(leaves[0]))
    else
      var k := Split(|leaves|);
      h(NodePreimage(Mth(h, leaves[..k]), Mth(h, leaves[k..])))
  }

  function Path(h: Sha256, leaves: seq<Bytes>, index: nat): seq<Step>
    requires index < |leaves|
    decreases |leaves|
  {
    if |leaves| == 1 then []
    else
      var k := Split(|leaves|);
      if index < k then Path(h, leaves[..k], index) + [Step(Right, Mth(h, leaves[k..]))]
      else Path(h, leaves[k..], index - k) + [Step(Left, Mth(h, leaves[..k]))]
  }

  function MerkleRoot(h: Sha256, leaves: seq<Bytes>): Result<Digest, MerkleError> {
    if leaves == [] then Err(EmptyTree) else Ok(Mth(h, leaves))
  }

  function MerkleProof(h: Sha256, leaves: seq<Bytes>, index: int): Result<seq<Step>, MerkleError> {
    if leaves == [] then Err(EmptyTree)
    else if index < 0 || index >= |leaves| then Err(IndexOutOfRange)
    else Ok(Path(h, leaves, index))
  }

  predicate GoodStep(s: Step) { !s.position.Other? && |s.hash| == 32 }

  function StepPreimage(s: Step, running: Digest): Bytes {
    if s.position.Left? then NodePreimage(s.hash, running) else NodePreimage(running, s.hash)
  }

  /** The hash a proof leads to, from the leaf upward. */
  function Climb(h: Sha256, leaf: Bytes, proof: seq<Step>): Digest {
    if proof == [] then h(LeafPreimage(leaf))
    else h(StepPreimage(proof[|proof| - 1], Climb(h, leaf, proof[..|proof| - 1])))
  }

  predicate Accepts(h: Sha256, leaf: Bytes, proof: seq<Step>, root: Bytes) {
    (forall s :: s in proof ==> GoodStep(s)) && Climb(h, leaf, proof) == root
  }

  /** What an accepted proof recomputes: from the leaf behind a zero byte, each 32-byte sibling on its side behind a one byte. */
  predicate Climbs(h: Sha256, running: Digest, proof: seq<Step>, root: Bytes)
    decreases |proof|
  {
    if proof == [] then running == root
    else
      var s := proof[0];
      && |s.hash| == 32
      && (match s.position
          case Left => Climbs(h, h([0x01] + s.hash + running), proof[1..], root)
          case Right => Climbs(h, h([0x01] + running + s.hash), proof[1..], root)
          case Other(_) => false)
  }

  lemma {:induction false} ClimbsFrom(h: Sha256, leaf: Bytes, proof: seq<Step>, root: Bytes, i: nat)
    requires i <= |proof|
    ensures Climbs(h, Climb(h, leaf, proof[..i]), proof[i..], root) <==>
            (forall k :: i <= k < |proof| ==> GoodStep(proof[k])) && Climb(h, leaf, proof) == root
    decreases |proof| - i
  {
    if i == |proof| {
      assert proof[..i] == proof && proof[i..] == [];
    } else {
      assert proof[..i + 1][..i] == proof[..i] && proof[i..][1..] == proof[i + 1..];
      if GoodStep(proof[i]) { ClimbsFrom(h, leaf, proof, root, i + 1); }
    }
  }

  lemma AcceptsIff(h: Sha256, leaf: Bytes, proof: seq<Step>, root: Bytes)
    ensures Accepts(h, leaf, proof, root) <==> Climbs(h, h([0x00] + leaf), proof, root)
  {
    ClimbsFrom(h, leaf, proof, root, 0);
    assert proof[0..] == proof && proof[..0] == [];
    assert forall k :: 0 <= k < |proof| ==> proof[k] in proof;
  }

  method VerifyMerkleProof(h: Sha256, leaf: Bytes, proof: seq<Step>, root: Bytes) returns (ok: bool)
    ensures ok <==> Climbs(h, h([0x00] + leaf), proof, root)
    ensures ok == Accepts(h, leaf, proof, root)
  {
    AcceptsIff(h, leaf, proof, root);
    var running := h(LeafPreimage(leaf));
    for i := 0 to |proof|
      invariant forall s :: s in proof[..i] ==> GoodStep(s)
      invariant running == Climb(h, leaf, proof[..i])
    {
      var step := proof[i];
      assert step in proof;
      assert proof[..i + 1][..i] == proof[..i];
      if step.position.Other? || |step.hash| != 32 {
        return false;
      }
      running := if step.position.Left? then h(NodePreimage(step.hash, running)) else h(NodePreimage(running, step.hash));
    }
    assert proof[..|proof|] == proof;
    return running == root;
  }

  /** Every byte string hashed while computing the root of `leaves`. */
  ghost function TreePreimages(h: Sha256, leaves: seq<Bytes>): set<Bytes>
    requires |leaves| > 0
    decreases |leaves|
  {
    if |leaves| == 1 then {LeafPreimage(leaves[0])}
    else
      var k := Split(|leaves|);
      TreePreimages(h, leaves[..k]) + TreePreimages(h, leaves[k..]) +
      {NodePreimage(Mth(h, leaves[..k]), Mth(h, leaves[k..]))}
  }

  /** Every byte string hashed while checking a proof. */
  ghost function ProofPreimages(h: Sha256, leaf: Bytes, proof: seq<Step>): set<Bytes> {
    if proof == [] then {LeafPreimage(leaf)}
    else
      var below := proof[..|proof| - 1];
      ProofPreimages(h, leaf, below) + {StepPreimage(proof[|proof| - 1], Climb(h, leaf, below))}
  }

  lemma NodeInjective(a: Digest, b: Digest, c: Digest, d: Digest)
    requires NodePreimage(a, b) == NodePreimage(c, d)
    ensures a == c && b == d
  {
    assert NodePreimage(a, b)[1..33] == a && NodePreimage(a, b)[33..] == b;
    assert NodePreimage(c, d)[1..33] == c && NodePreimage(c, d)[33..] == d;
  }

  lemma LeafIsNotNode(leaf: Bytes, a: Bytes, b: Bytes)
    ensures LeafPreimage(leaf) != NodePreimage(a, b)
  {
    assert LeafPreimage(leaf)[0] != NodePreimage(a, b)[0];
  }

  /** Completeness: the proof built for any index is accepted against the root. */
  lemma {:induction false} ProofVerifies(h: Sha256, leaves: seq<Bytes>, index: nat)
    requires index < |leaves|
    ensures Accepts(h, leaves[index], Path(h, leaves, index), Mth(h, leaves))
    decreases |leaves|
  {
    if |leaves| > 1 {
      var k := Split(|leaves|);
      var proof := Path(h, leaves, index);
      if index < k {
        ProofVerifies(h, leaves[..k], index);
        assert proof[..|proof| - 1] == Path(h, leaves[..k], index);
      } else {
        ProofVerifies(h, leaves[k..], index - k);
        assert proof[..|proof| - 1] == Path(h, leaves[k..], index - k);
      }
    }
  }

  /** A proof in a tree of n leaves has at most ceil(log2 n) steps. */
  lemma {:induction false} ProofLength(h: Sha256, leaves: seq<Bytes>, index: nat, d: nat)
    requires index < |leaves| <= Pow2(d)
    ensures |Path(h, leaves, index)| <= d
    decreases |leaves|
  {
    if |leaves| > 1 {
      var k := Split(|leaves|);
      SplitHalves(1, 0, |leaves|, d);
      if index < k {
        ProofLength(h, leaves[..k], index, d - 1);
      } else {
        ProofLength(h, leaves[k..], index - k, d - 1);
      }
    }
  }

  /** Soundness: an accepted proof is exactly the honest proof of a real leaf, or SHA-256 collides. */
  lemma {:induction false} AcceptedProofIsHonest(h: Sha256, leaves: seq<Bytes>, leaf: Bytes, proof: seq<Step>)
    requires |leaves| > 0 && Accepts(h, leaf, proof, Mth(h, leaves))
    ensures (exists i: nat :: i < |leaves| && leaves[i] == leaf && proof == Path(h, leaves, i))
         || CollidesIn(h, TreePreimages(h, leaves) + ProofPreimages(h, leaf, proof))
    decreases |leaves|
  {
    var all := TreePreimages(h, leaves) + ProofPreimages(h, leaf, proof);
    if proof == [] && |leaves| == 1 {
      Collide(h, all, LeafPreimage(leaf), LeafPreimage(leaves[0]));
      if !CollidesIn(h, all) {
        assert LeafPreimage(leaf)[1..] == leaf && LeafPreimage(leaves[0])[1..] == leaves[0];
        assert leaves[0] == leaf && proof == Path(h, leaves, 0);
      }
    } else if |leaves| == 1 {
      var last := proof[|proof| - 1];
      var top := StepPreimage(last, Climb(h, leaf, proof[..|proof| - 1]));
      LeafIsNotNode(leaves[0], if last.position.Left? then last.hash else Climb(h, leaf, proof[..|proof| - 1]),
                    if last.position.Left? then Climb(h, leaf, proof[..|proof| - 1]) else last.hash);
      Collide(h, all, LeafPreimage(leaves[0]), top);
    } else {
      var k := Split(|leaves|);
      var left, right := Mth(h, leaves[..k]), Mth(h, leaves[k..]);
      if proof == [] {
        LeafIsNotNode(leaf, left, right);
        Collide(h, all, LeafPreimage(leaf), NodePreimage(left, right));
      } else {
        StepDown(h, leaves, leaf, proof);
      }
    }
  }

  /** One level of the soundness proof: follow the last step into the half it came from. */
  lemma {:induction false} StepDown(h: Sha256, leaves: seq<Bytes>, leaf: Bytes, proof: seq<Step>)
    requires |leaves| > 1 && proof != [] && Accepts(h, leaf, proof, Mth(h, leaves))
    ensures (exists i: nat :: i < |leaves| && leaves[i] == leaf && proof == Path(h, leaves, i))
         || CollidesIn(h, TreePreimages(h, leaves) + ProofPreimages(h, leaf, proof))
    decreases |leaves|, 0
  {
    var all := TreePreimages(h, leaves) + ProofPreimages(h, leaf, proof);
    var k := Split(|leaves|);
    var left, right := Mth(h, leaves[..k]), Mth(h, leaves[k..]);
    var below, last := proof[..|proof| - 1], proof[|proof| - 1];
    var running := Climb(h, leaf, below);
    assert last in proof && proof == below + [last];
    Collide(h, all, StepPreimage(last, running), NodePreimage(left, right));
    if CollidesIn(h, all) { return; }
    if last.position.Right? {
      NodeInjective(running, last.hash, left, right);
      AcceptedProofIsHonest(h, leaves[..k], leaf, below);
      FromLeftHalf(h, leaves, leaf, below);
    } else {
      NodeInjective(last.hash, running, left, right);
      AcceptedProofIsHonest(h, leaves[k..], leaf, below);
      FromRightHalf(h, leaves, leaf, below);
    }
  }

  ghost predicate HonestOrCollides(h: Sha256, leaves: seq<Bytes>, leaf: Bytes, proof: seq<Step>)
    requires |leaves| > 0
  {
    || (exists i: nat :: i < |leaves| && leaves[i] == leaf && proof == Path(h, leaves, i))
    || CollidesIn(h, TreePreimages(h, leaves) + ProofPreimages(h, leaf, proof))
  }

  lemma PreimagesGrow(h: Sha256, leaf: Bytes, below: seq<Step>, last: Step)
    ensures ProofPreimages(h, leaf, below) <= ProofPreimages(h, leaf, below + [last])
  {
    assert (below + [last])[..|below|] == below;
  }

  lemma FromLeftHalf(h: Sha256, leaves: seq<Bytes>, leaf: Bytes, below: seq<Step>)
    requires |leaves| > 1 && HonestOrCollides(h, leaves[..Split(|leaves|)], leaf, below)
    ensures HonestOrCollides(h, leaves, leaf, below + [Step(Right, Mth(h, leaves[Split(|leaves|)..]))])
  {
    var k := Split(|leaves|);
    var proof := below + [Step(Right, Mth(h, leaves[k..]))];
    if i: nat :| i < k && leaves[..k][i] == leaf && below == Path(h, leaves[..k], i) {
      assert leaves[i] == leaf && proof == Path(h, leaves, i);
    } else {
      PreimagesGrow(h, leaf, below, Step(Right, Mth(h, leaves[k..])));
      CollidesInMore(h, TreePreimages(h, leaves[..k]) + ProofPreimages(h, leaf, below), TreePreimages(h, leaves) + ProofPreimages(h, leaf, proof));
    }
  }

  lemma FromRightHalf(h: Sha256, leaves: seq<Bytes>, leaf: Bytes, below: seq<Step>)
    requires |leaves| > 1 && HonestOrCollides(h, leaves[Split(|leaves|)..], leaf, below)
    ensures HonestOrCollides(h, leaves, leaf, below + [Step(Left, Mth(h, leaves[..Split(|leaves|)]))])
  {
    var k := Split(|leaves|);
    var proof := below + [Step(Left, Mth(h, leaves[..k]))];
    if i: nat :| i < |leaves| - k && leaves[k..][i] == leaf && below == Path(h, leaves[k..], i) {
      assert leaves[i + k] == leaf && proof == Path(h, leaves, i + k);
    } else {
      PreimagesGrow(h, leaf, below, Step(Left, Mth(h, leaves[..k])));
      CollidesInMore(h, TreePreimages(h, leaves[k..]) + ProofPreimages(h, leaf, below), TreePreimages(h, leaves) + ProofPreimages(h, leaf, proof));
    }
  }

  /** Equal roots mean equal lists, of any two lengths, or SHA-256 collides. */
  lemma {:induction false} RootDeterminesLeaves(h: Sha256, a: seq<Bytes>, b: seq<Bytes>)
    requires |a| > 0 && |b| > 0 && Mth(h, a) == Mth(h, b)
    ensures a == b || CollidesIn(h, TreePreimages(h, a) + TreePreimages(h, b))
    decreases |a|
  {
    var all := TreePreimages(h, a) + TreePreimages(h, b);
    var j, k := if |a| > 1 then Split(|a|) else 0, if |b| > 1 then Split(|b|) else 0;
    var topA := if |a| > 1 then NodePreimage(Mth(h, a[..j]), Mth(h, a[j..])) else LeafPreimage(a[0]);
    var topB := if |b| > 1 then NodePreimage(Mth(h, b[..k]), Mth(h, b[k..])) else LeafPreimage(b[0]);
    Collide(h, all, topA, topB);
    if CollidesIn(h, all) { return; }
    assert topA[0] == topB[0];
    if |a| == 1 {
      assert a[0] == topA[1..] == topB[1..] == b[0];
    } else {
      NodeInjective(Mth(h, a[..j]), Mth(h, a[j..]), Mth(h, b[..k]), Mth(h, b[k..]));
      RootDeterminesLeaves(h, a[..j], b[..k]);
      RootDeterminesLeaves(h, a[j..], b[k..]);
      if a[..j] != b[..k] {
        CollidesInMore(h, TreePreimages(h, a[..j]) + TreePreimages(h, b[..k]), all);
      } else if a[j..] != b[k..] {
        CollidesInMore(h, TreePreimages(h, a[j..]) + TreePreimages(h, b[k..]), all);
      } else {
        assert a == a[..j] + a[j..] == b;
      }
    }
  }

  // ---------------------------------------------------------------- the shape, byte by byte

  /** The largest power of two below `n`. */
  ghost predicate LargestBelow(k: nat, n: nat) { k < n <= 2 * k && exists d: nat :: k == Pow2(d) }

  /**
   * RFC 6962, section 2.1: a leaf is hashed behind a zero byte, a node behind a one byte, and a longer list splits at the
   * largest power of two below its length. Every proof ends with the sibling at that split, on its own side.
   */
  lemma Rfc6962(h: Sha256, leaves: seq<Bytes>)
    requires |leaves| > 0
    ensures |leaves| == 1 ==> Mth(h, leaves) == h([0x00] + leaves[0]) && Path(h, leaves, 0) == []
    ensures |leaves| > 1 ==>
              var k := Split(|leaves|);
              && LargestBelow(k, |leaves|)
              && Mth(h, leaves) == h([0x01] + Mth(h, leaves[..k]) + Mth(h, leaves[k..]))
              && (forall i :: 0 <= i < k ==> Path(h, leaves, i) == Path(h, leaves[..k], i) + [Step(Right, Mth(h, leaves[k..]))])
              && (forall i :: k <= i < |leaves| ==> Path(h, leaves, i) == Path(h, leaves[k..], i - k) + [Step(Left, Mth(h, leaves[..k]))])
  {
    if |leaves| > 1 { SplitIsPower(|leaves|); }
  }

  lemma SplitIsPower(n: nat)
    requires n >= 2
    ensures exists d: nat :: Split(n) == Pow2(d)
  {
    assert Pow2(0) == 1;
    PowerFrom(1, 0, n);
  }

  lemma {:induction false} PowerFrom(k: nat, d: nat, n: nat)
    requires 1 <= k < n && k == Pow2(d)
    ensures exists e: nat :: SplitFrom(k, n) == Pow2(e)
    decreases n - k
  {
    if 2 * k < n {
      assert Pow2(d + 1) == 2 * k;
      PowerFrom(2 * k, d + 1, n);
    }
  }
}
