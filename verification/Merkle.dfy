/** The receipt tree of a settlement batch: root, sibling paths and their verification.
    sha256 is a free algebra, so it is injective and a digest of a leaf payload is never
    the digest of two concatenated hashes. The tree pairs an odd node with itself and has
    no leaf/node prefix, unlike the tree of section 2.1 of RFC 6962. */
module Merkle {
  import opened Orders

  /** One (user, sp, amount, token) tuple as it enters the batch hash. */
  datatype HashItem = HashItem(user: string, sp: string, amount: string, token: string)

  datatype Payload =
    | ReceiptLeaf(rid: string, wallet: string, sp: string, model: string,
                  promptTokens: int, completionTokens: int, cachedTokens: int, sig: string)
    | DebtLeaf(rid: string, wallet: string, sp: string)
    | BatchContent(items: seq<HashItem>, requestIDs: seq<string>)

  datatype Hash =
    | Zero                             // the all-zero 32 bytes
    | Digest(payload: Payload)         // sha256 of a canonical JSON text
    | Pair(left: Hash, right: Hash)    // sha256 of two concatenated hashes

  /** The on-chain details hash and an inner tree node are the same sha256 of 64 bytes. */
  function CombinedDetailsHash(legacy: Hash, root: Hash): Hash { Pair(legacy, root) }

  // ---- Specification ----

  function Sibling(idx: nat, n: nat): nat
    requires idx < n
    ensures Sibling(idx, n) < n
  {
    var s := if idx % 2 == 0 then idx + 1 else idx - 1;
    if s < n then s else idx
  }

  function NextLevel(level: seq<Hash>): (next: seq<Hash>)
    ensures |next| == (|level| + 1) / 2
  {
    seq((|level| + 1) / 2, i requires 0 <= i < (|level| + 1) / 2 => Pair(level[2 * i], level[Sibling(2 * i, |level|)]))
  }

  function Root(leaves: seq<Hash>): Hash
    decreases |leaves|
  {
    if leaves == [] then Zero
    else if |leaves| == 1 then leaves[0]
    else Root(NextLevel(leaves))
  }

  function Path(leaves: seq<Hash>, idx: nat): seq<Hash>
    requires idx < |leaves|
    decreases |leaves|
  {
    if |leaves| == 1 then [] else [leaves[Sibling(idx, |leaves|)]] + Path(NextLevel(leaves), idx / 2)
  }

  /** Go's integer division by two truncates toward zero. */
  function Half(i: int): int { if i >= 0 then i / 2 else -((-i) / 2) }

  function Fold(h: Hash, idx: int, path: seq<Hash>): Hash
    decreases |path|
  {
    if path == [] then h
    else Fold(if idx % 2 == 0 then Pair(h, path[0]) else Pair(path[0], h), Half(idx), path[1..])
  }

  // ---- The code ----

  method HashLevel(level: seq<Hash>) returns (next: seq<Hash>)
    ensures next == NextLevel(level)
  {
    next := [];
    var i := 0;
    while i < |level|
      invariant 0 <= i <= |level| + 1 && i % 2 == 0 && |next| == i / 2
      invariant next == NextLevel(level)[..i / 2]
    {
      var j := i + 1;
      if j == |level| { j := i; }
      next := next + [Pair(level[i], level[j])];
      i := i + 2;
    }
  }

  method MerkleRoot(leaves: seq<Hash>) returns (root: Hash)
    ensures root == Root(leaves)
  {
    if |leaves| == 0 { return Zero; }
    var level := leaves;
    while |level| > 1
      invariant |level| > 0 && Root(level) == Root(leaves)
      decreases |level|
    {
      level := HashLevel(level);
    }
    return level[0];
  }

  lemma {:induction false} PathOn(proof: seq<Hash>, level: seq<Hash>, at: nat)
    requires at < |level| && |level| > 1
    ensures proof + Path(level, at) == (proof + [level[Sibling(at, |level|)]]) + Path(NextLevel(level), at / 2)
  {
    assert Path(level, at) == [level[Sibling(at, |level|)]] + Path(NextLevel(level), at / 2);
  }

  /** An index outside the leaves has no path; the code answers with the empty one. */
  method MerkleProofFor(leaves: seq<Hash>, idx: int) returns (proof: seq<Hash>)
    ensures 0 <= idx < |leaves| ==> proof == Path(leaves, idx)
    ensures !(0 <= idx < |leaves|) ==> proof == []
  {
    proof := [];
    if idx < 0 || idx >= |leaves| { return; }
    var level, at := leaves, idx;
    while |level| > 1
      invariant 0 <= at < |level|
      invariant proof + Path(level, at) == Path(leaves, idx)
      decreases |level|
    {
      var sib := if at % 2 == 0 then at + 1 else at - 1;
      if sib >= |level| { sib := at; }
      PathOn(proof, level, at);
      proof := proof + [level[sib]];
      level := HashLevel(level);
      at := at / 2;
    }
  }

  method VerifyMerkleProof(leaf: Hash, idx: int, proof: seq<Hash>, root: Hash) returns (ok: bool)
    ensures ok <==> Fold(leaf, idx, proof) == root
  {
    var h, at := leaf, idx;
    for i := 0 to |proof|
      invariant Fold(h, at, proof[i..]) == Fold(leaf, idx, proof)
    {
      assert proof[i..][1..] == proof[i + 1..];
      if at % 2 == 0 { h := Pair(h, proof[i]); } else { h := Pair(proof[i], h); }
      at := Half(at);
    }
    return h == root;
  }

  function Joined(idx: nat, x: Hash, s: Hash): Hash { if idx % 2 == 0 then Pair(x, s) else Pair(s, x) }

  lemma ParentAt(leaves: seq<Hash>, idx: nat)
    requires idx < |leaves| && |leaves| > 1
    ensures idx / 2 < |NextLevel(leaves)| && NextLevel(leaves)[idx / 2] == Joined(idx, leaves[idx], leaves[Sibling(idx, |leaves|)])
  {
  }

  // ---- Completeness ----

  /** Every leaf's own path leads to the computed root. */
  lemma {:induction false} PathLeadsToRoot(leaves: seq<Hash>, idx: nat)
    requires idx < |leaves|
    ensures Fold(leaves[idx], idx, Path(leaves, idx)) == Root(leaves)
    decreases |leaves|
  {
    if |leaves| > 1 {
      var s, up := leaves[Sibling(idx, |leaves|)], NextLevel(leaves);
      ParentAt(leaves, idx);
      PathLeadsToRoot(up, idx / 2);
      assert Path(leaves, idx)[0] == s && Path(leaves, idx)[1..] == Path(up, idx / 2);
    }
  }

  // ---- Shape of the tree ----

  /** A full tree of height `d` whose leaves are digests of leaf payloads. */
  ghost predicate Perfect(h: Hash, d: nat) {
    if d == 0 then h.Digest? else h.Pair? && Perfect(h.left, d - 1) && Perfect(h.right, d - 1)
  }

  ghost predicate PerfectLevel(level: seq<Hash>, d: nat) {
    forall i | 0 <= i < |level| :: Perfect(level[i], d)
  }

  function Height(n: nat): nat { if n <= 1 then 0 else 1 + Height((n + 1) / 2) }

  lemma {:induction false} PerfectHeightUnique(h: Hash, c: nat, d: nat)
    requires Perfect(h, c) && Perfect(h, d)
    ensures c == d
  {
    if c > 0 && d > 0 { PerfectHeightUnique(h.left, c - 1, d - 1); }
  }

  lemma {:induction false} RootIsPerfect(level: seq<Hash>, d: nat)
    requires level != [] && PerfectLevel(level, d)
    ensures Perfect(Root(level), d + Height(|level|))
    decreases |level|
  {
    if |level| > 1 { RootIsPerfect(NextLevel(level), d + 1); }
  }

  // ---- Soundness ----

  /** A fold of the tree's height that reaches the root is the path of its index. */
  lemma {:induction false} FoldPinsLeaf(leaves: seq<Hash>, x: Hash, idx: nat, path: seq<Hash>)
    requires idx < |leaves| && |path| == Height(|leaves|)
    requires Fold(x, idx, path) == Root(leaves)
    ensures x == leaves[idx] && path == Path(leaves, idx)
    decreases |leaves|
  {
    if |leaves| > 1 {
      var next, s := NextLevel(leaves), leaves[Sibling(idx, |leaves|)];
      ParentAt(leaves, idx);
      FoldPinsLeaf(next, Joined(idx, x, path[0]), idx / 2, path[1..]);
      assert path[0] == s;
      assert path == [path[0]] + path[1..] == [s] + Path(next, idx / 2);
    }
  }

  lemma {:induction false} FoldHeight(x: Hash, idx: int, path: seq<Hash>, d: nat)
    requires Perfect(Fold(x, idx, path), d)
    ensures |path| <= d && Perfect(x, d - |path|)
    decreases |path|
  {
    if path != [] {
      FoldHeight(if idx % 2 == 0 then Pair(x, path[0]) else Pair(path[0], x), Half(idx), path[1..], d);
    }
  }

  /** A leaf accepted at an index of the batch is the leaf committed at that index, and the
      only path accepted for it is the generated one. The length of the path needs no check. */
  lemma {:induction false} ProofSound(leaves: seq<Hash>, x: Hash, idx: nat, path: seq<Hash>)
    requires PerfectLevel(leaves, 0) && x.Digest? && idx < |leaves|
    ensures Fold(x, idx, path) == Root(leaves) <==> x == leaves[idx] && path == Path(leaves, idx)
  {
    if Fold(x, idx, path) == Root(leaves) {
      RootIsPerfect(leaves, 0);
      FoldHeight(x, idx, path, Height(|leaves|));
      PerfectHeightUnique(x, 0, Height(|leaves|) - |path|);
      FoldPinsLeaf(leaves, x, idx, path);
    } else {
      if x == leaves[idx] { PathLeadsToRoot(leaves, idx); }
    }
  }

  ghost predicate Occurs(x: Hash, h: Hash) {
    h == x || (h.Pair? && (Occurs(x, h.left) || Occurs(x, h.right)))
  }

  lemma {:induction false} FoldKeepsOccurrence(x: Hash, h: Hash, idx: int, path: seq<Hash>)
    requires Occurs(x, h)
    ensures Occurs(x, Fold(h, idx, path))
    decreases |path|
  {
    if path != [] {
      FoldKeepsOccurrence(x, if idx % 2 == 0 then Pair(h, path[0]) else Pair(path[0], h), Half(idx), path[1..]);
    }
  }

  lemma {:induction false} RootOccurrence(level: seq<Hash>, x: Hash) returns (i: nat)
    requires x.Digest? && Occurs(x, Root(level))
    ensures i < |level| && Occurs(x, level[i])
    decreases |level|
  {
    if |level| <= 1 {
      i := 0;
    } else {
      var k := RootOccurrence(NextLevel(level), x);
      i := if Occurs(x, level[2 * k]) then 2 * k else Sibling(2 * k, |level|);
    }
  }

  /** Whatever index and path a verifier is shown, negative or beyond the batch included,
      an accepted leaf was committed in the batch. */
  lemma {:induction false} AcceptedLeafWasCommitted(leaves: seq<Hash>, x: Hash, idx: int, path: seq<Hash>)
    requires PerfectLevel(leaves, 0) && x.Digest?
    requires Fold(x, idx, path) == Root(leaves)
    ensures x in leaves
  {
    FoldKeepsOccurrence(x, x, idx, path);
    var i := RootOccurrence(leaves, x);
    assert leaves[i] == x;
  }

  /** The nodes `k` levels above the leaves, and the one above a leaf. */
  function LevelAbove(leaves: seq<Hash>, k: nat): seq<Hash>
    decreases k
  {
    if k == 0 then leaves else LevelAbove(NextLevel(leaves), k - 1)
  }

  function AncestorAt(idx: nat, k: nat): nat
    decreases k
  {
    if k == 0 then idx else AncestorAt(idx / 2, k - 1)
  }

  function Pow2(k: nat): nat { if k == 0 then 1 else 2 * Pow2(k - 1) }

  lemma {:induction false} UpperLevelsNarrow(leaves: seq<Hash>, k: nat)
    requires |leaves| <= 1
    ensures |LevelAbove(leaves, k)| <= 1
    decreases k
  {
    if k > 0 { UpperLevelsNarrow(NextLevel(leaves), k - 1); }
  }

  /** The index, unlike the leaf, is bound only inside the batch: at every level with an odd
      number of nodes above one, a leaf below the last node also verifies with its own path at
      the index its padding copy would have, which is none of the batch. */
  lemma {:induction false} PaddingIndexVerifies(leaves: seq<Hash>, idx: nat, k: nat)
    requires idx < |leaves| && |LevelAbove(leaves, k)| > 1 && |LevelAbove(leaves, k)| % 2 == 1
    requires AncestorAt(idx, k) == |LevelAbove(leaves, k)| - 1
    ensures idx + Pow2(k) >= |leaves| && Fold(leaves[idx], idx + Pow2(k), Path(leaves, idx)) == Root(leaves)
  {
    Padded(leaves, idx, k, Pow2(k));
  }

  lemma {:induction false} Padded(leaves: seq<Hash>, idx: nat, k: nat, d: nat)
    requires idx < |leaves| && |LevelAbove(leaves, k)| > 1 && |LevelAbove(leaves, k)| % 2 == 1
    requires AncestorAt(idx, k) == |LevelAbove(leaves, k)| - 1 && d == Pow2(k)
    ensures idx + d >= |leaves| && Fold(leaves[idx], idx + d, Path(leaves, idx)) == Root(leaves)
    decreases k
  {
    if k == 0 {
      LastPadding(leaves, idx, d);
    } else {
      if |leaves| <= 1 { UpperLevelsNarrow(leaves, k); }
      Padded(NextLevel(leaves), idx / 2, k - 1, d / 2);
      HigherPadding(leaves, idx, d / 2, d);
    }
  }

  lemma {:induction false} FoldStep(h: Hash, idx: nat, s: Hash, path: seq<Hash>)
    ensures Fold(h, idx, [s] + path) == Fold(Joined(idx, h, s), idx / 2, path)
  {
    assert ([s] + path)[1..] == path;
  }

  lemma LastPadding(leaves: seq<Hash>, idx: nat, d: nat)
    requires |leaves| > 1 && |leaves| % 2 == 1 && idx == |leaves| - 1 && d == 1
    ensures Fold(leaves[idx], idx + d, Path(leaves, idx)) == Root(leaves)
  {
    var x, rest := leaves[idx], Path(NextLevel(leaves), idx / 2);
    PathLeadsToRoot(leaves, idx);
    FoldStep(x, idx, x, rest);
    FoldStep(x, idx + 1, x, rest);
  }

  lemma HigherPadding(leaves: seq<Hash>, idx: nat, half: nat, d: nat)
    requires idx < |leaves| && |leaves| > 1 && d == 2 * half
    requires Fold(NextLevel(leaves)[idx / 2], idx / 2 + half, Path(NextLevel(leaves), idx / 2)) == Root(NextLevel(leaves))
    ensures Fold(leaves[idx], idx + d, Path(leaves, idx)) == Root(leaves)
  {
    ParentAt(leaves, idx);
    FoldStep(leaves[idx], idx + d, leaves[Sibling(idx, |leaves|)], Path(NextLevel(leaves), idx / 2));
    assert (idx + d) / 2 == idx / 2 + half && (idx + d) % 2 == idx % 2;
  }

  // ---- Root binding ----

  lemma NextLevelDistinct(level: seq<Hash>)
    requires Distinct(level)
    ensures Distinct(NextLevel(level))
  {
    var next := NextLevel(level);
    forall i, j | 0 <= i < j < |next| ensures next[i] != next[j] {
      assert level[2 * i] != level[2 * j];
    }
  }

  lemma NextLevelInjective(a: seq<Hash>, b: seq<Hash>)
    requires Distinct(a) && Distinct(b) && NextLevel(a) == NextLevel(b)
    ensures a == b
  {
    var n := NextLevel(a);
    assert |n| > 0 ==> n[|n| - 1] == NextLevel(b)[|n| - 1];
    forall i | 0 <= i < |a| && i < |b| ensures a[i] == b[i] {
      assert n[i / 2] == NextLevel(b)[i / 2];
    }
  }

  lemma {:induction false} LevelBinding(a: seq<Hash>, b: seq<Hash>, d: nat)
    requires Distinct(a) && Distinct(b) && PerfectLevel(a, d) && PerfectLevel(b, d)
    requires Root(a) == Root(b)
    ensures a == b
    decreases |a|
  {
    if a != [] { RootIsPerfect(a, d); }
    if b != [] { RootIsPerfect(b, d); }
    if a != [] && b != [] {
      PerfectHeightUnique(Root(a), d + Height(|a|), d + Height(|b|));
      if |a| > 1 {
        NextLevelDistinct(a);
        NextLevelDistinct(b);
        LevelBinding(NextLevel(a), NextLevel(b), d + 1);
        NextLevelInjective(a, b);
      }
    }
  }

  /** For lists of pairwise distinct leaves, of any two lengths, the root determines the list. */
  lemma {:induction false} RootBinding(a: seq<Hash>, b: seq<Hash>)
    requires Distinct(a) && Distinct(b) && PerfectLevel(a, 0) && PerfectLevel(b, 0)
    ensures Root(a) == Root(b) <==> a == b
  {
    if Root(a) == Root(b) { LevelBinding(a, b, 0); }
  }

  /** Without distinctness the root does not determine the list. */
  lemma RepeatedLeafCollides(a: Hash, b: Hash, c: Hash)
    ensures Root([a, b, c]) == Root([a, b, c, c]) && [a, b, c] != [a, b, c, c]
  {
    assert NextLevel([a, b, c]) == [Pair(a, b), Pair(c, c)] == NextLevel([a, b, c, c]);
  }
}
