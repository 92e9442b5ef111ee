/** The coinbase Merkle path. The pool computes it before any coinbase exists; folding a coinbase
    hash up the path must give the root of the whole tree. Double SHA-256 is a parameter. */
module Merkle {
  import opened Bytes
  import opened Target
  import opened Options

  type Sha = seq<Byte> -> Hash

  function Combine(sha: Sha, left: Hash, right: Hash): Hash {
    sha(left + right)
  }

  // ---- the reference: the full tree, duplicating the last node of an odd level ----

  function PadEven(level: seq<Hash>): (r: seq<Hash>)
    requires level != []
    ensures |r| % 2 == 0 && |level| <= |r| <= |level| + 1
  {
    if |level| % 2 == 1 then level + [level[|level| - 1]] else level
  }

  function PairUp(sha: Sha, level: seq<Hash>): (r: seq<Hash>)
    requires |level| % 2 == 0
    ensures |r| == |level| / 2
  {
    seq(|level| / 2, i requires 0 <= i < |level| / 2 => Combine(sha, level[2 * i], level[2 * i + 1]))
  }

  function TreeRoot(sha: Sha, leaves: seq<Hash>): Hash
    requires leaves != []
    decreases |leaves|
  {
    if |leaves| == 1 then leaves[0] else TreeRoot(sha, PairUp(sha, PadEven(leaves)))
  }

  /** A pair is hashed left before right. */
  lemma TwoLeaves(sha: Sha, a: Hash, b: Hash)
    ensures TreeRoot(sha, [a]) == a
    ensures TreeRoot(sha, [a, b]) == sha(a + b)
  {
    assert PadEven([a, b]) == [a, b];
    assert PairUp(sha, [a, b]) == [sha(a + b)];
  }

  /** An odd leaf is hashed with itself. */
  lemma ThreeLeaves(sha: Sha, a: Hash, b: Hash, c: Hash)
    ensures TreeRoot(sha, [a, b, c]) == sha(sha(a + b) + sha(c + c))
  {
    var (x, y) := (sha(a + b), sha(c + c));
    assert PadEven([a, b, c]) == [a, b, c, c];
    assert PairUp(sha, [a, b, c, c]) == [x, y];
    assert TreeRoot(sha, [a, b, c]) == TreeRoot(sha, [x, y]);
    TwoLeaves(sha, x, y);
  }

  // ---- the path ----

  /** The nodes to the right of the path at one level, given the level's known nodes. */
  function Siblings(known: seq<Hash>): (r: seq<Hash>)
    requires known != []
    ensures |r| % 2 == 1 && |known| <= |r| <= |known| + 1
  {
    if |known| % 2 == 0 then known + [known[|known| - 1]] else known
  }

  /** The known nodes one level up. */
  function Up(sha: Sha, known: seq<Hash>): (r: seq<Hash>)
    requires known != []
    ensures |r| == |known| / 2
  {
    PairUp(sha, Siblings(known)[1..])
  }

  function Branch(sha: Sha, known: seq<Hash>): seq<Hash>
    decreases |known|
  {
    if known == [] then [] else [known[0]] + Branch(sha, Up(sha, known))
  }

  /** The root a miner or the validator computes from a coinbase hash and a path. */
  function Climb(sha: Sha, hash: Hash, branch: seq<Hash>): Hash
    decreases |branch|
  {
    if branch == [] then hash else Climb(sha, Combine(sha, hash, branch[0]), branch[1..])
  }

  /** Path refinement: whatever the coinbase turns out to be, the path reaches the tree's root. */
  lemma {:induction false} BranchReachesRoot(sha: Sha, coinbase: Hash, known: seq<Hash>)
    ensures Climb(sha, coinbase, Branch(sha, known)) == TreeRoot(sha, [coinbase] + known)
    decreases |known|
  {
    if known == [] {
      assert [coinbase] + known == [coinbase];
    } else {
      OneLevelUp(sha, coinbase, known);
      BranchReachesRoot(sha, Combine(sha, coinbase, known[0]), Up(sha, known));
      assert Branch(sha, known)[1..] == Branch(sha, Up(sha, known));
    }
  }

  lemma OneLevelUp(sha: Sha, coinbase: Hash, known: seq<Hash>)
    requires known != []
    ensures PairUp(sha, PadEven([coinbase] + known)) == [Combine(sha, coinbase, known[0])] + Up(sha, known)
  {
    var (level, sibs) := ([coinbase] + known, Siblings(known));
    assert PadEven(level) == [coinbase] + sibs;
    var (l, r) := (PairUp(sha, [coinbase] + sibs), [Combine(sha, coinbase, sibs[0])] + PairUp(sha, sibs[1..]));
    forall i | 0 <= i < |l|
      ensures l[i] == r[i]
    {
      if i > 0 {
        assert sibs[1..][2 * (i - 1)] == sibs[2 * i - 1];
        assert sibs[1..][2 * (i - 1) + 1] == sibs[2 * i];
      }
    }
    assert l == r;
  }

  function Pow2(e: nat): (r: nat)
    ensures r > 0
  {
    if e == 0 then 1 else 2 * Pow2(e - 1)
  }

  /** The path is as long as the tree is deep: the ceiling of log2 of the leaf count. */
  lemma {:induction false} BranchLength(sha: Sha, known: seq<Hash>)
    ensures |known| + 1 <= Pow2(|Branch(sha, known)|)
    ensures known != [] ==> Pow2(|Branch(sha, known)| - 1) < |known| + 1
    decreases |known|
  {
    if known != [] {
      BranchLength(sha, Up(sha, known));
    }
  }

  // ---- the source's algorithm: levels with a hole where the coinbase goes ----

  /** A level as the source stores it: an empty slot, then the known nodes. */
  function Holed(known: seq<Hash>): (r: seq<Option<Hash>>)
    ensures |r| == |known| + 1
  {
    seq(|known| + 1, i requires 0 <= i <= |known| => if i == 0 then None else Some(known[i - 1]))
  }

  method ComputeMerkleBranchRaw(sha: Sha, txids: seq<Hash>) returns (branch: seq<Hash>)
    ensures branch == Branch(sha, txids)
  {
    if txids == [] {
      return [];
    }
    branch := [];
    var pathIndex := 0;
    var level: seq<Option<Hash>> := Holed(txids);
    ghost var known := txids;
    assert branch + Branch(sha, known) == Branch(sha, txids);
    while |level| > 1
      invariant level == Holed(known)
      invariant pathIndex == 0
      invariant branch + Branch(sha, known) == Branch(sha, txids)
      decreases |level|
    {
      PathGrows(branch, known[0], Branch(sha, Up(sha, known)));
      level := PadLevel(level, known);
      var siblingIndex := if pathIndex % 2 == 0 then pathIndex + 1 else pathIndex - 1;
      if level[siblingIndex].Some? {
        branch := branch + [level[siblingIndex].value];
      }
      level := NextLevel(sha, level, known);
      known := Up(sha, known);
      pathIndex := pathIndex / 2;
    }
  }

  lemma PathGrows(path: seq<Hash>, node: Hash, rest: seq<Hash>)
    ensures path + ([node] + rest) == path + [node] + rest
  {
  }

  method PadLevel(level: seq<Option<Hash>>, ghost known: seq<Hash>) returns (padded: seq<Option<Hash>>)
    requires known != [] && level == Holed(known)
    ensures padded == Holed(Siblings(known))
    ensures padded[1] == Some(known[0])
  {
    padded := level;
    if |padded| % 2 != 0 {
      padded := padded + [padded[|padded| - 1]];
    }
  }

  /** One level up: a pair with the hole in it is again a hole. */
  method NextLevel(sha: Sha, level: seq<Option<Hash>>, ghost known: seq<Hash>) returns (next: seq<Option<Hash>>)
    requires known != [] && level == Holed(Siblings(known))
    ensures next == Holed(Up(sha, known))
  {
    ghost var sibs := Siblings(known);
    next := [];
    var i := 0;
    while i < |level| / 2
      invariant 0 <= i <= |level| / 2 && |next| == i
      invariant forall j :: 0 <= j < i ==> next[j] == Holed(Up(sha, known))[j]
    {
      var (left, right) := (level[2 * i], level[2 * i + 1]);
      if left.Some? && right.Some? {
        assert i > 0 && sibs[1..][2 * (i - 1)] == left.value && sibs[1..][2 * (i - 1) + 1] == right.value;
        next := next + [Some(Combine(sha, left.value, right.value))];
      } else {
        next := next + [None];
      }
      i := i + 1;
    }
  }
}
