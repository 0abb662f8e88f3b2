/** The tree over sealed runs: src/core/merkle.rs, which is the tree of
    section 2.1 of RFC 6962, its audit paths (2.1.1) and its consistency
    proofs (2.1.2). */
module Merkle {
  import opened Wrappers
  import opened Hashing

  /** A digest already hashed as a leaf.  Leaves enter the tree only as
      results of `LeafHashOf`. */
  type LeafHash = Digest

  function LeafHashOf(h: Hash, value: Digest): LeafHash {
    h(LeafString(value))
  }

  function LeafString(value: Digest): Bytes {
    [0] + value.bytes
  }

  function NodeString(left: Digest, right: Digest): Bytes {
    [1] + left.bytes + right.bytes
  }

  function NodeHash(h: Hash, left: Digest, right: Digest): Digest {
    h(NodeString(left, right))
  }

  // ── Where a tree splits ────────────────────────────────────────────────

  function SplitFrom(k: nat, n: nat): (r: nat)
    requires 1 <= k < n
    ensures k <= r < n <= 2 * r
    decreases n - k
  {
    if 2 * k < n then SplitFrom(2 * k, n) else k
  }

  ghost predicate PowerOfTwo(k: nat) {
    k == 1 || (k > 1 && k % 2 == 0 && PowerOfTwo(k / 2))
  }

  /** The largest power of two strictly below `n`. */
  function Split(n: nat): (k: nat)
    requires n > 1
    ensures 1 <= k < n <= 2 * k
  {
    SplitFrom(1, n)
  }

  lemma {:induction false} SplitFromIsPowerOfTwo(k: nat, n: nat)
    requires 1 <= k < n && PowerOfTwo(k)
    ensures PowerOfTwo(SplitFrom(k, n))
    decreases n - k
  {
    if 2 * k < n {
      assert (2 * k) / 2 == k;
      SplitFromIsPowerOfTwo(2 * k, n);
    }
  }

  /** Every tree whose size lies between a split and the size it splits, splits
      at the same place, so a left subtree is never cut again. */
  lemma {:induction false} SplitFromIsStable(k: nat, m: nat, n: nat)
    requires 1 <= k < n && SplitFrom(k, n) < m <= n
    ensures SplitFrom(k, m) == SplitFrom(k, n)
    decreases n - k
  {
    if 2 * k < n {
      SplitFromIsStable(2 * k, m, n);
    }
  }

  const U64: nat := 0x1_0000_0000_0000_0000

  /** The doubling loop, with the overflow check that keeps a size past 2^63
      from looping for ever. */
  method SplitPoint(n: nat) returns (k: nat)
    requires 1 < n < U64
    ensures k == Split(n) && PowerOfTwo(k)
  {
    k := 1;
    while k * 2 < U64 && k * 2 < n
      invariant 1 <= k < n
      invariant SplitFrom(k, n) == Split(n)
      decreases n - k
    {
      k := k * 2;
    }
    SplitFromIsPowerOfTwo(1, n);
  }

  // ── The root ───────────────────────────────────────────────────────────

  function Root(h: Hash, leaves: seq<LeafHash>): Digest
    decreases |leaves|
  {
    if leaves == [] then h([])
    else if |leaves| == 1 then leaves[0]
    else
      var k := Split(|leaves|);
      NodeHash(h, Root(h, leaves[..k]), Root(h, leaves[k..]))
  }

  /** Every string hashed at the interior nodes of the tree over `leaves`. */
  ghost function TreeStrings(h: Hash, leaves: seq<LeafHash>): set<Bytes>
    decreases |leaves|
  {
    if |leaves| <= 1 then {}
    else
      var k := Split(|leaves|);
      TreeStrings(h, leaves[..k]) + TreeStrings(h, leaves[k..]) +
      {NodeString(Root(h, leaves[..k]), Root(h, leaves[k..]))}
  }

  /** Two interior nodes with one digest have the same children. */
  lemma NodesBind(h: Hash, l: Digest, r: Digest, l': Digest, r': Digest, s: set<Bytes>)
    requires NodeHash(h, l, r) == NodeHash(h, l', r')
    requires NodeString(l, r) in s && NodeString(l', r') in s && Injective(h, s)
    ensures l == l' && r == r'
  {
    var x, y := NodeString(l, r), NodeString(l', r');
    assert x == y;
    assert x[1..33] == l.bytes && x[33..] == r.bytes && y[1..33] == l'.bytes && y[33..] == r'.bytes;
  }

  lemma RootOfOne(h: Hash, leaves: seq<LeafHash>)
    requires |leaves| == 1
    ensures Root(h, leaves) == leaves[0]
  {
  }

  lemma RootParts(h: Hash, leaves: seq<LeafHash>)
    requires |leaves| > 1
    ensures var k := Split(|leaves|); Root(h, leaves) == NodeHash(h, Root(h, leaves[..k]), Root(h, leaves[k..]))
  {
  }

  /** What an interior node contributes, and the strings of its two subtrees. */
  lemma {:induction false} TreeParts(h: Hash, leaves: seq<LeafHash>, s: set<Bytes>)
    requires |leaves| > 1 && TreeStrings(h, leaves) <= s
    ensures var k := Split(|leaves|);
            var l, r := leaves[..k], leaves[k..];
            TreeStrings(h, l) <= s && TreeStrings(h, r) <= s && NodeString(Root(h, l), Root(h, r)) in s &&
            Root(h, leaves) == NodeHash(h, Root(h, l), Root(h, r))
  {
  }

  /** One root at one size commits to one list of leaves. */
  lemma {:induction false} RootBinds(h: Hash, a: seq<LeafHash>, b: seq<LeafHash>, s: set<Bytes>)
    requires |a| == |b| && Root(h, a) == Root(h, b)
    requires TreeStrings(h, a) <= s && TreeStrings(h, b) <= s && Injective(h, s)
    ensures a == b
    decreases |a|
  {
    hide TreeStrings, Split, Injective, NodeHash;
    if |a| > 1 {
      hide Root;
      var k := Split(|a|);
      TreeParts(h, a, s);
      TreeParts(h, b, s);
      NodesBind(h, Root(h, a[..k]), Root(h, a[k..]), Root(h, b[..k]), Root(h, b[k..]), s);
      RootBinds(h, a[..k], b[..k], s);
      RootBinds(h, a[k..], b[k..], s);
      assert a == a[..k] + a[k..] && b == b[..k] + b[k..];
    }
  }

  // ── Inclusion ──────────────────────────────────────────────────────────

  /** The sibling hashes that prove `index`, deepest first. */
  function BuildProof(h: Hash, leaves: seq<LeafHash>, index: nat): seq<Digest>
    requires index < |leaves|
    decreases |leaves|
  {
    if |leaves| <= 1 then []
    else
      var k := Split(|leaves|);
      if index < k then BuildProof(h, leaves[..k], index) + [Root(h, leaves[k..])]
      else BuildProof(h, leaves[k..], index - k) + [Root(h, leaves[..k])]
  }

  function InclusionProof(h: Hash, leaves: seq<LeafHash>, index: nat): seq<Digest> {
    if index >= |leaves| then [] else BuildProof(h, leaves, index)
  }

  /** The root a path rebuilds to, or none when the path has the wrong length
      for a tree of `size`: the reading of a path from the root down, which the
      loops of `VerifyInclusion` are held to. */
  function PathRoot(h: Hash, leaf: LeafHash, index: nat, size: nat, proof: seq<Digest>): Option<Digest>
    requires index < size
    decreases size
  {
    if size == 1 then (if proof == [] then Some(leaf) else None)
    else if proof == [] then None
    else
      var k := Split(size);
      var sibling, below := proof[|proof| - 1], proof[..|proof| - 1];
      if index < k then
        match PathRoot(h, leaf, index, k, below)
        case Some(left) => Some(NodeHash(h, left, sibling))
        case None => None
      else
        match PathRoot(h, leaf, index - k, size - k, below)
        case Some(right) => Some(NodeHash(h, sibling, right))
        case None => None
  }

  predicate Included(h: Hash, leaf: LeafHash, index: nat, size: nat, proof: seq<Digest>, root: Digest) {
    index < size && PathRoot(h, leaf, index, size, proof) == Some(root)
  }

  /** Every string hashed while a path is folded. */
  ghost function PathStrings(h: Hash, leaf: LeafHash, index: nat, size: nat, proof: seq<Digest>): set<Bytes>
    requires index < size
    decreases size
  {
    if size == 1 || proof == [] then {}
    else
      var k := Split(size);
      var sibling, below := proof[|proof| - 1], proof[..|proof| - 1];
      if index < k then
        PathStrings(h, leaf, index, k, below) +
        (match PathRoot(h, leaf, index, k, below)
         case Some(left) => {NodeString(left, sibling)}
         case None => {})
      else
        PathStrings(h, leaf, index - k, size - k, below) +
        (match PathRoot(h, leaf, index - k, size - k, below)
         case Some(right) => {NodeString(sibling, right)}
         case None => {})
  }

  /** Which way each level of the path goes, from the root down. */
  function Turns(index: nat, size: nat): seq<bool>
    requires index < size
    decreases size
  {
    if size == 1 then []
    else
      var k := Split(size);
      if index < k then [true] + Turns(index, k) else [false] + Turns(index - k, size - k)
  }

  /** The fold of the second loop of `VerifyInclusion`: the lowest `n` siblings
      applied, given the turns from the root down. */
  function Climb(h: Hash, leaf: LeafHash, turns: seq<bool>, proof: seq<Digest>, n: nat): Digest
    requires n <= |turns| == |proof|
  {
    if n == 0 then leaf
    else
      var below := Climb(h, leaf, turns, proof, n - 1);
      if turns[|turns| - n] then NodeHash(h, below, proof[n - 1]) else NodeHash(h, proof[n - 1], below)
  }

  /** Climbing ignores what lies above the levels it has climbed. */
  lemma {:induction false} ClimbIsLocal(h: Hash, leaf: LeafHash, turns: seq<bool>, proof: seq<Digest>, n: nat)
    requires n < |turns| == |proof|
    ensures Climb(h, leaf, turns, proof, n) == Climb(h, leaf, turns[1..], proof[..|proof| - 1], n)
  {
    if n > 0 {
      ClimbIsLocal(h, leaf, turns, proof, n - 1);
    }
  }

  /** The two loops and the recursion from the root agree. */
  lemma {:induction false} ClimbIsPathRoot(h: Hash, leaf: LeafHash, index: nat, size: nat, proof: seq<Digest>)
    requires index < size
    ensures PathRoot(h, leaf, index, size, proof).Some? <==> |proof| == |Turns(index, size)|
    ensures |proof| == |Turns(index, size)| ==>
              PathRoot(h, leaf, index, size, proof) == Some(Climb(h, leaf, Turns(index, size), proof, |proof|))
    decreases size
  {
    if size > 1 && proof != [] {
      var k := Split(size);
      var below := proof[..|proof| - 1];
      var turns := Turns(index, size);
      if index < k {
        ClimbIsPathRoot(h, leaf, index, k, below);
        assert turns[1..] == Turns(index, k);
      } else {
        ClimbIsPathRoot(h, leaf, index - k, size - k, below);
        assert turns[1..] == Turns(index - k, size - k);
      }
      if |proof| == |turns| {
        ClimbIsLocal(h, leaf, turns, proof, |below|);
      }
    }
  }

  lemma NoTurns(taken: seq<bool>)
    ensures taken + Turns(0, 1) == taken
  {
  }

  lemma TakeTurn(taken: seq<bool>, index: nat, size: nat)
    requires index < size && size > 1
    ensures var k := Split(size);
            taken + Turns(index, size) ==
            taken + [index < k] + (if index < k then Turns(index, k) else Turns(index - k, size - k))
  {
  }

  /** The first loop: the path is found from the root down. */
  method WalkDown(index: nat, size: nat) returns (wentLeft: seq<bool>)
    requires index < size < U64
    ensures wentLeft == Turns(index, size)
  {
    hide *;
    wentLeft := [];
    var idx, len := index, size;
    while len > 1
      invariant 0 <= idx < len <= size
      invariant wentLeft + Turns(idx, len) == Turns(index, size)
      decreases len
    {
      var k := SplitPoint(len);
      TakeTurn(wentLeft, idx, len);
      wentLeft := wentLeft + [idx < k];
      if idx < k {
        len := k;
      } else {
        idx, len := idx - k, len - k;
      }
    }
    NoTurns(wentLeft);
  }

  method VerifyInclusion(h: Hash, leaf: LeafHash, index: nat, size: nat, proof: seq<Digest>, expected: Digest)
    returns (ok: bool)
    requires size < U64
    ensures ok == Included(h, leaf, index, size, proof, expected)
  {
    hide Turns, PathRoot, NodeHash;
    if index >= size {
      return false;
    }
    var wentLeft := WalkDown(index, size);
    ClimbIsPathRoot(h, leaf, index, size, proof);
    if |wentLeft| != |proof| {
      return false;
    }
    var hash := leaf;
    for i := 0 to |proof|
      invariant hash == Climb(h, leaf, wentLeft, proof, i)
    {
      hash := if wentLeft[|wentLeft| - 1 - i] then NodeHash(h, hash, proof[i]) else NodeHash(h, proof[i], hash);
    }
    ok := hash == expected;
  }

  /** Every leaf proves its own place. */
  lemma {:induction false} InclusionIsComplete(h: Hash, leaves: seq<LeafHash>, index: nat)
    requires index < |leaves|
    ensures Included(h, leaves[index], index, |leaves|, InclusionProof(h, leaves, index), Root(h, leaves))
    decreases |leaves|
  {
    hide Split, SplitFrom;
    if |leaves| > 1 {
      var k := Split(|leaves|);
      var proof := BuildProof(h, leaves, index);
      RootParts(h, leaves);
      hide Root, NodeHash;
      if index < k {
        InclusionIsComplete(h, leaves[..k], index);
        assert proof[..|proof| - 1] == BuildProof(h, leaves[..k], index);
      } else {
        InclusionIsComplete(h, leaves[k..], index - k);
        assert proof[..|proof| - 1] == BuildProof(h, leaves[k..], index - k);
      }
    }
  }

  /** A path that verifies at the tree's own size proves the leaf that is
      there, and no other. */
  lemma {:induction false} InclusionIsSound(h: Hash, leaf: LeafHash, index: nat, proof: seq<Digest>,
                                            leaves: seq<LeafHash>, s: set<Bytes>)
    requires index < |leaves|
    requires Included(h, leaf, index, |leaves|, proof, Root(h, leaves))
    requires PathStrings(h, leaf, index, |leaves|, proof) <= s && TreeStrings(h, leaves) <= s
    requires Injective(h, s)
    ensures leaf == leaves[index]
    decreases |leaves|
  {
    hide Root, TreeStrings, Split, Injective, NodeHash, NodeString;
    if |leaves| == 1 {
      RootOfOne(h, leaves);
    } else {
      var k := Split(|leaves|);
      TreeParts(h, leaves, s);
      var sibling, below := proof[|proof| - 1], proof[..|proof| - 1];
      var l, r := Root(h, leaves[..k]), Root(h, leaves[k..]);
      if index < k {
        var left := PathRoot(h, leaf, index, k, below).value;
        NodesBind(h, left, sibling, l, r, s);
        InclusionIsSound(h, leaf, index, below, leaves[..k], s);
      } else {
        var right := PathRoot(h, leaf, index - k, |leaves| - k, below).value;
        NodesBind(h, sibling, right, l, r, s);
        InclusionIsSound(h, leaf, index - k, below, leaves[k..], s);
      }
    }
  }

  // ── Consistency ────────────────────────────────────────────────────────

  function Subproof(h: Hash, m: nat, leaves: seq<LeafHash>, complete: bool): seq<Digest>
    requires 0 < m <= |leaves|
    decreases |leaves|
  {
    if m == |leaves| then (if complete then [] else [Root(h, leaves)])
    else
      var k := Split(|leaves|);
      if m <= k then Subproof(h, m, leaves[..k], complete) + [Root(h, leaves[k..])]
      else Subproof(h, m - k, leaves[k..], false) + [Root(h, leaves[..k])]
  }

  function ConsistencyProof(h: Hash, leaves: seq<LeafHash>, oldSize: nat): seq<Digest> {
    if oldSize == 0 || oldSize > |leaves| then [] else Subproof(h, oldSize, leaves, true)
  }

  /** The two roots a proof rebuilds, and how much of the proof was consumed. */
  datatype Rebuilt = Rebuilt(prior: Digest, grown: Digest, fed: nat)

  function Rebuild(h: Hash, m: nat, n: nat, proof: seq<Digest>, fed: nat, complete: bool, oldRoot: Digest)
    : Option<Rebuilt>
    requires 0 < m <= n
    decreases n
  {
    if m == n then
      if complete then Some(Rebuilt(oldRoot, oldRoot, fed))
      else if fed < |proof| then Some(Rebuilt(proof[fed], proof[fed], fed + 1))
      else None
    else
      var k := Split(n);
      if m <= k then
        match Rebuild(h, m, k, proof, fed, complete, oldRoot)
        case None => None
        case Some(b) =>
          if b.fed < |proof| then Some(Rebuilt(b.prior, NodeHash(h, b.grown, proof[b.fed]), b.fed + 1)) else None
      else
        match Rebuild(h, m - k, n - k, proof, fed, false, oldRoot)
        case None => None
        case Some(b) =>
          if b.fed < |proof| then
            Some(Rebuilt(NodeHash(h, proof[b.fed], b.prior), NodeHash(h, proof[b.fed], b.grown), b.fed + 1))
          else None
  }

  predicate Consistent(h: Hash, oldSize: nat, oldRoot: Digest, newSize: nat, newRoot: Digest, proof: seq<Digest>) {
    if oldSize > newSize then false
    else if oldSize == 0 then proof == [] && oldRoot == h([])
    else if oldSize == newSize then proof == [] && oldRoot == newRoot
    else Rebuild(h, oldSize, newSize, proof, 0, true, oldRoot) == Some(Rebuilt(oldRoot, newRoot, |proof|))
  }

  /** Every string hashed while a consistency proof is rebuilt. */
  ghost function RebuildStrings(h: Hash, m: nat, n: nat, proof: seq<Digest>, fed: nat, complete: bool, oldRoot: Digest)
    : set<Bytes>
    requires 0 < m <= n
    decreases n
  {
    if m == n then {}
    else
      var k := Split(n);
      if m <= k then
        RebuildStrings(h, m, k, proof, fed, complete, oldRoot) +
        (match Rebuild(h, m, k, proof, fed, complete, oldRoot)
         case None => {}
         case Some(b) => if b.fed < |proof| then {NodeString(b.grown, proof[b.fed])} else {})
      else
        RebuildStrings(h, m - k, n - k, proof, fed, false, oldRoot) +
        (match Rebuild(h, m - k, n - k, proof, fed, false, oldRoot)
         case None => {}
         case Some(b) =>
           if b.fed < |proof| then {NodeString(proof[b.fed], b.prior), NodeString(proof[b.fed], b.grown)} else {})
  }

  /** `sub` is what the proof holds from `fed` on. */
  ghost predicate Fed(proof: seq<Digest>, fed: nat, sub: seq<Digest>) {
    fed + |sub| <= |proof| && proof[fed..fed + |sub|] == sub
  }

  lemma FedLast(proof: seq<Digest>, fed: nat, sub: seq<Digest>, last: Digest)
    requires Fed(proof, fed, sub + [last])
    ensures Fed(proof, fed, sub) && fed + |sub| < |proof| && proof[fed + |sub|] == last
  {
    var all := proof[fed..fed + |sub| + 1];
    assert all[..|sub|] == sub && all[|sub|] == last;
    assert all[..|sub|] == proof[fed..fed + |sub|];
  }

  /** One level of a consistency proof that descends to the left. */
  lemma SubproofLeft(h: Hash, m: nat, leaves: seq<LeafHash>, complete: bool)
    requires 1 < |leaves| && 0 < m <= Split(|leaves|)
    ensures var k := Split(|leaves|);
            Subproof(h, m, leaves, complete) == Subproof(h, m, leaves[..k], complete) + [Root(h, leaves[k..])]
  {
  }

  /** One level of a consistency proof that descends to the right. */
  lemma SubproofRight(h: Hash, m: nat, leaves: seq<LeafHash>, complete: bool)
    requires 1 < |leaves| && Split(|leaves|) < m < |leaves|
    ensures var k := Split(|leaves|);
            Subproof(h, m, leaves, complete) == Subproof(h, m - k, leaves[k..], false) + [Root(h, leaves[..k])]
  {
  }

  /** One level of a rebuild, on the sibling that comes next in the proof. */
  lemma RebuildStep(h: Hash, m: nat, n: nat, proof: seq<Digest>, fed: nat, complete: bool, oldRoot: Digest,
                    below: Rebuilt)
    requires 0 < m < n && below.fed < |proof|
    requires var k := Split(n);
             Some(below) == if m <= k then Rebuild(h, m, k, proof, fed, complete, oldRoot)
                            else Rebuild(h, m - k, n - k, proof, fed, false, oldRoot)
    ensures var sibling := proof[below.fed];
            Rebuild(h, m, n, proof, fed, complete, oldRoot) ==
            Some(if m <= Split(n) then Rebuilt(below.prior, NodeHash(h, below.grown, sibling), below.fed + 1)
                 else Rebuilt(NodeHash(h, sibling, below.prior), NodeHash(h, sibling, below.grown), below.fed + 1))
  {
    hide NodeHash, Split;
  }

  lemma {:induction false} SubproofWhole(h: Hash, leaves: seq<LeafHash>, complete: bool, proof: seq<Digest>, fed: nat,
                                         oldRoot: Digest)
    requires leaves != []
    requires complete ==> oldRoot == Root(h, leaves)
    requires Fed(proof, fed, Subproof(h, |leaves|, leaves, complete))
    ensures Rebuild(h, |leaves|, |leaves|, proof, fed, complete, oldRoot) ==
            Some(Rebuilt(Root(h, leaves), Root(h, leaves), fed + |Subproof(h, |leaves|, leaves, complete)|))
  {
    if !complete {
      assert Subproof(h, |leaves|, leaves, complete) == [] + [Root(h, leaves)];
      FedLast(proof, fed, [], Root(h, leaves));
    }
  }

  lemma {:induction false} SubproofRebuilds(h: Hash, m: nat, leaves: seq<LeafHash>, complete: bool, proof: seq<Digest>,
                                            fed: nat, oldRoot: Digest)
    requires 0 < m <= |leaves|
    requires complete ==> oldRoot == Root(h, leaves[..m])
    requires Fed(proof, fed, Subproof(h, m, leaves, complete))
    ensures Rebuild(h, m, |leaves|, proof, fed, complete, oldRoot) ==
            Some(Rebuilt(Root(h, leaves[..m]), Root(h, leaves), fed + |Subproof(h, m, leaves, complete)|))
    decreases |leaves|
  {
    hide *;
    if m == |leaves| {
      assert leaves[..m] == leaves;
      SubproofWhole(h, leaves, complete, proof, fed, oldRoot);
    } else {
      var k := Split(|leaves|);
      var l, r := leaves[..k], leaves[k..];
      RootParts(h, leaves);
      if m <= k {
        assert l[..m] == leaves[..m];
        var sub := Subproof(h, m, l, complete);
        SubproofLeft(h, m, leaves, complete);
        FedLast(proof, fed, sub, Root(h, r));
        SubproofRebuilds(h, m, l, complete, proof, fed, oldRoot);
        RebuildStep(h, m, |leaves|, proof, fed, complete, oldRoot,
                    Rebuilt(Root(h, leaves[..m]), Root(h, l), fed + |sub|));
      } else {
        var sub := Subproof(h, m - k, r, false);
        SubproofRight(h, m, leaves, complete);
        FedLast(proof, fed, sub, Root(h, l));
        SubproofRebuilds(h, m - k, r, false, proof, fed, oldRoot);
        RebuildStep(h, m, |leaves|, proof, fed, complete, oldRoot,
                    Rebuilt(Root(h, r[..m - k]), Root(h, r), fed + |sub|));
        RootOfLongPrefix(h, leaves, m);
      }
    }
  }

  /** A prefix that reaches past the split of the whole splits where the whole
      does. */
  lemma RootOfLongPrefix(h: Hash, leaves: seq<LeafHash>, m: nat)
    requires 1 < |leaves| && Split(|leaves|) < m <= |leaves|
    ensures Split(m) == Split(|leaves|)
    ensures var k := Split(m); Root(h, leaves[..m]) == NodeHash(h, Root(h, leaves[..k]), Root(h, leaves[k..][..m - k]))
  {
    var k := Split(|leaves|);
    SplitFromIsStable(1, m, |leaves|);
    assert leaves[..m][..k] == leaves[..k] && leaves[..m][k..] == leaves[k..][..m - k];
  }

  /** The two ends of the range, where there is nothing to prove. */
  lemma ConsistentAtTheEnds(h: Hash, leaves: seq<LeafHash>, oldSize: nat)
    requires oldSize == 0 || oldSize == |leaves|
    ensures Consistent(h, oldSize, Root(h, leaves[..oldSize]), |leaves|, Root(h, leaves),
                       ConsistencyProof(h, leaves, oldSize))
  {
    hide Rebuild;
    if oldSize > 0 {
      hide Root;
      assert leaves[..oldSize] == leaves;
    }
  }

  lemma ConsistentWhenRebuilt(h: Hash, m: nat, oldRoot: Digest, leaves: seq<LeafHash>, newRoot: Digest)
    requires 0 < m < |leaves|
    requires var proof := Subproof(h, m, leaves, true);
             Rebuild(h, m, |leaves|, proof, 0, true, oldRoot) == Some(Rebuilt(oldRoot, newRoot, |proof|))
    ensures Consistent(h, m, oldRoot, |leaves|, newRoot, ConsistencyProof(h, leaves, m))
  {
    hide Rebuild, Subproof;
  }

  /** Every earlier size of a log proves that the log only grew. */
  lemma {:induction false} ConsistencyIsComplete(h: Hash, leaves: seq<LeafHash>, oldSize: nat)
    requires oldSize <= |leaves|
    ensures Consistent(h, oldSize, Root(h, leaves[..oldSize]), |leaves|, Root(h, leaves),
                       ConsistencyProof(h, leaves, oldSize))
  {
    hide Consistent, Rebuild, Root, Subproof, ConsistencyProof;
    if oldSize == 0 || oldSize == |leaves| {
      ConsistentAtTheEnds(h, leaves, oldSize);
    } else {
      var proof := Subproof(h, oldSize, leaves, true);
      assert proof[0..|proof|] == proof;
      SubproofRebuilds(h, oldSize, leaves, true, proof, 0, Root(h, leaves[..oldSize]));
      ConsistentWhenRebuilt(h, oldSize, Root(h, leaves[..oldSize]), leaves, Root(h, leaves));
    }
  }

  /** One level of a rebuild that descends to the left. */
  lemma RebuildLeft(h: Hash, m: nat, n: nat, proof: seq<Digest>, fed: nat, complete: bool, oldRoot: Digest, b: Rebuilt)
    returns (below: Rebuilt)
    requires 1 < n && 0 < m <= Split(n)
    requires Rebuild(h, m, n, proof, fed, complete, oldRoot) == Some(b)
    ensures Rebuild(h, m, Split(n), proof, fed, complete, oldRoot) == Some(below)
    ensures below.fed < |proof| && below.prior == b.prior
    ensures b.grown == NodeHash(h, below.grown, proof[below.fed])
    ensures var strings := RebuildStrings(h, m, n, proof, fed, complete, oldRoot);
            RebuildStrings(h, m, Split(n), proof, fed, complete, oldRoot) <= strings &&
            NodeString(below.grown, proof[below.fed]) in strings
  {
    below := Rebuild(h, m, Split(n), proof, fed, complete, oldRoot).value;
  }

  /** One level of a rebuild that descends to the right. */
  lemma RebuildRight(h: Hash, m: nat, n: nat, proof: seq<Digest>, fed: nat, complete: bool, oldRoot: Digest, b: Rebuilt)
    returns (below: Rebuilt)
    requires 1 < n && Split(n) < m < n
    requires Rebuild(h, m, n, proof, fed, complete, oldRoot) == Some(b)
    ensures Rebuild(h, m - Split(n), n - Split(n), proof, fed, false, oldRoot) == Some(below)
    ensures below.fed < |proof|
    ensures b.prior == NodeHash(h, proof[below.fed], below.prior)
    ensures b.grown == NodeHash(h, proof[below.fed], below.grown)
    ensures var strings := RebuildStrings(h, m, n, proof, fed, complete, oldRoot);
            RebuildStrings(h, m - Split(n), n - Split(n), proof, fed, false, oldRoot) <= strings &&
            NodeString(proof[below.fed], below.prior) in strings && NodeString(proof[below.fed], below.grown) in strings
  {
    below := Rebuild(h, m - Split(n), n - Split(n), proof, fed, false, oldRoot).value;
  }

  lemma RebuildBindsWhole(h: Hash, n: nat, proof: seq<Digest>, fed: nat, complete: bool, oldRoot: Digest, b: Rebuilt)
    requires 0 < n && Rebuild(h, n, n, proof, fed, complete, oldRoot) == Some(b)
    ensures b.prior == b.grown
  {
  }

  lemma {:induction false} RebuildBinds(h: Hash, prior: seq<LeafHash>, leaves: seq<LeafHash>, proof: seq<Digest>,
                                        fed: nat, complete: bool, oldRoot: Digest, b: Rebuilt, s: set<Bytes>)
    requires 0 < |prior| <= |leaves|
    requires Rebuild(h, |prior|, |leaves|, proof, fed, complete, oldRoot) == Some(b)
    requires b.prior == Root(h, prior) && b.grown == Root(h, leaves)
    requires RebuildStrings(h, |prior|, |leaves|, proof, fed, complete, oldRoot) <= s
    requires TreeStrings(h, prior) <= s && TreeStrings(h, leaves) <= s && Injective(h, s)
    ensures prior == leaves[..|prior|]
    decreases |leaves|
  {
    hide *;
    var m, n := |prior|, |leaves|;
    if m == n {
      RebuildBindsWhole(h, n, proof, fed, complete, oldRoot, b);
      RootBinds(h, prior, leaves, s);
      assert leaves[..m] == leaves;
    } else {
      var k := Split(n);
      var l, r := leaves[..k], leaves[k..];
      TreeParts(h, leaves, s);
      if m <= k {
        var below := RebuildLeft(h, m, n, proof, fed, complete, oldRoot, b);
        NodesBind(h, below.grown, proof[below.fed], Root(h, l), Root(h, r), s);
        RebuildBinds(h, prior, l, proof, fed, complete, oldRoot, below, s);
        assert l[..m] == leaves[..m];
      } else {
        var below := RebuildRight(h, m, n, proof, fed, complete, oldRoot, b);
        RootOfLongPrefix(h, leaves, m);
        TreeParts(h, prior, s);
        NodesBind(h, proof[below.fed], below.grown, Root(h, l), Root(h, r), s);
        NodesBind(h, proof[below.fed], below.prior, Root(h, prior[..k]), Root(h, prior[k..]), s);
        RebuildBinds(h, prior[k..], r, proof, fed, false, oldRoot, below, s);
        RootBinds(h, prior[..k], l, s);
        assert prior == prior[..k] + prior[k..] && leaves[..m] == l + r[..m - k];
      }
    }
  }

  /** A consistency proof that verifies proves the prior log is a prefix of the
      new one: growth, never a removal or a replacement. */
  lemma {:induction false} ConsistencyIsSound(h: Hash, prior: seq<LeafHash>, leaves: seq<LeafHash>, proof: seq<Digest>,
                                              s: set<Bytes>)
    requires Consistent(h, |prior|, Root(h, prior), |leaves|, Root(h, leaves), proof)
    requires TreeStrings(h, prior) <= s && TreeStrings(h, leaves) <= s && Injective(h, s)
    requires 0 < |prior| <= |leaves| ==> RebuildStrings(h, |prior|, |leaves|, proof, 0, true, Root(h, prior)) <= s
    ensures |prior| <= |leaves| && prior == leaves[..|prior|]
  {
    if 0 < |prior| {
      if |prior| == |leaves| {
        RootBinds(h, prior, leaves, s);
      } else {
        RebuildBinds(h, prior, leaves, proof, 0, true, Root(h, prior),
            Rebuilt(Root(h, prior), Root(h, leaves), |proof|), s);
      }
    }
  }

  // ── Paths and growth together, with no leaves in sight ─────────────────

  /** Two paths to one root at one size and index end at one leaf. */
  lemma {:induction false} PathsBind(h: Hash, a: LeafHash, b: LeafHash, index: nat, size: nat, pa: seq<Digest>,
                                     pb: seq<Digest>, root: Digest, s: set<Bytes>)
    requires Included(h, a, index, size, pa, root) && Included(h, b, index, size, pb, root)
    requires PathStrings(h, a, index, size, pa) <= s && PathStrings(h, b, index, size, pb) <= s && Injective(h, s)
    ensures a == b
    decreases size
  {
    hide Split, Injective, NodeHash, NodeString;
    if size > 1 {
      var k := Split(size);
      var sa, la, sb, lb := pa[|pa| - 1], pa[..|pa| - 1], pb[|pb| - 1], pb[..|pb| - 1];
      if index < k {
        var x, y := PathRoot(h, a, index, k, la).value, PathRoot(h, b, index, k, lb).value;
        NodesBind(h, x, sa, y, sb, s);
        PathsBind(h, a, b, index, k, la, lb, x, s);
      } else {
        var x, y := PathRoot(h, a, index - k, size - k, la).value, PathRoot(h, b, index - k, size - k, lb).value;
        NodesBind(h, sa, x, sb, y, s);
        PathsBind(h, a, b, index - k, size - k, la, lb, x, s);
      }
    }
  }

  /** One level of a path, from the root. */
  lemma PathLevel(h: Hash, leaf: LeafHash, index: nat, size: nat, below: seq<Digest>, sibling: Digest)
    requires index < size && size > 1
    ensures var k := Split(size);
            if index < k then
              PathRoot(h, leaf, index, size, below + [sibling]) ==
                (match PathRoot(h, leaf, index, k, below)
                 case Some(left) => Some(NodeHash(h, left, sibling)) case None => None) &&
              PathStrings(h, leaf, index, size, below + [sibling]) ==
                PathStrings(h, leaf, index, k, below) +
                (match PathRoot(h, leaf, index, k, below)
                 case Some(left) => {NodeString(left, sibling)} case None => {})
            else
              PathRoot(h, leaf, index, size, below + [sibling]) ==
                (match PathRoot(h, leaf, index - k, size - k, below)
                 case Some(right) => Some(NodeHash(h, sibling, right)) case None => None) &&
              PathStrings(h, leaf, index, size, below + [sibling]) ==
                PathStrings(h, leaf, index - k, size - k, below) +
                (match PathRoot(h, leaf, index - k, size - k, below)
                 case Some(right) => {NodeString(sibling, right)} case None => {})
  {
    assert (below + [sibling])[..|below + [sibling]| - 1] == below;
  }

  /** A path to the grown root, cut back along a consistency proof: a leaf below
      the older size has a path to the older root too, or the strings hashed
      hold a collision. */
  lemma {:induction false} PathShrinks(h: Hash, leaf: LeafHash, index: nat, n: nat, path: seq<Digest>, m: nat,
                                       proof: seq<Digest>, fed: nat, complete: bool, oldRoot: Digest, b: Rebuilt,
                                       s: set<Bytes>)
    returns (short: seq<Digest>)
    requires index < m <= n && Included(h, leaf, index, n, path, b.grown)
    requires Rebuild(h, m, n, proof, fed, complete, oldRoot) == Some(b)
    requires PathStrings(h, leaf, index, n, path) <= s
    requires RebuildStrings(h, m, n, proof, fed, complete, oldRoot) <= s && Injective(h, s)
    ensures Included(h, leaf, index, m, short, b.prior) && PathStrings(h, leaf, index, m, short) <= s
    decreases n
  {
    hide Split, Injective, NodeHash, NodeString, Rebuild, RebuildStrings, PathRoot, PathStrings;
    if m == n {
      RebuildBindsWhole(h, n, proof, fed, complete, oldRoot, b);
      short := path;
    } else {
      var k := Split(n);
      PathIsLong(h, leaf, index, n, path);
      var sibling, up := path[|path| - 1], path[..|path| - 1];
      assert path == up + [sibling];
      PathLevel(h, leaf, index, n, up, sibling);
      if m <= k {
        var below := RebuildLeft(h, m, n, proof, fed, complete, oldRoot, b);
        NodesBind(h, PathRoot(h, leaf, index, k, up).value, sibling, below.grown, proof[below.fed], s);
        short := PathShrinks(h, leaf, index, k, up, m, proof, fed, complete, oldRoot, below, s);
      } else {
        var below := RebuildRight(h, m, n, proof, fed, complete, oldRoot, b);
        SplitsAlike(m, n);
        if index < k {
          NodesBind(h, PathRoot(h, leaf, index, k, up).value, sibling, proof[below.fed], below.grown, s);
          short := up + [below.prior];
          PathLevel(h, leaf, index, m, up, below.prior);
        } else {
          NodesBind(h, sibling, PathRoot(h, leaf, index - k, n - k, up).value, proof[below.fed], below.grown, s);
          var tail := PathShrinks(h, leaf, index - k, n - k, up, m - k, proof, fed, false, oldRoot, below, s);
          short := tail + [sibling];
          PathLevel(h, leaf, index, m, tail, sibling);
        }
      }
    }
  }

  /** A path to the older root, carried forward along a consistency proof: the
      leaf has a path to the grown root too, or a collision. */
  lemma {:induction false} PathGrows(h: Hash, leaf: LeafHash, index: nat, m: nat, path: seq<Digest>, n: nat,
                                     proof: seq<Digest>, fed: nat, complete: bool, oldRoot: Digest, b: Rebuilt,
                                     s: set<Bytes>)
    returns (long: seq<Digest>)
    requires index < m <= n && Included(h, leaf, index, m, path, b.prior)
    requires Rebuild(h, m, n, proof, fed, complete, oldRoot) == Some(b)
    requires PathStrings(h, leaf, index, m, path) <= s
    requires RebuildStrings(h, m, n, proof, fed, complete, oldRoot) <= s && Injective(h, s)
    ensures Included(h, leaf, index, n, long, b.grown) && PathStrings(h, leaf, index, n, long) <= s
    decreases n
  {
    hide Split, Injective, NodeHash, NodeString, Rebuild, RebuildStrings, PathRoot, PathStrings;
    if m == n {
      RebuildBindsWhole(h, n, proof, fed, complete, oldRoot, b);
      long := path;
    } else {
      var k := Split(n);
      if m <= k {
        var below := RebuildLeft(h, m, n, proof, fed, complete, oldRoot, b);
        var front := PathGrows(h, leaf, index, m, path, k, proof, fed, complete, oldRoot, below, s);
        long := front + [proof[below.fed]];
        PathLevel(h, leaf, index, n, front, proof[below.fed]);
      } else {
        var below := RebuildRight(h, m, n, proof, fed, complete, oldRoot, b);
        SplitsAlike(m, n);
        PathIsLong(h, leaf, index, m, path);
        var sibling, up := path[|path| - 1], path[..|path| - 1];
        assert path == up + [sibling];
        PathLevel(h, leaf, index, m, up, sibling);
        if index < k {
          NodesBind(h, PathRoot(h, leaf, index, k, up).value, sibling, proof[below.fed], below.prior, s);
          long := up + [below.grown];
          PathLevel(h, leaf, index, n, up, below.grown);
        } else {
          NodesBind(h, sibling, PathRoot(h, leaf, index - k, m - k, up).value, proof[below.fed], below.prior, s);
          var tail := PathGrows(h, leaf, index - k, m - k, up, n - k, proof, fed, false, oldRoot, below, s);
          long := tail + [sibling];
          PathLevel(h, leaf, index, n, tail, sibling);
        }
      }
    }
  }

  lemma PathIsLong(h: Hash, leaf: LeafHash, index: nat, size: nat, path: seq<Digest>)
    requires size > 1 && index < size && PathRoot(h, leaf, index, size, path).Some?
    ensures path != []
  {
  }

  lemma SplitsAlike(m: nat, n: nat)
    requires 1 < n && Split(n) < m <= n
    ensures Split(m) == Split(n)
  {
    SplitFromIsStable(1, m, n);
  }

  /** Every string hashed while growth from one checkpoint to another is checked. */
  ghost function GrowthStrings(h: Hash, m: nat, old_: Digest, n: nat, proof: seq<Digest>): set<Bytes> {
    if 0 < m < n then RebuildStrings(h, m, n, proof, 0, true, old_) else {}
  }

  /** A leaf proved under a root is proved under every root proved to extend it. */
  lemma {:induction false} PathUnderNewer(h: Hash, leaf: LeafHash, index: nat, m: nat, path: seq<Digest>, old_: Digest,
                                          n: nat, root: Digest, proof: seq<Digest>, s: set<Bytes>)
    returns (long: seq<Digest>)
    requires Included(h, leaf, index, m, path, old_) && Consistent(h, m, old_, n, root, proof)
    requires PathStrings(h, leaf, index, m, path) <= s && GrowthStrings(h, m, old_, n, proof) <= s && Injective(h, s)
    ensures Included(h, leaf, index, n, long, root) && PathStrings(h, leaf, index, n, long) <= s
  {
    hide PathStrings, RebuildStrings, Rebuild, Injective;
    if m == n {
      long := path;
    } else {
      long := PathGrows(h, leaf, index, m, path, n, proof, 0, true, old_, Rebuilt(old_, root, |proof|), s);
    }
  }

  /** A leaf proved under a root that was proved to extend an older one, and
      below the older size, is proved under the older root. */
  lemma {:induction false} PathUnderOlder(h: Hash, leaf: LeafHash, index: nat, n: nat, path: seq<Digest>, root: Digest,
                                          m: nat, old_: Digest, proof: seq<Digest>, s: set<Bytes>)
    returns (short: seq<Digest>)
    requires index < m && Included(h, leaf, index, n, path, root) && Consistent(h, m, old_, n, root, proof)
    requires PathStrings(h, leaf, index, n, path) <= s && GrowthStrings(h, m, old_, n, proof) <= s && Injective(h, s)
    ensures Included(h, leaf, index, m, short, old_) && PathStrings(h, leaf, index, m, short) <= s
  {
    hide Included, PathStrings, RebuildStrings, Rebuild, Injective;
    if m == n {
      short := path;
    } else {
      short := PathShrinks(h, leaf, index, n, path, m, proof, 0, true, old_, Rebuilt(old_, root, |proof|), s);
    }
  }
}
