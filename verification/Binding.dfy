/** What one outside checkpoint fixes: two files that are sound under it carry
    the same seals at the same positions and, where both carry the records, the
    same bytes.

    Nothing is assumed of the hash but that no two of the strings these two
    files make a reader hash share a digest. */
module Binding {
  import opened Wrappers
  import opened Hashing
  import opened Merkle
  import opened Wire
  import opened VerifySpec
  import opened Blocks
  import opened SoundList
  import opened QuietFiles

  // ── Sorting ────────────────────────────────────────────────────────────

  lemma {:induction false} InsertKeeps(leaves: seq<Leaf>, x: Leaf)
    ensures multiset(Insert(leaves, x)) == multiset(leaves) + multiset{x}
  {
    if leaves != [] && leaves[|leaves| - 1].0 > x.0 {
      var n := |leaves| - 1;
      InsertKeeps(leaves[..n], x);
      assert leaves == leaves[..n] + [leaves[n]];
    }
  }

  /** Sorting moves leaves and neither adds nor drops one. */
  lemma {:induction false} SortedKeeps(leaves: seq<Leaf>)
    ensures multiset(Sorted(leaves)) == multiset(leaves)
    ensures |Sorted(leaves)| == |leaves|
  {
    if leaves != [] {
      var n := |leaves| - 1;
      SortedKeeps(leaves[..n]);
      InsertKeeps(Sorted(leaves[..n]), leaves[n]);
      assert leaves == leaves[..n] + [leaves[n]];
    }
    assert |multiset(Sorted(leaves))| == |multiset(leaves)|;
  }

  ghost predicate InOrder(leaves: seq<Leaf>) {
    forall i, j :: 0 <= i < j < |leaves| ==> leaves[i].0 <= leaves[j].0
  }

  lemma {:induction false} InsertOrders(leaves: seq<Leaf>, x: Leaf)
    requires InOrder(leaves)
    ensures InOrder(Insert(leaves, x))
  {
    if leaves != [] && leaves[|leaves| - 1].0 > x.0 {
      var n := |leaves| - 1;
      var below := Insert(leaves[..n], x);
      InsertOrders(leaves[..n], x);
      InsertKeeps(leaves[..n], x);
      forall i | 0 <= i < |below| ensures below[i].0 <= leaves[n].0 {
        assert below[i] in multiset(below);
        assert below[i] in leaves[..n] || below[i] == x;
      }
    }
  }

  lemma {:induction false} SortedOrders(leaves: seq<Leaf>)
    ensures InOrder(Sorted(leaves))
  {
    if leaves != [] {
      SortedOrders(leaves[..|leaves| - 1]);
      InsertOrders(Sorted(leaves[..|leaves| - 1]), leaves[|leaves| - 1]);
    }
  }

  // ── A sound file ───────────────────────────────────────────────────────

  function FileLeaves(h: Hash, blocks: seq<Block>): seq<Leaf> {
    Sorted(LeavesOf(h, blocks))
  }

  lemma ConcatIsEmpty(a: seq<Finding>, b: seq<Finding>)
    requires a + b == []
    ensures a == [] && b == []
  {
    assert |a + b| == |a| + |b|;
  }

  /** Settlement adds findings, so a sound report had none before it and none
      from any part of it. */
  lemma SettledQuietly(c: Codec, s: Scan, anchors: seq<Anchor>)
    requires Settled(c, s, anchors).findings == []
    ensures s.report.findings == [] && SettleTrailer(s) == [] && SettleCases(s) == []
    ensures s.report.selection.Some? ==> SettlePackage(s, anchors) == []
    ensures s.report.selection.None? ==> SettleWhole(c.hash, s, anchors) == []
  {
    hide SettlePackage, SettleWhole, SettleTrailer, SettleCases;
    var shape := if s.report.selection.Some? then SettlePackage(s, anchors) else SettleWhole(c.hash, s, anchors);
    ConcatIsEmpty(s.report.findings, shape + SettleTrailer(s) + SettleCases(s));
    ConcatIsEmpty(shape + SettleTrailer(s), SettleCases(s));
    ConcatIsEmpty(shape, SettleTrailer(s));
  }

  lemma WholeQuietly(h: Hash, s: Scan, anchors: seq<Anchor>)
    requires SettleWhole(h, s, anchors) == []
    ensures s.headerSeen && CompareAnchors(h, s.report.checkpoint, anchors, Sorted(s.leaves)) == []
    ensures RebuiltTree(h, Sorted(s.leaves), s.report.checkpoint) == []
  {
    hide CompareAnchors, RebuiltTree, When, Sorted;
    var leaves := Sorted(s.leaves);
    var compared := if s.headerSeen then CompareAnchors(h, s.report.checkpoint, anchors, leaves) else [];
    var headed, tree, framed := When(!s.headerSeen, NoHeader), RebuiltTree(h, leaves, s.report.checkpoint),
                                When(!s.report.complete, NoTrailer);
    ConcatIsEmpty(compared + headed + tree, framed);
    ConcatIsEmpty(compared + headed, tree);
    ConcatIsEmpty(compared, headed);
  }

  lemma {:induction false} AnchorsQuietly(h: Hash, header: Checkpoint, anchors: seq<Anchor>, leaves: seq<Leaf>,
                                          a: Anchor)
    requires CompareAnchors(h, header, anchors, leaves) == [] && a in anchors
    ensures CompareAnchor(h, header, a, leaves) == []
  {
    hide CompareAnchor;
    var n := |anchors| - 1;
    ConcatIsEmpty(CompareAnchors(h, header, anchors[..n], leaves), CompareAnchor(h, header, anchors[n], leaves));
    if a != anchors[n] {
      assert a in anchors[..n];
      AnchorsQuietly(h, header, anchors[..n], leaves, a);
    }
  }

  lemma {:induction false} PackageAnchorsQuietly(header: Checkpoint, anchors: seq<Anchor>, a: Anchor)
    requires ComparePackageAnchors(header, anchors) == [] && a in anchors
    ensures ComparePackageAnchor(header, a) == []
  {
    hide ComparePackageAnchor;
    var n := |anchors| - 1;
    ConcatIsEmpty(ComparePackageAnchors(header, anchors[..n]), ComparePackageAnchor(header, anchors[n]));
    if a != anchors[n] {
      assert a in anchors[..n];
      PackageAnchorsQuietly(header, anchors[..n], a);
    }
  }

  /** In a sound file every block that carries records is its run's one
      history, and no two blocks share a run or a position. */
  lemma {:induction false} SoundBlocks(c: Codec, keys: Option<SignatureCheck>, anchors: seq<Anchor>, lines: seq<Line>)
    requires IsSound(Verify(c, keys, anchors, lines))
    ensures var r, blocks := Verify(c, keys, anchors, lines), BlocksOf(lines);
            (forall i :: 0 <= i < |blocks| ==> Fresh(blocks, i)) &&
            (forall i :: 0 <= i < |blocks| && blocks[i].lines != [] ==> OneHistory(c, keys, r, blocks, blocks[i].run, i))
  {
    hide ScanAll, Settled, BlocksOf, PassAt, OneHistory, Stands, Fresh;
    var s := ScanAll(c, keys, lines);
    var r, blocks := Verify(c, keys, anchors, lines), BlocksOf(lines);
    SoundIsSettled(c, keys, anchors, lines);
    ScanAllTracks(c, keys, lines);
    ScanAllIsQuiet(c, keys, lines);
    SettledQuietly(c, s, anchors);
    SettledKeeps(c, s, anchors);
    forall i | 0 <= i < |blocks| ensures Fresh(blocks, i) {
      assert ClosedQuietly(c, keys, s.report, s.closed[i]);
      QuietIsFresh(c, keys, s.report, blocks, i);
    }
    forall i | 0 <= i < |blocks| && blocks[i].lines != [] ensures OneHistory(c, keys, r, blocks, blocks[i].run, i) {
      assert ClosedQuietly(c, keys, s.report, s.closed[i]);
      QuietStands(c, keys, s.report, blocks, i);
      StandsIsLocal(c, keys, s.report, r, s.closed[i]);
      FreshIsOnly(blocks, i);
      StandsMeans(c, keys, r, blocks, blocks[i].run, i);
    }
  }

  lemma {:induction false} SoundIsSettled(c: Codec, keys: Option<SignatureCheck>, anchors: seq<Anchor>,
                                          lines: seq<Line>)
    requires IsSound(Verify(c, keys, anchors, lines))
    ensures var s := ScanAll(c, keys, lines);
            !s.report.unverifiable && Verify(c, keys, anchors, lines) == Settled(c, s, anchors)
  {
    hide ScanAll;
    SettledKeeps(c, ScanAll(c, keys, lines), anchors);
  }

  lemma {:induction false} ScanAllIsQuiet(c: Codec, keys: Option<SignatureCheck>, lines: seq<Line>)
    ensures Quiet(c, keys, ScanAll(c, keys, lines))
  {
    hide Quiet, FinishRun;
    ScannedIsQuiet(c, keys, lines);
    FinishStaysQuiet(c, keys, Scanned(c, keys, Start, lines));
  }

  lemma QuietIsFresh(c: Codec, keys: Option<SignatureCheck>, r: Report, blocks: seq<Block>, i: nat)
    requires i < |blocks| && ClosedQuietly(c, keys, r, PassAt(c, blocks, i))
    ensures Fresh(blocks, i)
  {
  }

  lemma {:induction false} QuietStands(c: Codec, keys: Option<SignatureCheck>, r: Report, blocks: seq<Block>, i: nat)
    requires i < |blocks| && ClosedQuietly(c, keys, r, PassAt(c, blocks, i)) && blocks[i].lines != []
    ensures Stands(c, keys, r, PassAt(c, blocks, i))
  {
    hide ReadBlock, ClosingFindings;
    BlockReads(c, blocks[i]);
  }

  lemma FreshIsOnly(blocks: seq<Block>, i: nat)
    requires i < |blocks| && forall j :: 0 <= j < |blocks| ==> Fresh(blocks, j)
    ensures forall j :: 0 <= j < |blocks| && blocks[j].run == blocks[i].run ==> j == i
    ensures forall j :: 0 <= j < |blocks| && SamePlace(blocks[j], blocks[i]) ==> j == i
  {
    forall j | 0 <= j < |blocks| && j != i
      ensures blocks[j].run != blocks[i].run && !SamePlace(blocks[j], blocks[i])
    {
      assert Fresh(blocks, i) && Fresh(blocks, j);
      assert SamePlace(blocks[j], blocks[i]) == SamePlace(blocks[i], blocks[j]);
    }
  }

  // ── What an outside checkpoint fixes ───────────────────────────────────

  ghost predicate Holds(anchors: seq<Anchor>, cp: Checkpoint) {
    exists a :: a in anchors && a.checkpoint == cp
  }

  ghost predicate SoundUnder(c: Codec, keys: Option<SignatureCheck>, anchors: seq<Anchor>, lines: seq<Line>,
                             cp: Checkpoint) {
    IsSound(Verify(c, keys, anchors, lines)) && Holds(anchors, cp)
  }

  /** The first `size` leaves are the positions below it, and rebuild to `root`. */
  ghost predicate PrefixIs(h: Hash, leaves: seq<Leaf>, size: nat, root: Digest) {
    size <= |leaves| && Contiguous(leaves[..size]) && Root(h, Hashes(leaves[..size])) == root
  }

  lemma {:induction false} SoundPrefix(c: Codec, keys: Option<SignatureCheck>, anchors: seq<Anchor>, lines: seq<Line>,
                                       cp: Checkpoint)
    requires SoundUnder(c, keys, anchors, lines, cp) && Verify(c, keys, anchors, lines).selection.None?
    ensures PrefixIs(c.hash, FileLeaves(c.hash, BlocksOf(lines)), cp.size, cp.root)
    ensures cp.size <= Verify(c, keys, anchors, lines).checkpoint.size
    ensures cp.origin == Verify(c, keys, anchors, lines).checkpoint.origin
  {
    hide ScanAll, Settled, BlocksOf, LeavesOf, PassAt, Sorted, SettleWhole;
    var s := ScanAll(c, keys, lines);
    SoundIsSettled(c, keys, anchors, lines);
    ScanAllTracks(c, keys, lines);
    SettledQuietly(c, s, anchors);
    SettledKeeps(c, s, anchors);
    WholeQuietly(c.hash, s, anchors);
    var leaves := Sorted(s.leaves);
    var a :| a in anchors && a.checkpoint == cp;
    AnchorsQuietly(c.hash, s.report.checkpoint, anchors, leaves, a);
    AnchorFixes(c.hash, s.report.checkpoint, a, leaves);
  }

  lemma {:induction false} AnchorFixes(h: Hash, header: Checkpoint, a: Anchor, leaves: seq<Leaf>)
    requires RebuiltTree(h, leaves, header) == [] && CompareAnchor(h, header, a, leaves) == []
    ensures a.checkpoint.origin == header.origin && a.checkpoint.size <= header.size
    ensures PrefixIs(h, leaves, a.checkpoint.size, a.checkpoint.root)
  {
    hide Root, Hashes;
    if a.checkpoint.size == header.size {
      assert leaves[..header.size] == leaves;
    }
  }

  // ── The strings a file makes its reader hash ───────────────────────────

  ghost function AllChainStrings(h: Hash, blocks: seq<Block>): set<Bytes> {
    if blocks == [] then {}
    else AllChainStrings(h, blocks[..|blocks| - 1]) + ChainStrings(h, CarriedRaws(blocks[|blocks| - 1].lines))
  }

  ghost function LeafStrings(blocks: seq<Block>): set<Bytes> {
    set b | b in blocks && Placed(b.header).Some? :: LeafString(Placed(b.header).value.1)
  }

  /** Everything hashed while a whole file is read and its first `size` leaves
      are rebuilt. */
  ghost function HashedBy(h: Hash, lines: seq<Line>, size: nat): set<Bytes> {
    var blocks := BlocksOf(lines);
    var leaves := FileLeaves(h, blocks);
    AllChainStrings(h, blocks) + LeafStrings(blocks) +
    (if size <= |leaves| then TreeStrings(h, Hashes(leaves[..size])) else {})
  }

  lemma {:induction false} BlockStrings(h: Hash, blocks: seq<Block>, i: nat)
    requires i < |blocks|
    ensures ChainStrings(h, CarriedRaws(blocks[i].lines)) <= AllChainStrings(h, blocks)
    ensures Placed(blocks[i].header).Some? ==> LeafString(Placed(blocks[i].header).value.1) in LeafStrings(blocks)
  {
    hide ChainStrings, CarriedRaws, LeafString;
    assert blocks[i] in blocks;
    if i < |blocks| - 1 {
      BlockStrings(h, blocks[..|blocks| - 1], i);
    }
  }

  /** A placed block's leaf is where it says it is. */
  lemma LeafIsThere(h: Hash, blocks: seq<Block>, i: nat, size: nat)
    requires i < |blocks| && Placed(blocks[i].header).Some?
    requires var at := Placed(blocks[i].header).value; at.0 < size
    requires size <= |FileLeaves(h, blocks)| && Contiguous(FileLeaves(h, blocks)[..size])
    requires forall k :: 0 <= k < |blocks| ==> Fresh(blocks, k)
    ensures var at := Placed(blocks[i].header).value;
            Hashes(FileLeaves(h, blocks)[..size])[at.0] == LeafHashOf(h, at.1)
  {
    var at := Placed(blocks[i].header).value;
    var leaves := FileLeaves(h, blocks);
    assert leaves[..size][at.0] == leaves[at.0] && leaves[at.0].0 == at.0;
    SortedKeeps(LeavesOf(h, blocks));
    assert leaves[at.0] in multiset(leaves);
    assert leaves[at.0] in LeavesOf(h, blocks);
    var j := LeafHasABlock(h, blocks, leaves[at.0]);
    FreshIsOnly(blocks, i);
    assert SamePlace(blocks[j], blocks[i]);
  }

  lemma {:induction false} LeafHasABlock(h: Hash, blocks: seq<Block>, x: Leaf) returns (j: nat)
    requires x in LeavesOf(h, blocks)
    ensures j < |blocks| && Placed(blocks[j].header).Some?
    ensures var at := Placed(blocks[j].header).value; x == (at.0, LeafHashOf(h, at.1))
  {
    var n := |blocks| - 1;
    if x in LeavesOf(h, blocks[..n]) {
      j := LeafHasABlock(h, blocks[..n], x);
    } else {
      j := n;
    }
  }

  lemma LeavesBind(h: Hash, a: Digest, b: Digest, s: set<Bytes>)
    requires LeafHashOf(h, a) == LeafHashOf(h, b)
    requires LeafString(a) in s && LeafString(b) in s && Injective(h, s)
    ensures a == b
  {
    assert LeafString(a)[1..] == a.bytes && LeafString(b)[1..] == b.bytes;
  }

  // ── One seal, one history ──────────────────────────────────────────────

  /** Two blocks hold the same records: the same bytes under the same run. */
  ghost predicate SameRecords(a: Block, b: Block) {
    a.run == b.run && CarriedRaws(a.lines) == CarriedRaws(b.lines) && |a.lines| == |b.lines|
  }

  /** Two histories with one terminal hash are one history.  The sequence
      number inside the last record's bytes fixes the length, so no property of
      the zero digest is needed. */
  lemma {:induction false} OneHeadOneHistory(c: Codec, a: Block, b: Block, s: set<Bytes>)
    requires a.lines != [] && b.lines != []
    requires Recomputes(c, a.run, a.lines) && Recomputes(c, b.run, b.lines)
    requires Head(c.hash, CarriedRaws(a.lines)) == Head(c.hash, CarriedRaws(b.lines))
    requires ChainStrings(c.hash, CarriedRaws(a.lines)) <= s && ChainStrings(c.hash, CarriedRaws(b.lines)) <= s
    requires Injective(c.hash, s)
    ensures SameRecords(a, b)
  {
    hide Head, ChainStrings, Injective, Uncanonical;
    var m, n := |a.lines|, |b.lines|;
    assert LineHolds(c, a.run, a.lines, m - 1) && LineHolds(c, b.run, b.lines, n - 1);
    forall i | 0 <= i < m ensures Carries(a.lines[i]) { assert LineHolds(c, a.run, a.lines, i); }
    forall i | 0 <= i < n ensures Carries(b.lines[i]) { assert LineHolds(c, b.run, b.lines, i); }
    CarriedLength(a.lines);
    CarriedLength(b.lines);
    LastLinkBinds(c.hash, CarriedRaws(a.lines), CarriedRaws(b.lines), s);
    assert a.lines[m - 1].raw == Some(CarriedRaws(a.lines)[m - 1]);
    assert b.lines[n - 1].raw == Some(CarriedRaws(b.lines)[n - 1]);
    ChainBinds(c.hash, CarriedRaws(a.lines), CarriedRaws(b.lines), s);
  }

  /** Two blocks at one position agree: one seal, and one history where both
      carry records. */
  ghost predicate Agree(a: Block, b: Block) {
    Placed(a.header).Some? && Placed(b.header).Some? &&
    Placed(a.header).value == Placed(b.header).value &&
    (a.lines != [] && b.lines != [] ==> SameRecords(a, b))
  }

  lemma {:induction false} SealsAgree(c: Codec, keysA: Option<SignatureCheck>, ra: Report, as_: seq<Block>, i: nat,
                                      keysB: Option<SignatureCheck>, rb: Report, bs: seq<Block>, j: nat, s: set<Bytes>)
    requires i < |as_| && j < |bs| && SamePlace(as_[i], bs[j])
    requires Placed(as_[i].header).value.1 == Placed(bs[j].header).value.1
    requires as_[i].lines != [] ==> OneHistory(c, keysA, ra, as_, as_[i].run, i)
    requires bs[j].lines != [] ==> OneHistory(c, keysB, rb, bs, bs[j].run, j)
    requires AllChainStrings(c.hash, as_) <= s && AllChainStrings(c.hash, bs) <= s && Injective(c.hash, s)
    ensures Agree(as_[i], bs[j])
  {
    hide Recomputes, Recomputed, Head, ChainStrings, CarriedRaws, ReadBlock, LeafIsProved, SignedHistory, Injective;
    if as_[i].lines != [] && bs[j].lines != [] {
      BlockStrings(c.hash, as_, i);
      BlockStrings(c.hash, bs, j);
      OneHeadOneHistory(c, as_[i], bs[j], s);
    }
  }

  /** Two whole exports that are sound, each held to any anchors that include
      `cp`, agree at every position `cp` commits to: they carry the same seal
      there, and wherever both carry the records, the same run and the same
      bytes. */
  lemma {:induction false} Binding(c: Codec, keysA: Option<SignatureCheck>, anchorsA: seq<Anchor>, a: seq<Line>,
                                   keysB: Option<SignatureCheck>, anchorsB: seq<Anchor>, b: seq<Line>, cp: Checkpoint)
    requires SoundUnder(c, keysA, anchorsA, a, cp) && Verify(c, keysA, anchorsA, a).selection.None?
    requires SoundUnder(c, keysB, anchorsB, b, cp) && Verify(c, keysB, anchorsB, b).selection.None?
    requires Injective(c.hash, HashedBy(c.hash, a, cp.size) + HashedBy(c.hash, b, cp.size))
    ensures forall i, j | 0 <= i < |BlocksOf(a)| && 0 <= j < |BlocksOf(b)| ::
              SamePlace(BlocksOf(a)[i], BlocksOf(b)[j]) && Placed(BlocksOf(a)[i].header).value.0 < cp.size ==>
              Agree(BlocksOf(a)[i], BlocksOf(b)[j])
    ensures forall p :: 0 <= p < cp.size ==> HoldsPosition(BlocksOf(a), p) && HoldsPosition(BlocksOf(b), p)
  {
    hide Verify, BlocksOf, OneHistory, Root, TreeStrings, AllChainStrings, LeafStrings, Injective, FileLeaves, Agree,
         Fresh, Contiguous;
    var as_, bs := BlocksOf(a), BlocksOf(b);
    var s := HashedBy(c.hash, a, cp.size) + HashedBy(c.hash, b, cp.size);
    SoundPrefix(c, keysA, anchorsA, a, cp);
    SoundPrefix(c, keysB, anchorsB, b, cp);
    SoundBlocks(c, keysA, anchorsA, a);
    SoundBlocks(c, keysB, anchorsB, b);
    var la, lb := FileLeaves(c.hash, as_)[..cp.size], FileLeaves(c.hash, bs)[..cp.size];
    RootBinds(c.hash, Hashes(la), Hashes(lb), s);
    forall i, j | 0 <= i < |as_| && 0 <= j < |bs| && SamePlace(as_[i], bs[j]) && Placed(as_[i].header).value.0 < cp.size
      ensures Agree(as_[i], bs[j])
    {
      LeafIsThere(c.hash, as_, i, cp.size);
      LeafIsThere(c.hash, bs, j, cp.size);
      BlockStrings(c.hash, as_, i);
      BlockStrings(c.hash, bs, j);
      LeavesBind(c.hash, Placed(as_[i].header).value.1, Placed(bs[j].header).value.1, s);
      SealsAgree(c, keysA, Verify(c, keysA, anchorsA, a), as_, i, keysB, Verify(c, keysB, anchorsB, b), bs, j, s);
    }
    forall p | 0 <= p < cp.size ensures HoldsPosition(as_, p) && HoldsPosition(bs, p) {
      PositionIsHeld(c.hash, as_, cp.size, p);
      PositionIsHeld(c.hash, bs, cp.size, p);
    }
  }

  ghost predicate HoldsPosition(blocks: seq<Block>, p: nat) {
    exists i :: 0 <= i < |blocks| && Placed(blocks[i].header).Some? && Placed(blocks[i].header).value.0 == p
  }

  lemma PositionIsHeld(h: Hash, blocks: seq<Block>, size: nat, p: nat)
    requires p < size <= |FileLeaves(h, blocks)| && Contiguous(FileLeaves(h, blocks)[..size])
    ensures HoldsPosition(blocks, p)
  {
    var leaves := FileLeaves(h, blocks);
    assert leaves[..size][p] == leaves[p] && leaves[p].0 == p;
    SortedKeeps(LeavesOf(h, blocks));
    assert leaves[p] in multiset(leaves);
    var j := LeafHasABlock(h, blocks, leaves[p]);
  }

  // ── Packages ───────────────────────────────────────────────────────────

  /** Everything hashed while the paths of a package are folded. */
  ghost function AllPathStrings(h: Hash, blocks: seq<Block>, size: nat): set<Bytes> {
    if blocks == [] then {}
    else
      var b := blocks[|blocks| - 1];
      AllPathStrings(h, blocks[..|blocks| - 1], size) +
      (if Placed(b.header).Some? && b.header.proof.Some? && Placed(b.header).value.0 < size
       then PathStrings(h, LeafHashOf(h, Placed(b.header).value.1), Placed(b.header).value.0, size, b.header.proof.value)
       else {})
  }

  ghost function HashedByPackage(h: Hash, lines: seq<Line>, size: nat): set<Bytes> {
    var blocks := BlocksOf(lines);
    AllChainStrings(h, blocks) + LeafStrings(blocks) + AllPathStrings(h, blocks, size)
  }

  lemma {:induction false} BlockPathStrings(h: Hash, blocks: seq<Block>, size: nat, i: nat)
    requires i < |blocks| && Placed(blocks[i].header).Some? && blocks[i].header.proof.Some?
    requires Placed(blocks[i].header).value.0 < size
    ensures var at := Placed(blocks[i].header).value;
            PathStrings(h, LeafHashOf(h, at.1), at.0, size, blocks[i].header.proof.value) <=
            AllPathStrings(h, blocks, size)
  {
    hide PathStrings, LeafHashOf;
    if i < |blocks| - 1 {
      BlockPathStrings(h, blocks[..|blocks| - 1], size, i);
    }
  }

  /** A sound package names, at the size of any anchor of that size, that
      anchor's own root. */
  lemma {:induction false} PackageRoot(c: Codec, keys: Option<SignatureCheck>, anchors: seq<Anchor>, lines: seq<Line>,
                                       cp: Checkpoint)
    requires SoundUnder(c, keys, anchors, lines, cp) && Verify(c, keys, anchors, lines).selection.Some?
    ensures Verify(c, keys, anchors, lines).checkpoint.origin == cp.origin
    ensures Verify(c, keys, anchors, lines).checkpoint.size == cp.size ==>
              Verify(c, keys, anchors, lines).checkpoint.root == cp.root
  {
    hide ScanAll, Settled, SettleTrailer;
    var s := ScanAll(c, keys, lines);
    SoundIsSettled(c, keys, anchors, lines);
    SettledQuietly(c, s, anchors);
    SettledKeeps(c, s, anchors);
    var a :| a in anchors && a.checkpoint == cp;
    var headed, compared, framed := When(!s.headerSeen, NoHeader), ComparePackageAnchors(s.report.checkpoint, anchors),
                                    When(!s.report.complete, NoTrailer);
    ConcatIsEmpty(headed + compared, framed);
    ConcatIsEmpty(headed, compared);
    PackageAnchorsQuietly(s.report.checkpoint, anchors, a);
  }

  /** A package and a whole export, each sound under anchors that include the
      checkpoint the package is written against, agree on every placed block
      the package carries records for: the export has a block at that position,
      with the same seal and, where it carries the records, the same run and
      the same bytes.  The export may be of a later, larger log. */
  lemma {:induction false} PackageBinding(c: Codec, keysP: Option<SignatureCheck>, anchorsP: seq<Anchor>, p: seq<Line>,
                                          keysW: Option<SignatureCheck>, anchorsW: seq<Anchor>, w: seq<Line>,
                                          cp: Checkpoint)
    requires SoundUnder(c, keysP, anchorsP, p, cp) && Verify(c, keysP, anchorsP, p).selection.Some?
    requires Verify(c, keysP, anchorsP, p).checkpoint.size == cp.size
    requires SoundUnder(c, keysW, anchorsW, w, cp) && Verify(c, keysW, anchorsW, w).selection.None?
    requires Injective(c.hash, HashedByPackage(c.hash, p, cp.size) + HashedBy(c.hash, w, cp.size))
    ensures forall i | 0 <= i < |BlocksOf(p)| && Placed(BlocksOf(p)[i].header).Some? && BlocksOf(p)[i].lines != [] ::
              Placed(BlocksOf(p)[i].header).value.0 < cp.size &&
              exists j :: 0 <= j < |BlocksOf(w)| && Agree(BlocksOf(p)[i], BlocksOf(w)[j])
  {
    hide Verify, BlocksOf, OneHistory, Root, TreeStrings, AllChainStrings, LeafStrings, AllPathStrings, Injective,
         FileLeaves, Agree, Fresh, Contiguous;
    var ps, ws := BlocksOf(p), BlocksOf(w);
    var s := HashedByPackage(c.hash, p, cp.size) + HashedBy(c.hash, w, cp.size);
    var rp, rw := Verify(c, keysP, anchorsP, p), Verify(c, keysW, anchorsW, w);
    PackageRoot(c, keysP, anchorsP, p, cp);
    SoundPrefix(c, keysW, anchorsW, w, cp);
    SoundBlocks(c, keysP, anchorsP, p);
    SoundBlocks(c, keysW, anchorsW, w);
    forall i | 0 <= i < |ps| && Placed(ps[i].header).Some? && ps[i].lines != []
      ensures Placed(ps[i].header).value.0 < cp.size && exists j :: 0 <= j < |ws| && Agree(ps[i], ws[j])
    {
      var at := Placed(ps[i].header).value;
      ProvedBlock(c, keysP, rp, ps, i);
      PositionIsHeld(c.hash, ws, cp.size, at.0);
      var j :| 0 <= j < |ws| && Placed(ws[j].header).Some? && Placed(ws[j].header).value.0 == at.0;
      BlockPathStrings(c.hash, ps, cp.size, i);
      var leaves := Hashes(FileLeaves(c.hash, ws)[..cp.size]);
      InclusionIsSound(c.hash, LeafHashOf(c.hash, at.1), at.0, ps[i].header.proof.value, leaves, s);
      LeafIsThere(c.hash, ws, j, cp.size);
      BlockStrings(c.hash, ps, i);
      BlockStrings(c.hash, ws, j);
      LeavesBind(c.hash, at.1, Placed(ws[j].header).value.1, s);
      SealsAgree(c, keysP, rp, ps, i, keysW, rw, ws, j, s);
    }
  }

  lemma {:induction false} ProvedBlock(c: Codec, keys: Option<SignatureCheck>, r: Report, blocks: seq<Block>, i: nat)
    requires i < |blocks| && OneHistory(c, keys, r, blocks, blocks[i].run, i)
    requires r.selection.Some? && Placed(blocks[i].header).Some?
    ensures var at := Placed(blocks[i].header).value;
            at.0 < r.checkpoint.size && blocks[i].header.proof.Some? &&
            Included(c.hash, LeafHashOf(c.hash, at.1), at.0, r.checkpoint.size, blocks[i].header.proof.value,
                r.checkpoint.root)
  {
    hide Recomputes, Recomputed, ReadBlock, SignedHistory, PathRoot;
  }
}
