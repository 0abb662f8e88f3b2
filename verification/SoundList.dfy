/** What the list of sound runs means, for every file: src/export.rs promises
    that a listed run's chain recomputed exactly, and this is the whole of what
    that says, in both directions. */
module SoundList {
  import opened Wrappers
  import opened Hashing
  import opened Merkle
  import opened Wire
  import opened VerifySpec
  import opened Blocks

  /** Every pass the scan has opened, the open one last. */
  function Passes(s: Scan): seq<Pass> {
    s.closed + (match s.pass case Some(p) => [p] case None => [])
  }

  /** No earlier block names the same run or claims the same position. */
  ghost predicate Fresh(blocks: seq<Block>, i: nat)
    requires i < |blocks|
  {
    forall j :: 0 <= j < i ==>
      blocks[j].run != blocks[i].run && !SamePlace(blocks[j], blocks[i])
  }

  predicate SamePlace(a: Block, b: Block) {
    Placed(a.header).Some? && Placed(b.header).Some? && Placed(a.header).value.0 == Placed(b.header).value.0
  }

  ghost function RunsIn(blocks: seq<Block>): set<RunId> {
    set b | b in blocks :: b.run
  }

  ghost function PlacesIn(blocks: seq<Block>): set<nat> {
    set b | b in blocks && Placed(b.header).Some? :: Placed(b.header).value.0
  }

  /** The leaves the blocks of a file claim, in file order. */
  function LeavesOf(h: Hash, blocks: seq<Block>): seq<Leaf> {
    if blocks == [] then []
    else
      var placed := Placed(blocks[|blocks| - 1].header);
      LeavesOf(h, blocks[..|blocks| - 1]) +
      (match placed case Some(at) => [(at.0, LeafHashOf(h, at.1))] case None => [])
  }

  /** The pass a block leaves behind: the fold over its lines, clean unless the
      block repeats an earlier run or position. */
  ghost function PassAt(c: Codec, blocks: seq<Block>, i: nat): Pass
    requires i < |blocks|
  {
    var p := ReadBlock(c, blocks[i]);
    p.(clean := p.clean && Fresh(blocks, i))
  }

  /** The scan knows of the file's blocks exactly what they say. */
  ghost predicate Tracks(c: Codec, s: Scan, f: Frame) {
    s.halted == f.halted &&
    s.pass.Some? == f.current.Some? &&
    |Passes(s)| == |All(f)| &&
    (forall i :: 0 <= i < |All(f)| ==> Passes(s)[i] == PassAt(c, All(f), i)) &&
    s.blocksOf == RunsIn(All(f)) && s.positions == PlacesIn(All(f)) &&
    s.leaves == LeavesOf(c.hash, All(f)) &&
    (s.first ==> All(f) == [] && s.report == EmptyReport)
  }

  /** A closed block stands: it carried records, every one of them checked out,
      and closing it found nothing. */
  ghost predicate Stands(c: Codec, keys: Option<SignatureCheck>, r: Report, p: Pass) {
    p.records > 0 && p.clean && ClosingFindings(c, keys, r.selection.Some?, r.checkpoint, p) == []
  }

  ghost predicate Only(passes: seq<Pass>, i: nat, run: RunId) {
    i < |passes| && passes[i].run == run && forall j :: 0 <= j < |passes| && passes[j].run == run ==> j == i
  }

  ghost predicate Listed(c: Codec, keys: Option<SignatureCheck>, s: Scan, run: RunId) {
    exists i :: 0 <= i < |s.closed| && Only(Passes(s), i, run) && Stands(c, keys, s.report, s.closed[i])
  }

  /** The sound list is exactly the runs whose one block stands. */
  ghost predicate ListsExactly(c: Codec, keys: Option<SignatureCheck>, s: Scan) {
    forall run :: run in s.report.sound <==> Listed(c, keys, s, run)
  }

  // ── Lines that touch no block ──────────────────────────────────────────

  /** `t` differs from `s` in nothing the two invariants look at. */
  ghost predicate SameBlocks(s: Scan, t: Scan) {
    t.halted == s.halted && t.pass == s.pass && t.closed == s.closed && t.blocksOf == s.blocksOf &&
    t.positions == s.positions && t.leaves == s.leaves && !t.first && t.report.sound == s.report.sound &&
    ((t.report.selection == s.report.selection && t.report.checkpoint == s.report.checkpoint) || s.first)
  }

  lemma {:induction false} SameBlocksKeep(c: Codec, keys: Option<SignatureCheck>, s: Scan, t: Scan, f: Frame)
    requires Tracks(c, s, f) && ListsExactly(c, keys, s) && SameBlocks(s, t)
    ensures Tracks(c, t, f) && ListsExactly(c, keys, t)
  {
    hide ClosingFindings, ReadBlock, LeavesOf, RunsIn, PlacesIn, Fresh;
    assert Passes(t) == Passes(s);
    if s.first {
      assert s.closed == [] && t.closed == [];
      forall run ensures run !in t.report.sound && !Listed(c, keys, t, run) {
      }
    } else {
      forall run ensures Listed(c, keys, s, run) == Listed(c, keys, t, run) {
        if Listed(c, keys, s, run) { ListedIsLocal(c, keys, s, t, run); }
        if Listed(c, keys, t, run) { ListedIsLocal(c, keys, t, s, run); }
      }
    }
  }

  lemma {:induction false} ListedIsLocal(c: Codec, keys: Option<SignatureCheck>, s: Scan, t: Scan, run: RunId)
    requires Listed(c, keys, s, run) && s.closed == t.closed && Passes(s) == Passes(t)
    requires s.report.selection == t.report.selection && s.report.checkpoint == t.report.checkpoint
    ensures Listed(c, keys, t, run)
  {
    hide ClosingFindings;
    var i :| 0 <= i < |s.closed| && Only(Passes(s), i, run) && Stands(c, keys, s.report, s.closed[i]);
    assert Only(Passes(t), i, run) && Stands(c, keys, t.report, t.closed[i]);
  }

  // ── A record line ──────────────────────────────────────────────────────

  lemma {:induction false} RecordTracks(c: Codec, s: Scan, f: Frame, r: RecordFields)
    requires Tracks(c, s, f) && s.pass.Some? && !s.first
    ensures Tracks(c, ReadRecord(c, s, r), Under(f, r))
  {
    hide JudgeRecord, RunsIn, PlacesIn, LeavesOf, PassAt;
    var t := ReadRecord(c, s, r);
    var b := f.current.value;
    var n := |f.done|;
    assert Passes(s)[n] == s.pass.value && All(f)[n] == b && All(f)[..n] == f.done;
    BlockGrows(c, All(f), r);
    LeavesOfGrown(c.hash, All(f), r);
    var blocks := All(Under(f, r));
    assert blocks == All(f)[..n] + [b.(lines := b.lines + [r])];
    assert Passes(t) == Passes(s)[..n] + [JudgeRecord(c, r, s.pass.value).pass];
    forall i | 0 <= i < |blocks| ensures Passes(t)[i] == PassAt(c, blocks, i) {
      assert Passes(s)[i] == PassAt(c, All(f), i);
    }
  }

  lemma {:induction false} RecordKeeps(c: Codec, keys: Option<SignatureCheck>, s: Scan, f: Frame, r: RecordFields)
    requires Tracks(c, s, f) && ListsExactly(c, keys, s) && !s.halted && !s.first
    ensures Tracks(c, ReadRecord(c, s, r), Under(f, r)) && ListsExactly(c, keys, ReadRecord(c, s, r))
  {
    hide JudgeRecord, ClosingFindings, RunsIn, PlacesIn, LeavesOf, PassAt;
    var t := ReadRecord(c, s, r);
    if s.pass.None? {
      assert SameBlocks(s, t);
      SameBlocksKeep(c, keys, s, t, f);
    } else {
      RecordTracks(c, s, f, r);
      JudgeKeepsTheRun(c, r, s.pass.value);
      hide Tracks, Listed;
      forall run ensures Listed(c, keys, s, run) == Listed(c, keys, t, run) {
        ListedBesideTheOpenBlock(c, keys, s, t, run);
        ListedBesideTheOpenBlock(c, keys, t, s, run);
      }
    }
  }

  lemma {:induction false} ListedBesideTheOpenBlock(c: Codec, keys: Option<SignatureCheck>, s: Scan, t: Scan,
                                                    run: RunId)
    requires s.closed == t.closed && s.pass.Some? && t.pass.Some? && s.pass.value.run == t.pass.value.run
    requires s.report.selection == t.report.selection && s.report.checkpoint == t.report.checkpoint
    ensures Listed(c, keys, s, run) ==> Listed(c, keys, t, run)
  {
    hide ClosingFindings;
    if Listed(c, keys, s, run) {
      var i :| 0 <= i < |s.closed| && Only(Passes(s), i, run) && Stands(c, keys, s.report, s.closed[i]);
      forall j | 0 <= j < |Passes(t)| && Passes(t)[j].run == run ensures j == i {
        assert Passes(s)[j].run == run;
      }
      assert Only(Passes(t), i, run) && Stands(c, keys, t.report, t.closed[i]);
    }
  }

  /** Every block but the last keeps its pass, and the last one's moves by one
      judged line. */
  lemma {:induction false} BlockGrows(c: Codec, blocks: seq<Block>, r: RecordFields)
    requires blocks != []
    ensures var n := |blocks| - 1;
            var grown := blocks[..n] + [blocks[n].(lines := blocks[n].lines + [r])];
            (forall i :: 0 <= i < n ==> PassAt(c, grown, i) == PassAt(c, blocks, i)) &&
            PassAt(c, grown, n) == JudgeRecord(c, r, PassAt(c, blocks, n)).pass &&
            RunsIn(grown) == RunsIn(blocks) && PlacesIn(grown) == PlacesIn(blocks)
  {
    hide JudgeRecord;
    var n := |blocks| - 1;
    var b := blocks[n];
    var grown := blocks[..n] + [b.(lines := b.lines + [r])];
    forall i | 0 <= i <= n ensures Fresh(grown, i) == Fresh(blocks, i) {
      assert forall j :: 0 <= j <= n ==> grown[j].run == blocks[j].run && grown[j].header == blocks[j].header;
    }
    var p := ReadBlock(c, b);
    assert (b.lines + [r])[..|b.lines|] == b.lines;
    CleanIsOnlyAFlag(c, r, p, p.clean && Fresh(blocks, n));
    RunsAndPlacesGrow(blocks, grown);
  }

  lemma RunsAndPlacesGrow(blocks: seq<Block>, grown: seq<Block>)
    requires |blocks| == |grown|
    requires forall i :: 0 <= i < |blocks| ==> grown[i].run == blocks[i].run && grown[i].header == blocks[i].header
    ensures RunsIn(grown) == RunsIn(blocks) && PlacesIn(grown) == PlacesIn(blocks)
  {
    forall x ensures x in RunsIn(grown) <==> x in RunsIn(blocks) {
      if x in RunsIn(grown) {
        var i :| 0 <= i < |grown| && grown[i].run == x;
        assert blocks[i] in blocks;
      }
      if x in RunsIn(blocks) {
        var i :| 0 <= i < |blocks| && blocks[i].run == x;
        assert grown[i] in grown;
      }
    }
    forall x ensures x in PlacesIn(grown) <==> x in PlacesIn(blocks) {
      if x in PlacesIn(grown) {
        var i :| 0 <= i < |grown| && Placed(grown[i].header).Some? && Placed(grown[i].header).value.0 == x;
        assert blocks[i] in blocks;
      }
      if x in PlacesIn(blocks) {
        var i :| 0 <= i < |blocks| && Placed(blocks[i].header).Some? && Placed(blocks[i].header).value.0 == x;
        assert grown[i] in grown;
      }
    }
  }

  lemma LeavesOfGrown(h: Hash, blocks: seq<Block>, r: RecordFields)
    requires blocks != []
    ensures var n := |blocks| - 1;
            LeavesOf(h, blocks[..n] + [blocks[n].(lines := blocks[n].lines + [r])]) == LeavesOf(h, blocks)
  {
    var n := |blocks| - 1;
    assert (blocks[..n] + [blocks[n].(lines := blocks[n].lines + [r])])[..n] == blocks[..n];
  }

  // ── A run line ─────────────────────────────────────────────────────────

  /** Closing a block moves its pass, and lists its run exactly when it stands. */
  lemma {:induction false} FinishKeeps(c: Codec, keys: Option<SignatureCheck>, s: Scan, f: Frame)
    requires Tracks(c, s, f) && ListsExactly(c, keys, s) && !s.first
    ensures var t := FinishRun(c, keys, s);
            Tracks(c, t, Frame(All(f), None, f.halted)) && ListsExactly(c, keys, t) && t.pass.None? && !t.first &&
            Passes(t) == Passes(s) && t.report.selection == s.report.selection &&
            t.report.checkpoint == s.report.checkpoint
  {
    hide ClosingFindings, RunsIn, PlacesIn, LeavesOf, ReadBlock;
    var t := FinishRun(c, keys, s);
    assert Passes(t) == Passes(s);
    assert All(Frame(All(f), None, f.halted)) == All(f);
    if s.pass.Some? {
      var p, n := s.pass.value, |s.closed|;
      assert Passes(s)[n] == p == PassAt(c, All(f), n);
      forall run
        ensures Listed(c, keys, t, run) <==> Listed(c, keys, s, run) || (run == p.run && Stands(c, keys, s.report, p))
      {
        FinishLists(c, keys, s, f, run);
      }
      assert t.report.sound == s.report.sound + (if Stands(c, keys, s.report, p) then [p.run] else []);
    } else {
      assert t == s;
    }
  }

  lemma {:induction false} FinishLists(c: Codec, keys: Option<SignatureCheck>, s: Scan, f: Frame, run: RunId)
    requires Tracks(c, s, f) && s.pass.Some?
    ensures var t := FinishRun(c, keys, s);
            var p := s.pass.value;
            Listed(c, keys, t, run) <==> Listed(c, keys, s, run) || (run == p.run && Stands(c, keys, s.report, p))
  {
    hide FinishRun, Passes, Only, Listed, ClosingFindings, PassAt;
    FinishMoves(c, keys, s);
    if Stands(c, keys, s.report, s.pass.value) {
      CleanIsOnly(c, s, f);
    }
    FinishListsOne(c, keys, s, FinishRun(c, keys, s), s.pass.value, run);
  }

  lemma FinishListsOne(c: Codec, keys: Option<SignatureCheck>, s: Scan, t: Scan, p: Pass, run: RunId)
    requires Passes(t) == Passes(s) && t.closed == s.closed + [p]
    requires |s.closed| < |Passes(s)| && Passes(s)[|s.closed|] == p
    requires t.report.selection == s.report.selection && t.report.checkpoint == s.report.checkpoint
    requires Stands(c, keys, s.report, p) ==> Only(Passes(s), |s.closed|, p.run)
    ensures Listed(c, keys, t, run) <==> Listed(c, keys, s, run) || (run == p.run && Stands(c, keys, s.report, p))
  {
    hide Passes, Stands, Only;
    var n := |s.closed|;
    if Listed(c, keys, s, run) {
      var i :| 0 <= i < |s.closed| && Only(Passes(s), i, run) && Stands(c, keys, s.report, s.closed[i]);
      StandsIsLocal(c, keys, s.report, t.report, s.closed[i]);
      assert Only(Passes(t), i, run) && Stands(c, keys, t.report, t.closed[i]);
    }
    if run == p.run && Stands(c, keys, s.report, p) {
      StandsIsLocal(c, keys, s.report, t.report, p);
      assert Only(Passes(t), n, run) && Stands(c, keys, t.report, t.closed[n]);
    }
    if Listed(c, keys, t, run) {
      var i :| 0 <= i < |t.closed| && Only(Passes(t), i, run) && Stands(c, keys, t.report, t.closed[i]);
      StandsIsLocal(c, keys, t.report, s.report, t.closed[i]);
      if i < n {
        assert Only(Passes(s), i, run) && Stands(c, keys, s.report, s.closed[i]);
      } else {
        OnlyNames(Passes(t), i, run);
      }
    }
  }

  lemma FinishMoves(c: Codec, keys: Option<SignatureCheck>, s: Scan)
    requires s.pass.Some?
    ensures var t := FinishRun(c, keys, s);
            Passes(t) == Passes(s) && t.closed == s.closed + [s.pass.value] && t.pass.None? &&
            |Passes(s)| == |s.closed| + 1 && Passes(s)[|s.closed|] == s.pass.value &&
            t.report.selection == s.report.selection && t.report.checkpoint == s.report.checkpoint
  {
    hide ClosingFindings;
  }

  lemma StandsIsLocal(c: Codec, keys: Option<SignatureCheck>, r: Report, t: Report, p: Pass)
    requires r.selection == t.selection && r.checkpoint == t.checkpoint
    ensures Stands(c, keys, r, p) == Stands(c, keys, t, p)
  {
    hide ClosingFindings;
  }

  lemma OnlyNames(passes: seq<Pass>, i: nat, run: RunId)
    requires Only(passes, i, run)
    ensures i < |passes| && passes[i].run == run
  {
  }

  /** A clean open block is its run's only one so far. */
  lemma {:induction false} CleanIsOnly(c: Codec, s: Scan, f: Frame)
    requires Tracks(c, s, f) && s.pass.Some? && s.pass.value.clean
    ensures Only(Passes(s), |s.closed|, s.pass.value.run)
  {
    hide ReadBlock, RunsIn, PlacesIn, LeavesOf;
    var n := |s.closed|;
    assert Passes(s)[n] == PassAt(c, All(f), n);
    PassNamesItsRun(c, All(f), n);
    forall j | 0 <= j < |Passes(s)| && Passes(s)[j].run == s.pass.value.run ensures j == n {
      PassNamesItsRun(c, All(f), j);
    }
  }

  lemma PassNamesItsRun(c: Codec, blocks: seq<Block>, i: nat)
    requires i < |blocks|
    ensures PassAt(c, blocks, i).run == blocks[i].run
  {
    hide PassAfter;
    ReadBlockKeepsItsHeader(c, OpenPass(blocks[i].header, blocks[i].run), blocks[i].lines);
  }

  lemma {:induction false} OpenKeeps(c: Codec, keys: Option<SignatureCheck>, s: Scan, f: Frame, h: RunFields)
    requires Tracks(c, s, f) && ListsExactly(c, keys, s) && s.pass.None? && !s.halted && !s.first
    ensures var t := ClaimOnce(OpenRunBlock(c, s, h));
            Tracks(c, t, FrameStep(f, RunLine(h))) && ListsExactly(c, keys, t)
  {
    hide ClosingFindings, RunsIn, PlacesIn, LeavesOf, ReadBlock, OpenPass;
    var t := ClaimOnce(OpenRunBlock(c, s, h));
    assert All(f) == f.done;
    if h.run.None? {
      assert t == s;
    } else {
      var b := Block(h, h.run.value, []);
      var blocks := All(f) + [b];
      assert All(FrameStep(f, RunLine(h))) == blocks;
      OpenedPass(c, s, f, h);
      BlocksAppend(c, All(f), b);
      assert Passes(t) == Passes(s) + [t.pass.value];
      forall i | 0 <= i < |blocks| ensures Passes(t)[i] == PassAt(c, blocks, i) {
        if i < |All(f)| {
          assert Passes(t)[i] == Passes(s)[i] == PassAt(c, All(f), i);
        }
      }
      OpenLists(c, keys, s, f, h);
    }
  }

  lemma {:induction false} OpenedPass(c: Codec, s: Scan, f: Frame, h: RunFields)
    requires Tracks(c, s, f) && s.pass.None? && h.run.Some?
    ensures var t := ClaimOnce(OpenRunBlock(c, s, h));
            var b := Block(h, h.run.value, []);
            var blocks := All(f) + [b];
            t.pass == Some(PassAt(c, blocks, |All(f)|)) && t.closed == s.closed && t.halted == s.halted &&
            t.first == s.first && t.report.selection == s.report.selection &&
            t.report.checkpoint == s.report.checkpoint &&
            t.blocksOf == s.blocksOf + {b.run} &&
            t.positions == s.positions + (match Placed(h) case Some(at) => {at.0} case None => {}) &&
            t.leaves ==
              s.leaves + (match Placed(h) case Some(at) => [(at.0, LeafHashOf(c.hash, at.1))] case None => []) &&
            t.report.sound == (if b.run in RunsIn(All(f)) then Without(s.report.sound, b.run) else s.report.sound)
  {
    hide LeavesOf, Without;
    var b := Block(h, h.run.value, []);
    var blocks := All(f) + [b];
    var n := |All(f)|;
    assert ReadBlock(c, b) == OpenPass(h, h.run.value);
    FreshAtTheEnd(All(f), b);
  }

  /** A new block is fresh exactly when its run and its position are new. */
  lemma FreshAtTheEnd(blocks: seq<Block>, b: Block)
    ensures Fresh(blocks + [b], |blocks|) <==>
            b.run !in RunsIn(blocks) && !(Placed(b.header).Some? && Placed(b.header).value.0 in PlacesIn(blocks))
  {
    var grown, n := blocks + [b], |blocks|;
    if Fresh(grown, n) {
      forall x | x in blocks ensures x.run != b.run && !SamePlace(x, b) {
        var j :| 0 <= j < n && blocks[j] == x;
        assert grown[j] == x;
      }
    } else {
      var j :| 0 <= j < n && !(grown[j].run != grown[n].run && !SamePlace(grown[j], grown[n]));
      assert grown[j] == blocks[j] && blocks[j] in blocks;
    }
  }

  lemma {:induction false} BlocksAppend(c: Codec, blocks: seq<Block>, b: Block)
    ensures var grown := blocks + [b];
            (forall i :: 0 <= i < |blocks| ==> PassAt(c, grown, i) == PassAt(c, blocks, i)) &&
            RunsIn(grown) == RunsIn(blocks) + {b.run} &&
            PlacesIn(grown) == PlacesIn(blocks) + (match Placed(b.header) case Some(at) => {at.0} case None => {}) &&
            LeavesOf(c.hash, grown) == LeavesOf(c.hash, blocks) +
              (match Placed(b.header) case Some(at) => [(at.0, LeafHashOf(c.hash, at.1))] case None => [])
  {
    hide ReadBlock;
    var grown := blocks + [b];
    assert grown[..|blocks|] == blocks;
    forall i | 0 <= i < |blocks| ensures Fresh(grown, i) == Fresh(blocks, i) {
      assert forall j :: 0 <= j <= i ==> grown[j] == blocks[j];
    }
    assert forall x :: x in grown <==> x in blocks || x == b;
  }

  lemma {:induction false} OpenLists(c: Codec, keys: Option<SignatureCheck>, s: Scan, f: Frame, h: RunFields)
    requires Tracks(c, s, f) && ListsExactly(c, keys, s) && s.pass.None? && h.run.Some?
    ensures ListsExactly(c, keys, ClaimOnce(OpenRunBlock(c, s, h)))
  {
    var t := ClaimOnce(OpenRunBlock(c, s, h));
    var b := Block(h, h.run.value, []);
    OpenedPass(c, s, f, h);
    PassNamesItsRun(c, All(f) + [b], |All(f)|);
    forall run ensures run in t.report.sound <==> Listed(c, keys, t, run) {
      WithoutKeepsTheRest(s.report.sound, b.run, run);
      if Listed(c, keys, s, run) {
        ListedIsAmongTheRuns(c, keys, s, f, run);
      }
      OpenListsOne(c, keys, s, t, b.run, run);
    }
  }

  lemma {:induction false} ListedIsAmongTheRuns(c: Codec, keys: Option<SignatureCheck>, s: Scan, f: Frame, run: RunId)
    requires Tracks(c, s, f) && Listed(c, keys, s, run)
    ensures run in RunsIn(All(f))
  {
    hide Stands;
    var i :| 0 <= i < |s.closed| && Only(Passes(s), i, run) && Stands(c, keys, s.report, s.closed[i]);
    PassNamesItsRun(c, All(f), i);
    assert Passes(s)[i] == PassAt(c, All(f), i) && All(f)[i] in All(f);
  }

  /** Opening a block for `named` unlists that run and no other. */
  lemma {:induction false} OpenListsOne(c: Codec, keys: Option<SignatureCheck>, s: Scan, t: Scan, named: RunId,
                                        run: RunId)
    requires s.pass.None? && t.pass.Some? && t.pass.value.run == named && t.closed == s.closed
    requires t.report.selection == s.report.selection && t.report.checkpoint == s.report.checkpoint
    ensures Listed(c, keys, t, run) <==> Listed(c, keys, s, run) && run != named
  {
    hide Stands;
    var n := |s.closed|;
    assert Passes(s) == s.closed && Passes(t) == s.closed + [t.pass.value];
    if Listed(c, keys, s, run) && run != named {
      var i :| 0 <= i < |s.closed| && Only(Passes(s), i, run) && Stands(c, keys, s.report, s.closed[i]);
      StandsIsLocal(c, keys, s.report, t.report, s.closed[i]);
      assert Only(Passes(t), i, run) && Stands(c, keys, t.report, t.closed[i]);
    }
    if Listed(c, keys, t, run) {
      var i :| 0 <= i < |t.closed| && Only(Passes(t), i, run) && Stands(c, keys, t.report, t.closed[i]);
      StandsIsLocal(c, keys, t.report, s.report, t.closed[i]);
      assert Passes(t)[n].run == named && i != n;
      forall j | 0 <= j < |Passes(s)| && Passes(s)[j].run == run ensures j == i {
        assert Passes(t)[j].run == run;
      }
      assert Only(Passes(s), i, run) && Stands(c, keys, s.report, s.closed[i]);
    }
  }

  lemma {:induction false} WithoutKeepsTheRest(runs: seq<RunId>, run: RunId, x: RunId)
    ensures x in Without(runs, run) <==> x in runs && x != run
  {
    if runs != [] {
      var n := |runs| - 1;
      WithoutKeepsTheRest(runs[..n], run, x);
      assert runs == runs[..n] + [runs[n]];
    }
  }

  // ── The whole pass ─────────────────────────────────────────────────────

  lemma {:induction false} StepKeeps(c: Codec, keys: Option<SignatureCheck>, s: Scan, f: Frame, line: Line)
    requires Tracks(c, s, f) && ListsExactly(c, keys, s) && !s.report.unverifiable
    ensures var t := Step(c, keys, s, line);
            (t.report.unverifiable ==> t.report.sound == []) &&
            (t.report.unverifiable || (Tracks(c, t, FrameStep(f, line)) && ListsExactly(c, keys, t)))
  {
    hide FinishRun, OpenRunBlock, ClaimOnce, ReadRecord, Tracks, ListsExactly, ReadSelection, Under;
    if !s.halted && !line.Blank? {
      var t := s.(first := false);
      Unfirst(c, keys, s, f);
      match line {
        case RunLine(h) =>
          var counted := t.(runBlocks := t.runBlocks + 1);
          Recounted(c, keys, t, f);
          FinishKeeps(c, keys, counted, f);
          var closed := Frame(All(f), None, f.halted);
          TracksHalts(c, s, f);
          FinishHalts(c, keys, counted);
          OpenKeeps(c, keys, FinishRun(c, keys, counted), closed, h);
          FrameOfRun(f, h);
          RunKeepsTheRules(c, keys, t, h);
        case RecordLine(r) =>
          RecordKeeps(c, keys, t, f, r);
          RecordKeepsTheRules(c, t, r);
          TracksHalts(c, s, f);
        case UnknownLine(r, _) =>
          RecordKeeps(c, keys, t, f, r);
          RecordKeepsTheRules(c, t, r);
          TracksHalts(c, s, f);
        case NotJson =>
          NotJsonKeeps(c, keys, s, f);
        case HeaderLine(kind, h) =>
          OtherKeeps(c, keys, s, f, line);
        case CaseLine(k) =>
          OtherKeeps(c, keys, s, f, line);
        case EndLine(e) =>
          OtherKeeps(c, keys, s, f, line);
        case Blank =>
      }
    } else {
      TracksHalts(c, s, f);
    }
  }

  lemma TracksHalts(c: Codec, s: Scan, f: Frame)
    requires Tracks(c, s, f)
    ensures s.halted == f.halted
  {
  }

  lemma FinishHalts(c: Codec, keys: Option<SignatureCheck>, s: Scan)
    ensures FinishRun(c, keys, s).halted == s.halted
  {
    hide ClosingFindings;
  }

  lemma FrameOfRun(f: Frame, h: RunFields)
    requires !f.halted
    ensures FrameStep(Frame(All(f), None, false), RunLine(h)) == FrameStep(f, RunLine(h))
  {
    assert All(Frame(All(f), None, false)) == All(f);
  }

  lemma {:induction false} Unfirst(c: Codec, keys: Option<SignatureCheck>, s: Scan, f: Frame)
    requires Tracks(c, s, f) && ListsExactly(c, keys, s)
    ensures Tracks(c, s.(first := false), f) && ListsExactly(c, keys, s.(first := false))
  {
    assert SameBlocks(s, s.(first := false));
    SameBlocksKeep(c, keys, s, s.(first := false), f);
  }

  lemma Recounted(c: Codec, keys: Option<SignatureCheck>, s: Scan, f: Frame)
    requires Tracks(c, s, f) && ListsExactly(c, keys, s) && !s.first
    ensures Tracks(c, s.(runBlocks := s.runBlocks + 1), f) && ListsExactly(c, keys, s.(runBlocks := s.runBlocks + 1))
  {
    var t := s.(runBlocks := s.runBlocks + 1);
    assert SameBlocks(s, t);
    SameBlocksKeep(c, keys, s, t, f);
  }

  lemma {:induction false} NotJsonKeeps(c: Codec, keys: Option<SignatureCheck>, s: Scan, f: Frame)
    requires Tracks(c, s, f) && ListsExactly(c, keys, s) && !s.halted
    ensures var t := Step(c, keys, s, NotJson);
            Tracks(c, t, FrameStep(f, NotJson)) && ListsExactly(c, keys, t)
  {
    var t := Step(c, keys, s, NotJson).(halted := false);
    assert SameBlocks(s, t);
    SameBlocksKeep(c, keys, s, t, f);
    HaltKeeps(c, keys, t, f);
  }

  lemma {:induction false} HaltKeeps(c: Codec, keys: Option<SignatureCheck>, s: Scan, f: Frame)
    requires Tracks(c, s, f) && ListsExactly(c, keys, s)
    ensures Tracks(c, s.(halted := true), f.(halted := true)) && ListsExactly(c, keys, s.(halted := true))
  {
    hide ClosingFindings, RunsIn, PlacesIn, LeavesOf, ReadBlock, Fresh;
    var t, g := s.(halted := true), f.(halted := true);
    assert Passes(t) == Passes(s) && All(g) == All(f);
    forall run ensures Listed(c, keys, s, run) == Listed(c, keys, t, run) {
      if Listed(c, keys, s, run) { ListedIsLocal(c, keys, s, t, run); }
      if Listed(c, keys, t, run) { ListedIsLocal(c, keys, t, s, run); }
    }
  }

  lemma FirstIsEmpty(c: Codec, s: Scan, f: Frame)
    requires Tracks(c, s, f)
    ensures s.first ==> s.report == EmptyReport
  {
  }

  lemma {:induction false} OtherKeeps(c: Codec, keys: Option<SignatureCheck>, s: Scan, f: Frame, line: Line)
    requires Tracks(c, s, f) && ListsExactly(c, keys, s) && !s.halted && !s.report.unverifiable
    requires line.HeaderLine? || line.CaseLine? || line.EndLine?
    ensures var t := Step(c, keys, s, line);
            (t.report.unverifiable ==> t.report.sound == []) &&
            (t.report.unverifiable || (Tracks(c, t, FrameStep(f, line)) && ListsExactly(c, keys, t)))
  {
    hide Tracks, ListsExactly, When;
    FirstIsEmpty(c, s, f);
    var t := Step(c, keys, s, line);
    if !t.report.unverifiable {
      assert SameBlocks(s, t);
      SameBlocksKeep(c, keys, s, t, f);
      TracksHalts(c, s, f);
    }
  }

  lemma {:induction false} StartTracks(c: Codec, keys: Option<SignatureCheck>)
    ensures Tracks(c, Start, Framed([])) && ListsExactly(c, keys, Start)
  {
    assert Passes(Start) == [] && All(Framed([])) == [];
    forall run ensures run !in Start.report.sound && !Listed(c, keys, Start, run) {
    }
  }

  /** What block handling leaves alone: the rules the file is read under, the
      trailer's claims and the counts of other lines. */
  ghost predicate SameRules(s: Scan, t: Scan) {
    t.report.unverifiable == s.report.unverifiable && t.halted == s.halted &&
    t.report.checkpoint == s.report.checkpoint && t.report.selection == s.report.selection &&
    t.headerSeen == s.headerSeen && t.report.complete == s.report.complete && t.claims == s.claims &&
    t.carried == s.carried && t.report.cases == s.report.cases && t.first == s.first
  }

  lemma {:induction false} FinishKeepsTheRules(c: Codec, keys: Option<SignatureCheck>, s: Scan)
    ensures var t := FinishRun(c, keys, s);
            SameRules(s, t) && t.runBlocks == s.runBlocks && t.report.records == s.report.records &&
            t.stamped == s.stamped
  {
    hide ClosingFindings;
  }

  lemma OpenKeepsTheRules(c: Codec, s: Scan, h: RunFields)
    ensures var t := OpenRunBlock(c, s, h);
            SameRules(s, t) && t.runBlocks == s.runBlocks && t.report.records == s.report.records &&
            t.stamped == s.stamped
  {
    hide OpenPass, Placed, When;
  }

  lemma {:induction false} ClaimKeepsTheRules(s: Scan)
    ensures var t := ClaimOnce(s);
            SameRules(s, t) && t.runBlocks == s.runBlocks && t.report.records == s.report.records &&
            t.stamped == s.stamped
  {
    hide Without, When;
  }

  lemma {:induction false} RunKeepsTheRules(c: Codec, keys: Option<SignatureCheck>, s: Scan, h: RunFields)
    ensures var t := ReadRun(c, keys, s, h);
            SameRules(s, t) && t.runBlocks == s.runBlocks + 1 && t.report.records == s.report.records &&
            t.stamped == s.stamped
  {
    hide FinishRun, OpenRunBlock, ClaimOnce;
    var counted := s.(runBlocks := s.runBlocks + 1);
    FinishKeepsTheRules(c, keys, counted);
    OpenKeepsTheRules(c, FinishRun(c, keys, counted), h);
    ClaimKeepsTheRules(OpenRunBlock(c, FinishRun(c, keys, counted), h));
  }

  lemma {:induction false} RecordKeepsTheRules(c: Codec, s: Scan, f: RecordFields)
    ensures var t := ReadRecord(c, s, f);
            SameRules(s, t) && t.runBlocks == s.runBlocks && t.report.records == s.report.records + 1
  {
    hide JudgeRecord;
  }

  /** A pass that has met an unknown rule has read nothing further. */
  lemma {:induction false} UnverifiableHalts(c: Codec, keys: Option<SignatureCheck>, s: Scan, line: Line)
    requires s.report.unverifiable ==> s.halted
    ensures var t := Step(c, keys, s, line);
            (t.report.unverifiable ==> t.halted) && (s.report.unverifiable ==> t == s)
  {
    hide ReadRun, ReadRecord, When;
    var t := s.(first := false);
    match line {
      case RunLine(h) => RunKeepsTheRules(c, keys, t, h);
      case RecordLine(f) => RecordKeepsTheRules(c, t, f);
      case UnknownLine(f, _) => RecordKeepsTheRules(c, t, f);
      case _ =>
    }
  }

  lemma {:induction false} ScannedTracks(c: Codec, keys: Option<SignatureCheck>, lines: seq<Line>)
    ensures var s := Scanned(c, keys, Start, lines);
            (s.report.unverifiable ==> s.halted && s.report.sound == []) &&
            (s.report.unverifiable || (Tracks(c, s, Framed(lines)) && ListsExactly(c, keys, s)))
  {
    hide Step, FrameStep, Tracks, ListsExactly;
    if lines == [] {
      StartTracks(c, keys);
    } else {
      var n := |lines| - 1;
      ScannedTracks(c, keys, lines[..n]);
      var s := Scanned(c, keys, Start, lines[..n]);
      UnverifiableHalts(c, keys, s, lines[n]);
      if !s.report.unverifiable {
        StepKeeps(c, keys, s, Framed(lines[..n]), lines[n]);
      }
    }
  }

  // ── The theorem ────────────────────────────────────────────────────────

  /** Block `i` is the one history the file carries of `run`: no other block
      names the run, it carries records, its bytes recompute every hash from
      zero with sequence numbers 1 to n under this run's name and every
      conclusion over its own predecessor, and whatever position it claims is
      claimed by no earlier block and holds its terminal hash.  In a package the
      position is also proved, and a sealing conclusion has one; with keys,
      every record is signed. */
  ghost predicate OneHistory(c: Codec, keys: Option<SignatureCheck>, r: Report, blocks: seq<Block>, run: RunId,
                             i: nat) {
    i < |blocks| && blocks[i].run == run &&
    (forall j :: 0 <= j < |blocks| && blocks[j].run == run ==> j == i) &&
    (forall j :: 0 <= j < i ==> !SamePlace(blocks[j], blocks[i])) &&
    var b := blocks[i];
    var placed, records := Placed(b.header), ReadBlock(c, b).resealed;
    b.lines != [] && Recomputes(c, run, b.lines) && Recomputed(c, b.lines, records) &&
    (ClaimsPlace(b.header) ==> placed.Some?) &&
    (placed.Some? ==> placed.value.1 == Head(c.hash, CarriedRaws(b.lines))) &&
    (r.selection.Some? && HasSealingConclusion(records) ==> placed.Some?) &&
    (r.selection.Some? && placed.Some? ==>
       LeafIsProved(c.hash, placed.value.1, Some(placed.value.0), b.header.proof, r.checkpoint)) &&
    (keys.Some? ==> SignedHistory(c.hash, keys.value, records))
  }

  lemma {:induction false} UncleanStaysUnclean(c: Codec, entered: Pass, lines: seq<RecordFields>)
    requires !entered.clean
    ensures !PassAfter(c, entered, lines).clean
  {
    hide JudgeRecord;
    if lines != [] {
      var n := |lines| - 1;
      UncleanStaysUnclean(c, entered, lines[..n]);
      var p := PassAfter(c, entered, lines[..n]);
      CleanIsOnlyAFlag(c, lines[n], p, p.clean);
    }
  }

  /** What a block's own pass says of it. */
  lemma {:induction false} BlockReads(c: Codec, b: Block)
    ensures var p := ReadBlock(c, b);
            p.run == b.run && p.records == |b.lines| && p.prev == Head(c.hash, CarriedRaws(b.lines)) &&
            (p.clean <==> (ClaimsPlace(b.header) ==> Placed(b.header).Some?) && Recomputes(c, b.run, b.lines)) &&
            (p.clean ==> p.lastSeq == |b.lines| && Recomputed(c, b.lines, p.resealed)) &&
            p.sealed == Placed(b.header).Some? && p.proof == b.header.proof &&
            p.declaredSeal == (match Placed(b.header) case Some(at) => Some(at.1) case None => None) &&
            (p.sealed ==> p.index == Some(Placed(b.header).value.0))
  {
    hide PassAfter, Recomputes, Recomputed, Head, CarriedRaws;
    var entered := OpenPass(b.header, b.run);
    HeadInvariant(c, entered, b.lines);
    ReadBlockKeepsItsHeader(c, entered, b.lines);
    if entered.clean {
      CleanMeansRecomputes(c, entered, b.lines);
    } else {
      UncleanStaysUnclean(c, entered, b.lines);
    }
  }

  lemma {:induction false} StandsMeans(c: Codec, keys: Option<SignatureCheck>, r: Report, blocks: seq<Block>,
                                       run: RunId, i: nat)
    requires i < |blocks| && blocks[i].run == run
    requires forall j :: 0 <= j < |blocks| && blocks[j].run == run ==> j == i
    ensures Stands(c, keys, r, PassAt(c, blocks, i)) <==> OneHistory(c, keys, r, blocks, run, i)
  {
    hide ReadBlock, Recomputes, Recomputed, SignedHistory, LeafIsProved, HasSealingConclusion, SamePlace, Head,
         CarriedRaws;
    BlockReads(c, blocks[i]);
  }

  lemma OnlyMeans(c: Codec, passes: seq<Pass>, blocks: seq<Block>, run: RunId, i: nat)
    requires |passes| == |blocks| && forall j :: 0 <= j < |blocks| ==> passes[j] == PassAt(c, blocks, j)
    ensures Only(passes, i, run) <==>
            i < |blocks| && blocks[i].run == run && forall j :: 0 <= j < |blocks| && blocks[j].run == run ==> j == i
  {
    hide PassAt;
    forall j | 0 <= j < |blocks| ensures passes[j].run == blocks[j].run {
      PassNamesItsRun(c, blocks, j);
    }
  }

  /** The scan at the end of a file: every block closed, and the list exact. */
  lemma {:induction false} ScanAllTracks(c: Codec, keys: Option<SignatureCheck>, lines: seq<Line>)
    ensures var s := ScanAll(c, keys, lines);
            (s.report.unverifiable ==> s.report.sound == []) &&
            (!s.report.unverifiable ==>
               s.pass.None? && |s.closed| == |BlocksOf(lines)| && ListsExactly(c, keys, s) &&
               (forall i :: 0 <= i < |s.closed| ==> s.closed[i] == PassAt(c, BlocksOf(lines), i)) &&
               s.leaves == LeavesOf(c.hash, BlocksOf(lines)))
  {
    hide FinishRun, PassAt, LeavesOf, Scanned, Framed, ListsExactly;
    ScannedTracks(c, keys, lines);
    var s := Scanned(c, keys, Start, lines);
    var f := Framed(lines);
    if !s.report.unverifiable {
      if s.first {
        assert Passes(s) == [] && s.pass.None?;
        FinishOfNone(c, keys, s);
      } else {
        FinishKeeps(c, keys, s, f);
        FinishKeepsTheRules(c, keys, s);
        assert All(Frame(All(f), None, f.halted)) == All(f);
        assert Passes(FinishRun(c, keys, s)) == FinishRun(c, keys, s).closed;
      }
    }
  }

  lemma FinishOfNone(c: Codec, keys: Option<SignatureCheck>, s: Scan)
    requires s.pass.None?
    ensures FinishRun(c, keys, s) == s
  {
  }

  /** For every file, every set of keys and every set of anchors: a run is
      listed sound if and only if the file could be checked and some block is
      its one history. */
  lemma {:induction false} SoundMeans(c: Codec, keys: Option<SignatureCheck>, anchors: seq<Anchor>, lines: seq<Line>,
                                      run: RunId)
    ensures var r := Verify(c, keys, anchors, lines);
            var blocks := BlocksOf(lines);
            run in r.sound <==>
            !r.unverifiable && exists i :: 0 <= i < |blocks| && OneHistory(c, keys, r, blocks, run, i)
  {
    hide ScanAll, Settled, BlocksOf, PassAt, OneHistory, Stands, Only;
    var s := ScanAll(c, keys, lines);
    var r := Verify(c, keys, anchors, lines);
    var blocks := BlocksOf(lines);
    ScanAllTracks(c, keys, lines);
    if !s.report.unverifiable {
      SettledKeeps(c, s, anchors);
      assert Passes(s) == s.closed;
      forall i | 0 <= i < |blocks| && Only(Passes(s), i, run)
        ensures Stands(c, keys, s.report, s.closed[i]) <==> OneHistory(c, keys, r, blocks, run, i)
      {
        OnlyMeans(c, s.closed, blocks, run, i);
        StandsMeans(c, keys, r, blocks, run, i);
        StandsIsLocal(c, keys, s.report, r, s.closed[i]);
      }
      forall i | 0 <= i < |blocks| && OneHistory(c, keys, r, blocks, run, i)
        ensures Only(Passes(s), i, run)
      {
        HistoryIsOnly(c, keys, r, blocks, run, i);
        OnlyMeans(c, s.closed, blocks, run, i);
      }
    }
  }

  lemma {:induction false} HistoryIsOnly(c: Codec, keys: Option<SignatureCheck>, r: Report, blocks: seq<Block>,
                                         run: RunId, i: nat)
    requires OneHistory(c, keys, r, blocks, run, i)
    ensures i < |blocks| && blocks[i].run == run && forall j :: 0 <= j < |blocks| && blocks[j].run == run ==> j == i
  {
  }

  lemma SettledKeeps(c: Codec, s: Scan, anchors: seq<Anchor>)
    ensures var r := Settled(c, s, anchors);
            r.sound == s.report.sound && r.checkpoint == s.report.checkpoint && r.selection == s.report.selection &&
            r.complete == s.report.complete && r.unverifiable == s.report.unverifiable
  {
    hide SettlePackage, SettleWhole, SettleTrailer, SettleCases;
  }
}
