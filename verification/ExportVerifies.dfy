/** The writer meets the verifier, whatever the store did while the file was
    written: an export over distinct runs covering the log, and a package with
    every sealing conclusion placed, verify without a finding. */
module ExportVerifies {
  import opened Wrappers
  import opened Hashing
  import opened Merkle
  import opened Wire
  import opened VerifySpec
  import opened Planes
  import opened WriterSpec
  import opened HonestBlocks
  import opened WriterMeetsVerifier
  import opened LogOrder

  // ── What a writer's run satisfies ──────────────────────────────────────

  predicate OnceEach(runs: seq<RunId>) {
    forall i, j :: 0 <= i < j < |runs| ==> runs[i] != runs[j]
  }

  /** Every record taken is signed under `check`. */
  ghost predicate AllSigned(check: SignatureCheck, takens: seq<Taken>) {
    forall i, j | 0 <= i < |takens| && 0 <= j < |takens[i].records| ::
      takens[i].records[j].signature.Some? && check(takens[i].records[j].hash, takens[i].records[j].signature.value)
  }

  lemma {:induction false} RunIsTaken(takens: seq<Taken>, run: RunId) returns (i: nat)
    requires run in RunsTaken(takens)
    ensures i < |takens| && takens[i].run == run
  {
    var n := |takens| - 1;
    if run in RunsTaken(takens[..n]) {
      i := RunIsTaken(takens[..n], run);
    } else {
      i := n;
    }
  }

  lemma {:induction false} PlaceIsTaken(takens: seq<Taken>, place: nat) returns (i: nat)
    requires place in PlacesTaken(takens)
    ensures i < |takens| && takens[i].placed.Some? && takens[i].placed.value.0 == place
  {
    var n := |takens| - 1;
    if place in PlacesTaken(takens[..n]) {
      i := PlaceIsTaken(takens[..n], place);
    } else {
      i := n;
    }
  }

  /** Distinct runs of one log repeat neither a run nor a position. */
  lemma DistinctAreNext(p: Plane, takens: seq<Taken>)
    requires Positioned(p, takens) && Distinct(takens)
    ensures AllNext(takens)
  {
    hide PositionOf, RunsTaken, PlacesTaken;
    forall i | 0 <= i < |takens| ensures Next(takens[..i], takens[i]) {
      if takens[i].run in RunsTaken(takens[..i]) {
        var j := RunIsTaken(takens[..i], takens[i].run);
      }
      if takens[i].placed.Some? && takens[i].placed.value.0 in PlacesTaken(takens[..i]) {
        var j := PlaceIsTaken(takens[..i], takens[i].placed.value.0);
        PositionSays(p, takens[i].run);
        PositionSays(p, takens[j].run);
      }
    }
  }

  lemma HonestChain(c: Codec, run: RunId, records: seq<Record>)
    requires HonestRun(c, run, records)
    ensures ChainVerifies(c.hash, records, ZERO)
  {
    hide HonestRun, Chain;
    forall i | 0 <= i < |records| ensures LinksBack(c.hash, records, ZERO, i) {
      HonestLink(c, run, records, i);
      HonestLink(c, run, records, 0);
    }
  }

  lemma HonestLink(c: Codec, run: RunId, records: seq<Record>, i: nat)
    requires i < |records| && HonestRun(c, run, records)
    ensures records[i].body.seq_ == i + 1 && records[i].hash == Chain(c.hash, records[i].prev, records[i].raw)
    ensures records[i].prev == if i == 0 then ZERO else records[i - 1].hash
  {
    LinkSays(c, run, records, i);
    hide *;
    if i == 0 {
      assert records[..i] == [];
      NoHead(c.hash);
    } else {
      HonestPrefix(c, run, records, i);
      TerminalHash(c, run, records[..i]);
    }
  }

  lemma NoHead(h: Hash)
    ensures Hashing.Head(h, Raws([])) == ZERO
  {
  }

  lemma LinkSays(c: Codec, run: RunId, records: seq<Record>, i: nat)
    requires i < |records| && HonestRun(c, run, records)
    ensures records[i].body.seq_ == i + 1 && records[i].hash == Chain(c.hash, records[i].prev, records[i].raw)
    ensures records[i].prev == Hashing.Head(c.hash, Raws(records[..i]))
  {
    hide Hashing.Head, Chain, Uncanonical, Raws;
    assert HonestRecord(c, run, records, i);
  }

  lemma {:induction false} TakenCloses(c: Codec, keys: Option<SignatureCheck>, p0: Plane, p1: Plane, package: bool,
                                       takens: seq<Taken>, i: nat)
    requires i < |takens| && TakenFrom(c, p0, p1, package, takens[i]) && Honest(c, p0)
    requires keys.Some? ==> AllSigned(keys.value, takens)
    requires package && HasSealingConclusion(takens[i].records) ==> takens[i].placed.Some?
    ensures Closes(c, keys, package, CheckpointOf(c.hash, p0), takens[i])
  {
    hide HonestRun, HasSealingConclusion, PositionOf, LogHashes, Merkle.InclusionProof, ChainVerifies, LeafIsProved;
    var t := takens[i];
    if t.records != [] {
      PositionSays(p0, t.run);
      HonestChain(c, t.run, t.records);
      if package && t.placed.Some? {
        ProvesLeaf(c, p0, t);
      }
    }
  }

  lemma ProvesLeaf(c: Codec, p0: Plane, t: Taken)
    requires t.placed.Some? && t.placed == PositionOf(p0, t.run) && t.proof == PathFor(c.hash, p0, true, t.placed)
    ensures LeafIsProved(c.hash, t.placed.value.1, Some(t.placed.value.0), t.proof, CheckpointOf(c.hash, p0))
  {
    hide PositionOf, Merkle.InclusionProof, Included, LeafHashOf, Root;
    PositionSays(p0, t.run);
    InclusionIsComplete(c.hash, LogHashes(c.hash, p0, |p0.log|), t.placed.value.0);
  }

  // ── Settlement ─────────────────────────────────────────────────────────

  lemma {:induction false} AllDeclared(empty: seq<RunId>, declared: seq<RunId>)
    requires forall i :: 0 <= i < |empty| ==> empty[i] in declared
    ensures UndeclaredEmpty(empty, declared) == []
  {
    if empty != [] {
      AllDeclared(empty[..|empty| - 1], declared);
    }
  }

  lemma {:induction false} AllSelected(selected: seq<CaseId>, carried: set<CaseId>)
    requires forall i :: 0 <= i < |selected| ==> selected[i] in carried
    ensures SelectedMissing(selected, carried) == []
  {
    if selected != [] {
      AllSelected(selected[..|selected| - 1], carried);
    }
  }

  lemma CountsHold(c: Codec, cp: Checkpoint, selection: Option<Selection>, f: Scan, takens: seq<Taken>,
                   rows: seq<CaseRow>)
    requires After(c, cp, selection, f, takens)
    ensures SettleTrailer(Ended(CasesTaken(f, rows), TrailerFor(takens, rows))) == []
  {
    hide Exported, Unread, RecordTotal, StampsTaken, RunsTaken, PlacesTaken, LeavesTaken, IdsCarried, UndeclaredEmpty;
    assert [] + Unread(takens) == Unread(takens);
    AllDeclared(Unread(takens), Unread(takens));
  }

  lemma {:induction false} CasesHold(c: Codec, cp: Checkpoint, selection: Option<Selection>, f: Scan,
                                     takens: seq<Taken>, rows: seq<CaseRow>)
    requires After(c, cp, selection, f, takens) && StampsTaken(takens) <= IdsCarried(rows)
    requires selection.Some? ==> forall i :: 0 <= i < |selection.value.cases| ==>
        selection.value.cases[i] in IdsCarried(rows)
    ensures SettleCases(Ended(CasesTaken(f, rows), TrailerFor(takens, rows))) == []
  {
    hide Exported, Unread, RecordTotal, StampsTaken, RunsTaken, PlacesTaken, LeavesTaken, IdsCarried, SelectedMissing;
    assert {} + IdsCarried(rows) == IdsCarried(rows);
    assert StampsTaken(takens) - IdsCarried(rows) == {};
    if selection.Some? {
      AllSelected(selection.value.cases, IdsCarried(rows));
    }
  }

  /** A checkpoint the same log gave out no later than this plane. */
  ghost predicate Earlier(h: Hash, p: Plane, cp: Checkpoint) {
    exists k: nat :: k <= |p.log| && cp == CheckpointAt(h, p, k)
  }

  /** Whoever read a checkpoint before the log grew holds an earlier one. */
  lemma {:induction false} CheckpointsStayEarlier(c: Codec, q: Plane, p: Plane)
    requires Honest(c, q) && Grown(q, p)
    ensures Earlier(c.hash, p, CheckpointOf(c.hash, q))
  {
    hide Honest, LogHashes, Root;
    LogHashesStay(c, q, p, |q.log|);
    GrownLog(q, p);
    assert CheckpointOf(c.hash, q) == CheckpointAt(c.hash, p, |q.log|);
  }

  lemma {:induction false} AnchorHolds(h: Hash, p: Plane, anchor: Anchor)
    requires Earlier(h, p, anchor.checkpoint)
    ensures CompareAnchor(h, CheckpointOf(h, p), anchor, LogLeaves(h, p, |p.log|)) == []
    ensures ComparePackageAnchor(CheckpointOf(h, p), anchor) == []
  {
    hide Root, Hashes, LogHashes, LogLeaves, Contiguous;
    var k: nat :| k <= |p.log| && anchor.checkpoint == CheckpointAt(h, p, k);
    HashesOfLog(h, p, |p.log|, k);
  }

  lemma {:induction false} AnchorsHold(h: Hash, p: Plane, anchors: seq<Anchor>)
    requires forall i :: 0 <= i < |anchors| ==> Earlier(h, p, anchors[i].checkpoint)
    ensures CompareAnchors(h, CheckpointOf(h, p), anchors, LogLeaves(h, p, |p.log|)) == []
    ensures ComparePackageAnchors(CheckpointOf(h, p), anchors) == []
  {
    hide Earlier, CompareAnchor, ComparePackageAnchor;
    if anchors != [] {
      AnchorsHold(h, p, anchors[..|anchors| - 1]);
      AnchorHolds(h, p, anchors[|anchors| - 1]);
    }
  }

  lemma TreeHolds(h: Hash, p: Plane)
    ensures RebuiltTree(h, LogLeaves(h, p, |p.log|), CheckpointOf(h, p)) == []
  {
    hide Root, Hashes, LogHashes, LogLeaves, Contiguous;
    HashesOfLog(h, p, |p.log|, |p.log|);
    assert LogLeaves(h, p, |p.log|)[..|p.log|] == LogLeaves(h, p, |p.log|);
  }

  lemma {:induction false} SettlesQuietly(c: Codec, cp: Checkpoint, selection: Option<Selection>, f: Scan,
                                          takens: seq<Taken>, rows: seq<CaseRow>, anchors: seq<Anchor>)
    requires After(c, cp, selection, f, takens)
    requires var e := Ended(CasesTaken(f, rows), TrailerFor(takens, rows));
             SettleTrailer(e) == [] && SettleCases(e) == [] &&
             (if selection.Some? then SettlePackage(e, anchors) == [] else SettleWhole(c.hash, e, anchors) == [])
    ensures var r := Settled(c, Ended(CasesTaken(f, rows), TrailerFor(takens, rows)), anchors);
            IsSound(r) && r.sound == Exported(takens) && r.checkpoint == cp && r.selection == selection
  {
    hide Exported, Unread, RecordTotal, StampsTaken, RunsTaken, PlacesTaken, LeavesTaken, IdsCarried, SettleTrailer,
         SettleCases, SettlePackage, SettleWhole;
  }

  lemma {:induction false} WholeHolds(c: Codec, p: Plane, f: Scan, takens: seq<Taken>, rows: seq<CaseRow>,
                                      anchors: seq<Anchor>)
    requires After(c, CheckpointOf(c.hash, p), None, f, takens)
    requires Sorted(LeavesTaken(c.hash, takens)) == LogLeaves(c.hash, p, |p.log|)
    requires forall i :: 0 <= i < |anchors| ==> Earlier(c.hash, p, anchors[i].checkpoint)
    ensures SettleWhole(c.hash, Ended(CasesTaken(f, rows), TrailerFor(takens, rows)), anchors) == []
  {
    hide Exported, Unread, RecordTotal, StampsTaken, RunsTaken, PlacesTaken, LeavesTaken, IdsCarried, Sorted, LogLeaves,
         CompareAnchors, RebuiltTree, CheckpointOf;
    AnchorsHold(c.hash, p, anchors);
    TreeHolds(c.hash, p);
  }

  lemma {:induction false} PackageHolds(c: Codec, p: Plane, selection: Option<Selection>, f: Scan, takens: seq<Taken>,
                                        rows: seq<CaseRow>, anchors: seq<Anchor>)
    requires After(c, CheckpointOf(c.hash, p), selection, f, takens)
    requires forall i :: 0 <= i < |anchors| ==> Earlier(c.hash, p, anchors[i].checkpoint)
    ensures SettlePackage(Ended(CasesTaken(f, rows), TrailerFor(takens, rows)), anchors) == []
  {
    hide Exported, Unread, RecordTotal, StampsTaken, RunsTaken, PlacesTaken, LeavesTaken, IdsCarried,
         ComparePackageAnchors, CheckpointOf;
    AnchorsHold(c.hash, p, anchors);
  }

  // ── The two theorems ───────────────────────────────────────────────────

  /** What both theorems ask of the run of the writer and of the reader. */
  ghost predicate Written(c: Codec, keys: Option<SignatureCheck>, anchors: seq<Anchor>, p0: Plane, p1: Plane,
                          runs: seq<RunId>, package: Option<Selection>, takens: seq<Taken>, rows: seq<CaseRow>) {
    Honest(c, p0) && Grown(p0, p1) && WrittenFrom(c, p0, p1, runs, package, takens, rows) && OnceEach(runs) &&
    (keys.Some? ==> AllSigned(keys.value, takens)) &&
    (forall i :: 0 <= i < |anchors| ==> Earlier(c.hash, p0, anchors[i].checkpoint))
  }

  lemma {:induction false} WrittenSays(c: Codec, keys: Option<SignatureCheck>, anchors: seq<Anchor>, p0: Plane,
                                       p1: Plane, runs: seq<RunId>, package: Option<Selection>, takens: seq<Taken>,
                                       rows: seq<CaseRow>)
    requires Written(c, keys, anchors, p0, p1, runs, package, takens, rows)
    ensures Positioned(p0, takens) && Distinct(takens) && |takens| == |runs|
    ensures forall i :: 0 <= i < |takens| ==> takens[i].run == runs[i] && TakenFrom(c, p0, p1, package.Some?, takens[i])
    ensures forall a, b :: 0 <= a < b < |p0.log| ==> p0.log[a] != p0.log[b]
  {
    hide HonestRun, Stamped, PositionOf, AllSigned, Earlier, StampsTaken, IdsCarried, Grown;
  }

  /** A whole export over distinct runs covering everything sealed at its
      checkpoint verifies sound, with exactly the runs it could read, whatever
      was appended, concluded and sealed while it was written. */
  lemma {:induction false} WholeExportVerifies(c: Codec, keys: Option<SignatureCheck>, anchors: seq<Anchor>, p0: Plane,
                                               p1: Plane, runs: seq<RunId>, takens: seq<Taken>, rows: seq<CaseRow>)
    requires Written(c, keys, anchors, p0, p1, runs, None, takens, rows)
    requires forall k :: 0 <= k < |p0.log| ==> p0.log[k] in runs
    ensures var r := Verify(c, keys, anchors, FileOf(c, CheckpointOf(c.hash, p0), None, takens, rows));
            IsSound(r) && r.sound == Exported(takens) && r.checkpoint == CheckpointOf(c.hash, p0)
  {
    hide Closes, After, ScanAll, Settled, TakenFrom, PositionOf, Exported, CheckpointOf, FileOf, Sorted, LeavesTaken,
         LogLeaves, Positioned, Distinct, AllNext, Honest, WrittenFrom;
    var cp := CheckpointOf(c.hash, p0);
    WrittenSays(c, keys, anchors, p0, p1, runs, None, takens, rows);
    DistinctAreNext(p0, takens);
    forall i | 0 <= i < |takens| ensures Closes(c, keys, false, cp, takens[i]) {
      TakenCloses(c, keys, p0, p1, false, takens, i);
    }
    forall k | 0 <= k < |p0.log| ensures TakesRun(takens, p0.log[k]) {
      var i :| 0 <= i < |runs| && runs[i] == p0.log[k];
      assert takens[i].run == p0.log[k];
    }
    LeavesAreTheLog(c.hash, p0, takens);
    var f := WholeScan(c, keys, cp, None, takens, rows);
    WholeHolds(c, p0, f, takens, rows, anchors);
    CountsHold(c, cp, None, f, takens, rows);
    StampsCarried(c, p0, p1, runs, None, takens, rows);
    CasesHold(c, cp, None, f, takens, rows);
    SettlesQuietly(c, cp, None, f, takens, rows, anchors);
    EndIsReadable(c, cp, None, f, takens, rows);
  }

  lemma StampsCarried(c: Codec, p0: Plane, p1: Plane, runs: seq<RunId>, package: Option<Selection>, takens: seq<Taken>,
                      rows: seq<CaseRow>)
    requires WrittenFrom(c, p0, p1, runs, package, takens, rows)
    ensures StampsTaken(takens) <= IdsCarried(rows)
    ensures package.Some? ==> forall id :: id in package.value.cases && id in p0.cases ==> id in IdsCarried(rows)
  {
  }

  lemma EndIsReadable(c: Codec, cp: Checkpoint, selection: Option<Selection>, f: Scan, takens: seq<Taken>,
                      rows: seq<CaseRow>)
    requires After(c, cp, selection, f, takens)
    ensures !Ended(CasesTaken(f, rows), TrailerFor(takens, rows)).report.unverifiable
  {
    hide Exported, Unread, RecordTotal, StampsTaken, RunsTaken, PlacesTaken, LeavesTaken, IdsCarried;
  }

  /** A package in which every sealing conclusion is placed verifies sound. */
  lemma {:induction false} PackageVerifies(c: Codec, keys: Option<SignatureCheck>, anchors: seq<Anchor>, p0: Plane,
                                           p1: Plane, runs: seq<RunId>, selection: Selection, takens: seq<Taken>,
                                           rows: seq<CaseRow>)
    requires Written(c, keys, anchors, p0, p1, runs, Some(selection), takens, rows)
    requires Names(Some(selection))
    requires forall i :: 0 <= i < |selection.cases| ==> selection.cases[i] in p0.cases
    requires Unplaced(takens) == []
    ensures var r := Verify(c, keys, anchors, FileOf(c, CheckpointOf(c.hash, p0), Some(selection), takens, rows));
            IsSound(r) && r.sound == Exported(takens) && r.checkpoint == CheckpointOf(c.hash, p0) &&
            r.selection == Some(selection)
  {
    hide Closes, After, ScanAll, Settled, TakenFrom, PositionOf, Exported, CheckpointOf, FileOf, Unplaced, Positioned,
         Distinct, AllNext, Honest, WrittenFrom, HasSealingConclusion;
    var cp := CheckpointOf(c.hash, p0);
    var package := Some(selection);
    WrittenSays(c, keys, anchors, p0, p1, runs, package, takens, rows);
    DistinctAreNext(p0, takens);
    forall i | 0 <= i < |takens| ensures Closes(c, keys, true, cp, takens[i]) {
      NoneUnplaced(takens, i);
      TakenCloses(c, keys, p0, p1, true, takens, i);
    }
    var f := WholeScan(c, keys, cp, package, takens, rows);
    PackageHolds(c, p0, package, f, takens, rows, anchors);
    CountsHold(c, cp, package, f, takens, rows);
    StampsCarried(c, p0, p1, runs, package, takens, rows);
    CasesHold(c, cp, package, f, takens, rows);
    SettlesQuietly(c, cp, package, f, takens, rows, anchors);
    EndIsReadable(c, cp, package, f, takens, rows);
  }

  lemma {:induction false} NoneUnplaced(takens: seq<Taken>, i: nat)
    requires i < |takens| && Unplaced(takens) == []
    ensures HasSealingConclusion(takens[i].records) ==> takens[i].placed.Some?
  {
    hide HasSealingConclusion;
    if i < |takens| - 1 {
      NoneUnplaced(takens[..|takens| - 1], i);
    }
  }
}
