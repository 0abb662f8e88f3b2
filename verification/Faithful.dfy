/** Restoring a sound export: no hash is ever contradicted, every history comes
    back as it was, and the result is faithful exactly when every placed block
    carries a conclusion. */
module Faithful {
  import opened Wrappers
  import opened Hashing
  import opened Merkle
  import opened Wire
  import opened VerifySpec
  import opened Blocks
  import opened SoundList
  import opened Binding
  import opened Planes
  import opened Stores
  import opened ParseSpec
  import opened Replay
  import opened Acceptance
  import opened TwoReaders
  import opened SoundRestore

  // ── Histories ──────────────────────────────────────────────────────────

  /** Where a history's head stands after its first `j` lines. */
  lemma {:induction false} PrevIsHash(c: Codec, b: Block, records: seq<Record>, j: nat)
    requires j < |b.lines| && j < |records| && ReadsLine(c, b, records, j)
    ensures records[j].hash == Hashing.Head(c.hash, CarriedRaws(b.lines[..j + 1]))
    ensures records[j].hash == Chain(c.hash, records[j].prev, records[j].raw)
    ensures records[j].prev == Hashing.Head(c.hash, CarriedRaws(b.lines[..j])) && records[j].signature.None?
    ensures c.read(records[j].raw) == Readable(records[j].body)
  {
    hide Hashing.Head, Chain, Uncanonical, CarriedRaws;
    CarriedOfAppend(b.lines[..j], b.lines[j]);
    assert b.lines[..j] + [b.lines[j]] == b.lines[..j + 1];
    HeadOfAppend(c.hash, CarriedRaws(b.lines[..j]), b.lines[j].raw.value);
  }

  lemma LinePlaces(c: Codec, b: Block, records: seq<Record>, j: nat)
    requires j < |b.lines| && j < |records| && ReadsLine(c, b, records, j) && LineHolds(c, b.run, b.lines, j)
    ensures records[j].body.seq_ == j + 1 && records[j].body.run == b.run
  {
    hide Hashing.Head, Chain, Uncanonical, CarriedRaws;
  }

  lemma {:induction false} ReadReplaysAt(c: Codec, b: Block, r: Restored, j: nat)
    requires Reads(c, b, r) && Recomputes(c, b.run, b.lines) && j < |r.records|
    ensures ReplaysAt(c, r.run, r.records, j)
  {
    hide ReadsLine, LineHolds, CarriedRaws, Hashing.Head, Chain;
    assert LineHolds(c, b.run, b.lines, j);
    PrevIsHash(c, b, r.records, j);
    LinePlaces(c, b, r.records, j);
    if j > 0 {
      PrevIsHash(c, b, r.records, j - 1);
    } else {
      assert b.lines[..0] == [];
      HeadOfNothing(c.hash);
    }
  }

  lemma HeadOfNothing(h: Hash)
    ensures Hashing.Head(h, CarriedRaws([])) == ZERO
  {
  }

  lemma ReadReplays(c: Codec, b: Block, r: Restored)
    requires Reads(c, b, r) && Recomputes(c, b.run, b.lines)
    ensures Replays(c, r)
  {
    hide Reads, ReplaysAt, ReadsLine, Recomputes, Hashing.Head;
    ReadSays(c, b, r);
    forall j | 0 <= j < |r.records| ensures ReplaysAt(c, r.run, r.records, j) && r.hashes[j] == r.records[j].hash {
      ReadReplaysAt(c, b, r, j);
    }
  }

  lemma ReadEnds(c: Codec, b: Block, r: Restored)
    requires Reads(c, b, r)
    ensures r.records != [] ==> r.records[|r.records| - 1].hash == r.prev
  {
    hide *;
    ReadSays(c, b, r);
    if r.records != [] {
      var n := |r.records| - 1;
      PrevIsHash(c, b, r.records, n);
      assert b.lines[..n + 1] == b.lines;
    }
  }

  lemma ReadSays(c: Codec, b: Block, r: Restored)
    requires Reads(c, b, r)
    ensures r.run == b.run && |r.records| == |b.lines| == |r.hashes| &&
        r.prev == Hashing.Head(c.hash, CarriedRaws(b.lines))
    ensures forall j :: 0 <= j < |b.lines| ==> ReadsLine(c, b, r.records, j) && r.hashes[j] == r.records[j].hash
    ensures r.index == IndexOf(b.header) && r.outcome == ConcludedOutcome(r.records)
  {
    hide ReadsLine;
  }

  // ── Positions ──────────────────────────────────────────────────────────

  /** The leaf a restored run would be, by the head of its records. */
  function Keyed(h: Hash, runs: seq<Restored>): seq<Leaf> {
    if runs == [] then []
    else
      var r := runs[|runs| - 1];
      Keyed(h, runs[..|runs| - 1]) + (if r.index.Some? then [(r.index.value, LeafHashOf(h, r.prev))] else [])
  }

  ghost predicate Indexed(runs: seq<Restored>) {
    forall i :: 0 <= i < |runs| ==> runs[i].index.Some?
  }

  lemma {:induction false} KeyedInOrder(h: Hash, runs: seq<Restored>)
    requires Indexed(runs)
    ensures |Keyed(h, runs)| == |runs|
    ensures forall i :: 0 <= i < |runs| ==> Keyed(h, runs)[i] == (runs[i].index.value, LeafHashOf(h, runs[i].prev))
  {
    if runs != [] {
      KeyedInOrder(h, runs[..|runs| - 1]);
    }
  }

  lemma KeyedOfAppend(h: Hash, runs: seq<Restored>, r: Restored)
    ensures Keyed(h, runs + [r]) ==
            Keyed(h, runs) + (if r.index.Some? then [(r.index.value, LeafHashOf(h, r.prev))] else [])
  {
    assert (runs + [r])[..|runs|] == runs;
  }

  lemma {:induction false} InsertTogether(h: Hash, runs: seq<Restored>, r: Restored)
    requires Indexed(runs) && r.index.Some?
    ensures Keyed(h, InsertByIndex(runs, r)) == Insert(Keyed(h, runs), (r.index.value, LeafHashOf(h, r.prev)))
  {
    hide LeafHashOf, Keyed;
    KeyedInOrder(h, runs);
    if runs == [] || runs[|runs| - 1].index.value <= r.index.value {
      KeyedOfAppend(h, runs, r);
    } else {
      var n := |runs| - 1;
      InsertTogether(h, runs[..n], r);
      KeyedOfAppend(h, InsertByIndex(runs[..n], r), runs[n]);
      KeyedOfAppend(h, runs[..n], runs[n]);
      assert runs[..n] + [runs[n]] == runs;
    }
  }

  lemma SortedOfAppend(leaves: seq<Leaf>, x: Leaf)
    ensures Sorted(leaves + [x]) == Insert(Sorted(leaves), x)
  {
    hide Insert;
    assert (leaves + [x])[..|leaves|] == leaves;
  }

  /** The two sorts put the file's positions in one order. */
  lemma {:induction false} SortsTogether(h: Hash, runs: seq<Restored>)
    ensures Keyed(h, ByIndex(runs)) == Sorted(Keyed(h, runs))
  {
    hide LeafHashOf, InsertByIndex, Keyed, Sorted;
    if runs == [] {
      NothingKeyed(h);
    } else {
      var n := |runs| - 1;
      SortsTogether(h, runs[..n]);
      KeyedOfAppend(h, runs[..n], runs[n]);
      assert runs[..n] + [runs[n]] == runs;
      if runs[n].index.Some? {
        InsertTogether(h, ByIndex(runs[..n]), runs[n]);
        SortedOfAppend(Keyed(h, runs[..n]), (runs[n].index.value, LeafHashOf(h, runs[n].prev)));
      } else {
        assert Keyed(h, runs[..n]) + [] == Keyed(h, runs[..n]);
      }
    }
  }

  lemma NothingKeyed(h: Hash)
    ensures Keyed(h, []) == [] && Sorted([]) == []
  {
  }

  lemma {:induction false} InsertHolds(runs: seq<Restored>, r: Restored, x: Restored)
    requires Indexed(runs) && r.index.Some?
    ensures x in InsertByIndex(runs, r) <==> x in runs || x == r
  {
    if runs == [] || runs[|runs| - 1].index.value <= r.index.value {
    } else {
      InsertHolds(runs[..|runs| - 1], r, x);
      assert x in runs <==> x in runs[..|runs| - 1] || x == runs[|runs| - 1];
    }
  }

  lemma {:induction false} ByIndexHolds(runs: seq<Restored>, x: Restored)
    ensures x in ByIndex(runs) <==> x in runs && x.index.Some?
  {
    hide InsertByIndex;
    if runs != [] {
      var n := |runs| - 1;
      ByIndexHolds(runs[..n], x);
      assert x in runs <==> x in runs[..n] || x == runs[n];
      if runs[n].index.Some? {
        InsertHolds(ByIndex(runs[..n]), runs[n], x);
      }
    }
  }

  ghost predicate RunsApart(runs: seq<Restored>) {
    forall i, j :: 0 <= i < j < |runs| ==> runs[i].run != runs[j].run
  }

  lemma {:induction false} InsertApart(runs: seq<Restored>, r: Restored)
    requires Indexed(runs) && r.index.Some? && RunsApart(runs)
    requires forall i :: 0 <= i < |runs| ==> runs[i].run != r.run
    ensures RunsApart(InsertByIndex(runs, r))
  {
    if runs == [] || runs[|runs| - 1].index.value <= r.index.value {
    } else {
      var n := |runs| - 1;
      InsertApart(runs[..n], r);
      var inner := InsertByIndex(runs[..n], r);
      forall i | 0 <= i < |inner| ensures inner[i].run != runs[n].run {
        InsertHolds(runs[..n], r, inner[i]);
        assert inner[i] in inner;
      }
    }
  }

  lemma {:induction false} ByIndexApart(runs: seq<Restored>)
    requires RunsApart(runs)
    ensures RunsApart(ByIndex(runs))
  {
    hide InsertByIndex;
    if runs != [] {
      var n := |runs| - 1;
      ByIndexApart(runs[..n]);
      if runs[n].index.Some? {
        var front := ByIndex(runs[..n]);
        forall i | 0 <= i < |front| ensures front[i].run != runs[n].run {
          ByIndexHolds(runs[..n], front[i]);
          assert front[i] in front;
        }
        InsertApart(front, runs[n]);
      }
    }
  }

  // ── The rebuilt log ────────────────────────────────────────────────────

  lemma {:induction false} SealedCount(sorted: seq<Restored>)
    ensures |SealedOf(sorted)| <= |sorted|
    ensures |SealedOf(sorted)| == |sorted| <==> forall i :: 0 <= i < |sorted| ==> Sealable(sorted[i])
    ensures (forall i :: 0 <= i < |sorted| ==> Sealable(sorted[i])) ==>
              forall i :: 0 <= i < |sorted| ==> SealedOf(sorted)[i] == sorted[i].run
  {
    hide Sealable;
    if sorted != [] {
      SealedCount(sorted[..|sorted| - 1]);
    }
  }

  /** With every placed run sealed, the rebuilt leaves are the file's leaves. */
  lemma {:induction false} RebuiltLeaves(h: Hash, q: Plane, sorted: seq<Restored>)
    requires Indexed(sorted) && q.log == SealedOf(sorted)
    requires forall i :: 0 <= i < |sorted| ==> Sealable(sorted[i]) && SealOf(q, sorted[i].run) == sorted[i].prev
    ensures |q.log| == |sorted| && LogHashes(h, q, |q.log|) == Hashes(Keyed(h, sorted))
  {
    hide Keyed, Sealable, SealOf, LeafHashOf, LogHashes, Hashes;
    SealedCount(sorted);
    KeyedInOrder(h, sorted);
    forall i | 0 <= i < |sorted| ensures LogHashes(h, q, |q.log|)[i] == Hashes(Keyed(h, sorted))[i] {
    }
  }

  // ── A sound file's runs ────────────────────────────────────────────────

  /** What the two readers' agreement says of block `i` once the file is sound. */
  lemma {:induction false} SoundRun(c: Codec, keys: Option<SignatureCheck>, anchors: seq<Anchor>, lines: seq<Line>,
                                    i: nat)
    requires IsSound(Verify(c, keys, anchors, lines)) && AllPlain(lines) && i < |BlocksOf(lines)|
    ensures Parse(c, lines).Ok?
    ensures var blocks, runs := BlocksOf(lines), Parse(c, lines).value.runs;
            |runs| == |blocks| && runs[i].run == blocks[i].run && Replays(c, runs[i]) &&
            (runs[i].records != [] ==> runs[i].records[|runs[i].records| - 1].hash == runs[i].prev) &&
            (runs[i].index.Some? <==> Placed(blocks[i].header).Some?) &&
            (runs[i].index.Some? ==> runs[i].index.value == Placed(blocks[i].header).value.0) &&
            (runs[i].index.Some? && runs[i].records != [] ==> Placed(blocks[i].header).value.1 == runs[i].prev) &&
            runs[i].outcome == ConcludedOutcome(runs[i].records)
  {
    hide Verify, IsSound, Parse, BlocksOf, Replays, Reads, OneHistory, Placed;
    ReadersAgree(c, keys, anchors, lines);
    SoundBlocks(c, keys, anchors, lines);
    var blocks, runs := BlocksOf(lines), Parse(c, lines).value.runs;
    var r := Verify(c, keys, anchors, lines);
    ReadSays(c, blocks[i], runs[i]);
    if blocks[i].lines != [] {
      HistorySaysBlock(c, keys, r, blocks, i);
    } else {
      NothingRecomputes(c, blocks[i].run);
    }
    ReadReplays(c, blocks[i], runs[i]);
    ReadEnds(c, blocks[i], runs[i]);
  }

  lemma NothingRecomputes(c: Codec, run: RunId)
    ensures Recomputes(c, run, [])
  {
  }

  lemma {:induction false} HistorySaysBlock(c: Codec, keys: Option<SignatureCheck>, r: Report, blocks: seq<Block>,
                                            i: nat)
    requires i < |blocks| && OneHistory(c, keys, r, blocks, blocks[i].run, i)
    ensures Recomputes(c, blocks[i].run, blocks[i].lines)
    ensures Placed(blocks[i].header).Some? ==>
              Placed(blocks[i].header).value.1 == Hashing.Head(c.hash, CarriedRaws(blocks[i].lines))
  {
    hide ReadBlock, Recomputes, Recomputed, LeafIsProved, SignedHistory, HasSealingConclusion, Placed, Hashing.Head,
         CarriedRaws;
  }

  /** The runs of a sound file are distinct. */
  lemma {:induction false} SoundRunsApart(c: Codec, keys: Option<SignatureCheck>, anchors: seq<Anchor>,
                                          lines: seq<Line>)
    requires IsSound(Verify(c, keys, anchors, lines)) && AllPlain(lines)
    ensures Parse(c, lines).Ok?
    ensures RunsApart(Parse(c, lines).value.runs) && |Parse(c, lines).value.runs| == |BlocksOf(lines)|
  {
    hide Verify, IsSound, Parse, BlocksOf, Reads, OneHistory, SamePlace;
    ReadersAgree(c, keys, anchors, lines);
    SoundBlocks(c, keys, anchors, lines);
    var blocks, runs := BlocksOf(lines), Parse(c, lines).value.runs;
    forall i, j | 0 <= i < j < |runs| ensures runs[i].run != runs[j].run {
      assert Fresh(blocks, j);
      ReadSays(c, blocks[i], runs[i]);
      ReadSays(c, blocks[j], runs[j]);
    }
  }

  /** The parsed positions are the verifier's leaves, when every placed run
      carries records. */
  lemma {:induction false} LeavesAreKeyed(h: Hash, blocks: seq<Block>, runs: seq<Restored>)
    requires |blocks| == |runs|
    requires forall i :: 0 <= i < |runs| ==>
               (runs[i].index.Some? <==> Placed(blocks[i].header).Some?) &&
               (runs[i].index.Some? ==> runs[i].index.value == Placed(blocks[i].header).value.0)
    ensures |LeavesOf(h, blocks)| == |Keyed(h, runs)|
    ensures (forall i :: 0 <= i < |runs| && runs[i].index.Some? ==> Placed(blocks[i].header).value.1 == runs[i].prev) ==>
              LeavesOf(h, blocks) == Keyed(h, runs)
  {
    hide LeafHashOf, Placed;
    if runs != [] {
      LeavesAreKeyed(h, blocks[..|blocks| - 1], runs[..|runs| - 1]);
    }
  }

  // ── The theorem ────────────────────────────────────────────────────────

  /** A quiet store with no log of its own and none of the file's runs. */
  ghost predicate Receives(p: Plane, runs: seq<Restored>) {
    p.log == [] && forall i :: 0 <= i < |runs| ==> RecordsOf(p, runs[i].run) == []
  }

  lemma {:induction false} NoneHeld(p: Plane, runs: seq<Restored>)
    requires Receives(p, runs)
    ensures HeldAmong(p, runs).None?
  {
    if runs != [] {
      NoneHeld(p, runs[..|runs| - 1]);
    }
  }

  /** What `Restoring` comes to once nothing is refused. */
  lemma RestoringIs(c: Codec, p: Plane, parsed: Parsed)
    requires Receives(p, parsed.runs) && Refuse(false, parsed).None?
    ensures Restoring(c, p, map[], false, parsed) ==
            (var replayed := ReplayRuns(c, p, map[], parsed.runs);
             if replayed.Err? then replayed else SealRuns(replayed.value, map[], ByIndex(parsed.runs)))
  {
    hide ReplayRuns, SealRuns, Receives, HeldAmong, Refuse;
    NoneHeld(p, parsed.runs);
  }

  /** Every record is one a store takes, and every run to be sealed ends in its
      conclusion. */
  ghost predicate Fitting(runs: seq<Restored>) {
    AllFit(runs) &&
    forall i :: 0 <= i < |runs| ==> runs[i].index.Some? && Sealable(runs[i]) ==> Concluded(runs[i].records)
  }

  /** Replay and seal, given that the runs are distinct and replay. */
  lemma {:induction false} RestoresRuns(c: Codec, p: Plane, parsed: Parsed)
    requires Receives(p, parsed.runs) && Refuse(false, parsed).None? && RunsApart(parsed.runs)
    requires forall i :: 0 <= i < |parsed.runs| ==> Replays(c, parsed.runs[i])
    ensures var made := Restoring(c, p, map[], false, parsed);
            (made.Ok? <==> Fitting(parsed.runs)) &&
            (made.Err? ==> made.error == StoreFailed(if AllFit(parsed.runs) then NotConcluded else RecordTooLarge)) &&
            (made.Ok? ==> made.value == Overlay(p, parsed.runs).(log := SealedOf(ByIndex(parsed.runs))))
  {
    hide ReplayRuns, SealRuns, Replays, Overlay, ByIndex, SealedOf, AllFit, Sealable, Concluded, Restoring, Refuse;
    var runs := parsed.runs;
    RestoringIs(c, p, parsed);
    ReplaysRuns(c, p, runs);
    ByIndexApart(runs);
    NoLog(p, runs);
    SealsRuns(Overlay(p, runs), ByIndex(runs));
    AllConcludedMeans(p, runs);
  }

  lemma AllConcludedMeans(p: Plane, runs: seq<Restored>)
    requires Apart(p, runs)
    ensures AllConcluded(Overlay(p, runs), ByIndex(runs)) <==>
            forall i :: 0 <= i < |runs| ==> runs[i].index.Some? && Sealable(runs[i]) ==> Concluded(runs[i].records)
  {
    hide Overlay, ByIndex, Sealable, Concluded, Apart;
    var q, sorted := Overlay(p, runs), ByIndex(runs);
    if AllConcluded(q, sorted) {
      forall i | 0 <= i < |runs| && runs[i].index.Some? && Sealable(runs[i]) ensures Concluded(runs[i].records) {
        ByIndexHolds(runs, runs[i]);
        assert runs[i] in runs;
        var k :| 0 <= k < |sorted| && sorted[k] == runs[i];
        OverlayHolds(p, runs, i);
      }
    } else {
      var k :| 0 <= k < |sorted| && Sealable(sorted[k]) && !Concluded(RecordsOf(q, sorted[k].run));
      var i := PlacedRun(runs, k);
      OverlayHolds(p, runs, i);
    }
  }

  lemma {:induction false} NoLog(p: Plane, runs: seq<Restored>)
    ensures Overlay(p, runs).log == p.log
  {
    if runs != [] {
      NoLog(p, runs[..|runs| - 1]);
    }
  }

  lemma PlacedRun(runs: seq<Restored>, k: nat) returns (i: nat)
    requires k < |ByIndex(runs)|
    ensures i < |runs| && runs[i] == ByIndex(runs)[k] && runs[i].index.Some?
  {
    hide ByIndex;
    ByIndexHolds(runs, ByIndex(runs)[k]);
    assert ByIndex(runs)[k] in ByIndex(runs);
    i :| 0 <= i < |runs| && runs[i] == ByIndex(runs)[k];
  }

  lemma EveryPlaced(runs: seq<Restored>)
    ensures (forall k :: 0 <= k < |ByIndex(runs)| ==> Sealable(ByIndex(runs)[k])) <==>
            forall i :: 0 <= i < |runs| && runs[i].index.Some? ==> Sealable(runs[i])
  {
    hide ByIndex, Sealable;
    if forall k :: 0 <= k < |ByIndex(runs)| ==> Sealable(ByIndex(runs)[k]) {
      forall i | 0 <= i < |runs| && runs[i].index.Some? ensures Sealable(runs[i]) {
        ByIndexHolds(runs, runs[i]);
        assert runs[i] in runs;
        var k :| 0 <= k < |ByIndex(runs)| && ByIndex(runs)[k] == runs[i];
      }
    } else {
      var k :| 0 <= k < |ByIndex(runs)| && !Sealable(ByIndex(runs)[k]);
      var i := PlacedRun(runs, k);
    }
  }

  /** The header's checkpoint is the tree over the file's leaves. */
  lemma {:induction false} SoundTree(c: Codec, keys: Option<SignatureCheck>, anchors: seq<Anchor>, lines: seq<Line>)
    requires IsSound(Verify(c, keys, anchors, lines)) && Verify(c, keys, anchors, lines).selection.None?
    ensures var r, leaves := Verify(c, keys, anchors, lines), LeavesOf(c.hash, BlocksOf(lines));
            |leaves| == r.checkpoint.size && r.checkpoint.root == Root(c.hash, Hashes(Sorted(leaves)))
  {
    hide ScanAll, Settled, BlocksOf, LeavesOf, PassAt, Sorted, SettleWhole, Hashes, Root, Contiguous;
    var s := ScanAll(c, keys, lines);
    SoundIsSettled(c, keys, anchors, lines);
    ScanAllTracks(c, keys, lines);
    SettledQuietly(c, s, anchors);
    SettledKeeps(c, s, anchors);
    WholeQuietly(c.hash, s, anchors);
    SortedKeeps(s.leaves);
    TreeQuietly(c.hash, Sorted(s.leaves), s.report.checkpoint);
  }

  lemma TreeQuietly(h: Hash, leaves: seq<Leaf>, against: Checkpoint)
    requires RebuiltTree(h, leaves, against) == []
    ensures |leaves| == against.size && against.root == Root(h, Hashes(leaves))
  {
    hide Root, Hashes;
  }

  /** Restoring a sound whole export into a quiet store never contradicts a
      hash and is never refused before writing: it succeeds if and only if
      every record is one the store takes and every placed run to be sealed
      ends in its conclusion, and stops at the store's own refusal otherwise.
      What it rebuilds holds every run's records as the file has them, and is
      faithful if and only if every placed block carries a conclusion to seal. */
  lemma {:induction false} RestoresSound(c: Codec, keys: Option<SignatureCheck>, anchors: seq<Anchor>, lines: seq<Line>,
                                         p: Plane)
    requires IsSound(Verify(c, keys, anchors, lines)) && AllPlain(lines)
    requires Parse(c, lines).Ok? ==> Receives(p, Parse(c, lines).value.runs)
    ensures Parse(c, lines).Ok?
    ensures var parsed := Parse(c, lines).value;
            var made := Restoring(c, p, map[], false, parsed);
            (made.Ok? <==> Fitting(parsed.runs)) &&
            (made.Err? ==> made.error == StoreFailed(if AllFit(parsed.runs) then NotConcluded else RecordTooLarge)) &&
            (made.Ok? ==>
               made.value.log == SealedOf(ByIndex(parsed.runs)) &&
               (forall i :: 0 <= i < |parsed.runs| ==>
                  RecordsOf(made.value, parsed.runs[i].run) == parsed.runs[i].records) &&
               (IsFaithful(parsed.checkpoint, CheckpointOf(c.hash, made.value)) <==>
                forall i :: 0 <= i < |parsed.runs| && parsed.runs[i].index.Some? ==> Sealable(parsed.runs[i])))
  {
    hide Verify, IsSound, Parse, Restoring, Replays, RunsApart, Sealable, ByIndex, SealedOf, CheckpointOf, Receives,
         Overlay, Fitting, IsFaithful, AllFit, AllPlain;
    SoundParses(c, keys, anchors, lines);
    var parsed := Parse(c, lines).value;
    var made := Restoring(c, p, map[], false, parsed);
    ReadersAgreeOnRule(c, keys, anchors, lines);
    SoundRunsApart(c, keys, anchors, lines);
    forall i | 0 <= i < |parsed.runs| ensures Replays(c, parsed.runs[i]) {
      SoundRun(c, keys, anchors, lines, i);
    }
    RestoresRuns(c, p, parsed);
    if made.Ok? {
      forall i | 0 <= i < |parsed.runs| ensures RecordsOf(made.value, parsed.runs[i].run) == parsed.runs[i].records {
        ApartFrom(p, parsed.runs);
        OverlayHolds(p, parsed.runs, i);
        LogAside(Overlay(p, parsed.runs), SealedOf(ByIndex(parsed.runs)), parsed.runs[i].run);
      }
      RebuiltFaithfully(c, keys, anchors, lines, made.value);
    }
  }

  lemma {:induction false} ReadersAgreeOnRule(c: Codec, keys: Option<SignatureCheck>, anchors: seq<Anchor>,
                                              lines: seq<Line>)
    requires IsSound(Verify(c, keys, anchors, lines)) && AllPlain(lines)
    ensures Parse(c, lines).Ok?
    ensures Refuse(false, Parse(c, lines).value).None?
    ensures Parse(c, lines).value.checkpoint == Verify(c, keys, anchors, lines).checkpoint
    ensures Verify(c, keys, anchors, lines).selection.None?
  {
    hide Verify, IsSound, Parse, BlocksOf, Reads, SamePosition;
    ReadersAgree(c, keys, anchors, lines);
  }

  lemma ApartFrom(p: Plane, runs: seq<Restored>)
    requires Receives(p, runs) && RunsApart(runs)
    ensures SoundRestore.Apart(p, runs)
  {
  }

  lemma LogAside(p: Plane, log: seq<RunId>, run: RunId)
    ensures RecordsOf(p.(log := log), run) == RecordsOf(p, run) && SealOf(p.(log := log), run) == SealOf(p, run)
  {
  }

  lemma SealIsLast(p: Plane, run: RunId)
    requires RecordsOf(p, run) != []
    ensures SealOf(p, run) == RecordsOf(p, run)[|RecordsOf(p, run)| - 1].hash
  {
  }

  lemma {:induction false} RebuiltFaithfully(c: Codec, keys: Option<SignatureCheck>, anchors: seq<Anchor>,
                                             lines: seq<Line>, q: Plane)
    requires IsSound(Verify(c, keys, anchors, lines)) && AllPlain(lines) && Parse(c, lines).Ok?
    requires var runs := Parse(c, lines).value.runs;
             q.log == SealedOf(ByIndex(runs)) &&
             forall i :: 0 <= i < |runs| ==> RecordsOf(q, runs[i].run) == runs[i].records
    ensures var parsed := Parse(c, lines).value;
            IsFaithful(parsed.checkpoint, CheckpointOf(c.hash, q)) <==>
            forall i :: 0 <= i < |parsed.runs| && parsed.runs[i].index.Some? ==> Sealable(parsed.runs[i])
  {
    hide Verify, IsSound, Parse, ByIndex, SealedOf, BlocksOf, LeavesOf, Keyed, Sorted, Hashes, Root, LogHashes,
         RecordsOf, Replays, Placed, ConcludedOutcome, SealOf, Sealable;
    var parsed, blocks := Parse(c, lines).value, BlocksOf(lines);
    var runs := parsed.runs;
    var sorted := ByIndex(runs);
    ReadersAgreeOnRule(c, keys, anchors, lines);
    SoundTree(c, keys, anchors, lines);
    SoundRunsApart(c, keys, anchors, lines);
    forall i | 0 <= i < |runs|
      ensures runs[i].index.Some? <==> Placed(blocks[i].header).Some?
      ensures runs[i].index.Some? ==> runs[i].index.value == Placed(blocks[i].header).value.0
      ensures runs[i].index.Some? && Sealable(runs[i]) ==>
                Placed(blocks[i].header).value.1 == runs[i].prev && SealOf(q, runs[i].run) == runs[i].prev
    {
      SoundRun(c, keys, anchors, lines, i);
      if Sealable(runs[i]) {
        SealableSays(runs[i]);
        SealIsLast(q, runs[i].run);
      }
    }
    LeavesAreKeyed(c.hash, blocks, runs);
    SortsTogether(c.hash, runs);
    KeyedInOrder(c.hash, sorted);
    SortedKeeps(Keyed(c.hash, runs));
    SealedCount(sorted);
    EveryPlaced(runs);
    CheckpointSays(c.hash, q);
    if forall k :: 0 <= k < |sorted| ==> Sealable(sorted[k]) {
      forall k | 0 <= k < |sorted| ensures SealOf(q, sorted[k].run) == sorted[k].prev {
        var i := PlacedRun(runs, k);
      }
      RebuiltLeaves(c.hash, q, sorted);
    }
  }

  lemma SealableSays(r: Restored)
    requires Sealable(r)
    ensures r.records != []
  {
  }

  lemma CheckpointSays(h: Hash, q: Plane)
    ensures CheckpointOf(h, q).size == |q.log| && CheckpointOf(h, q).root == Root(h, LogHashes(h, q, |q.log|))
  {
    hide Root, LogHashes;
  }
}
