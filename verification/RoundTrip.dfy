/** Export, then restore: a complete export of an honest store, put back into an
    empty one, is the same histories under the same commitment. */
module RoundTrip {
  import opened Wrappers
  import opened Hashing
  import opened Merkle
  import opened Wire
  import opened VerifySpec
  import opened Blocks
  import opened Binding
  import opened Planes
  import opened Stores
  import opened WriterSpec
  import opened HonestBlocks
  import opened WriterMeetsVerifier
  import opened LogOrder
  import opened ExportVerifies
  import opened FileBlocks
  import opened ParseSpec
  import opened Replay
  import opened Acceptance
  import opened TwoReaders
  import opened QuietFiles
  import opened AcceptedFiles
  import opened SoundRestore
  import opened Faithful

  // ── A written file parses ──────────────────────────────────────────────

  lemma HonestReplays(c: Codec, run: RunId, records: seq<Record>, j: nat)
    requires j < |records| && HonestRecord(c, run, records, j)
    ensures Replayable(c, records[j].raw, Hashing.Head(c.hash, Raws(records[..j])), records[j].hash) ==
            Ok(records[j].(signature := None))
    ensures records[j].hash == Hashing.Head(c.hash, Raws(records[..j + 1]))
  {
    hide Hashing.Head, Chain, Uncanonical, Raws;
    RawsOfAppend(records[..j], records[j]);
    assert records[..j] + [records[j]] == records[..j + 1];
    HeadOfAppend(c.hash, Raws(records[..j]), records[j].raw);
  }

  /** The reader has reached record `j` of the run it is in. */
  ghost predicate At(c: Codec, s: Reader, records: seq<Record>, j: nat)
    requires j <= |records|
  {
    s.parsed.runs != [] && s.parsed.runs[|s.parsed.runs| - 1].prev == Hashing.Head(c.hash, Raws(records[..j]))
  }

  /** What later lines leave of what was read. */
  ghost predicate Counting(s: Reader, runBlocks: nat, records: nat) {
    s.runBlocks == runBlocks && s.records == records && !s.parsed.complete && s.declared.None?
  }

  lemma {:induction false} ReadsHonestLine(c: Codec, run: RunId, s: Reader, records: seq<Record>, j: nat)
    requires j < |records| && HonestRecord(c, run, records, j) && At(c, s, records, j)
    ensures var next := ReadLine(c, s, RecordLine(RecordFor(c, records[j])));
            next.Ok? && At(c, next.value, records, j + 1) &&
            (Counting(s, s.runBlocks, s.records) ==> Counting(next.value, s.runBlocks, s.records + 1))
  {
    hide Hashing.Head, Raws, Replayable, HonestRecord;
    HonestReplays(c, run, records, j);
  }

  lemma {:induction false} ReadsRecords(c: Codec, run: RunId, front: seq<Line>, s: Reader, records: seq<Record>, n: nat)
    requires n <= |records| && forall j :: 0 <= j < |records| ==> HonestRecord(c, run, records, j)
    requires ReadLines(c, front) == Ok(s) && At(c, s, records, 0) && Counting(s, s.runBlocks, s.records)
    ensures var read := ReadLines(c, front + AsLines(RecordsFor(c, records[..n])));
            read.Ok? && At(c, read.value, records, n) && Counting(read.value, s.runBlocks, s.records + n)
  {
    hide ReadLine, ReadLines, At, HonestRecord, Counting, AsLines, RecordsFor;
    if n == 0 {
      assert AsLines(RecordsFor(c, records[..0])) == [];
      assert front + AsLines(RecordsFor(c, records[..0])) == front;
    } else {
      var m := n - 1;
      ReadsRecords(c, run, front, s, records, m);
      LinesGrow(c, front, records, m);
      ReadLinesOfAppend(c, front + AsLines(RecordsFor(c, records[..m])), RecordLine(RecordFor(c, records[m])));
      var t := ReadLines(c, front + AsLines(RecordsFor(c, records[..m]))).value;
      CountingSays(t, s.runBlocks, s.records + m);
      ReadsHonestLine(c, run, t, records, m);
    }
  }

  lemma CountingSays(s: Reader, runBlocks: nat, records: nat)
    requires Counting(s, runBlocks, records)
    ensures s.runBlocks == runBlocks && s.records == records
  {
  }

  lemma LinesGrow(c: Codec, front: seq<Line>, records: seq<Record>, m: nat)
    requires m < |records|
    ensures front + AsLines(RecordsFor(c, records[..m + 1])) ==
            front + AsLines(RecordsFor(c, records[..m])) + [RecordLine(RecordFor(c, records[m]))]
  {
    hide *;
    var a, b := AsLines(RecordsFor(c, records[..m + 1])), AsLines(RecordsFor(c, records[..m]));
    assert a == b + [RecordLine(RecordFor(c, records[m]))];
  }

  lemma ReadsBlockLine(c: Codec, s: Reader, t: Taken)
    requires Counting(s, s.runBlocks, s.records)
    ensures var next := ReadLine(c, s, RunLine(BlockHeader(t)));
            next.Ok? && At(c, next.value, t.records, 0) && Counting(next.value, s.runBlocks + 1, s.records)
  {
    assert t.records[..0] == [];
  }

  lemma {:induction false} ReadsWrittenBlock(c: Codec, front: seq<Line>, s: Reader, t: Taken)
    requires ReadLines(c, front) == Ok(s) && Counting(s, s.runBlocks, s.records)
    requires t.records != [] ==> HonestRun(c, t.run, t.records)
    ensures var read := ReadLines(c, front + BlockLines(c, t));
            read.Ok? && Counting(read.value, s.runBlocks + 1, s.records + |t.records|)
  {
    hide ReadLine, ReadLines, At, HonestRecord, AsLines, RecordsFor, BlockHeader, Counting;
    var opening := RunLine(BlockHeader(t));
    ReadsBlockLine(c, s, t);
    ReadLinesOfAppend(c, front, opening);
    var next := ReadLines(c, front + [opening]).value;
    CountingSays(next, s.runBlocks + 1, s.records);
    ReadsRecords(c, t.run, front + [opening], next, t.records, |t.records|);
    assert t.records[..|t.records|] == t.records;
    assert front + BlockLines(c, t) == front + [opening] + AsLines(RecordsFor(c, t.records));
  }

  lemma {:induction false} ReadsBlocks(c: Codec, header: Line, takens: seq<Taken>)
    requires ReadLines(c, [header]).Ok? && Counting(ReadLines(c, [header]).value, 0, 0)
    requires forall i :: 0 <= i < |takens| ==> takens[i].records != [] ==> HonestRun(c, takens[i].run, takens[i].records)
    ensures var read := ReadLines(c, [header] + BlocksLines(c, takens));
            read.Ok? && Counting(read.value, |takens|, RecordTotal(takens))
  {
    hide ReadLine, ReadLines, HonestRun, BlockLines, Counting;
    if takens == [] {
      assert [header] + BlocksLines(c, takens) == [header];
    } else {
      var n := |takens| - 1;
      ReadsBlocks(c, header, takens[..n]);
      var front := [header] + BlocksLines(c, takens[..n]);
      CountingSays(ReadLines(c, front).value, n, RecordTotal(takens[..n]));
      ReadsWrittenBlock(c, front, ReadLines(c, front).value, takens[n]);
      assert [header] + BlocksLines(c, takens) == front + BlockLines(c, takens[n]);
    }
  }

  lemma {:induction false} ReadsCases(c: Codec, front: seq<Line>, s: Reader, rows: seq<CaseRow>)
    requires ReadLines(c, front) == Ok(s) && Counting(s, s.runBlocks, s.records)
    ensures var read := ReadLines(c, front + CasesLines(rows));
            read.Ok? && Counting(read.value, s.runBlocks, s.records)
  {
    hide ReadLines;
    if rows == [] {
      assert front + CasesLines(rows) == front;
    } else {
      var n := |rows| - 1;
      ReadsCases(c, front, s, rows[..n]);
      ReadLinesOfAppend(c, front + CasesLines(rows[..n]), CaseLine(CaseFor(rows[n])));
      assert front + CasesLines(rows) == front + CasesLines(rows[..n]) + [CaseLine(CaseFor(rows[n]))];
    }
  }

  lemma ReadsHeader(c: Codec, cp: Checkpoint)
    ensures var read := ReadLines(c, [HeaderFor(cp, None)]); read.Ok? && Counting(read.value, 0, 0)
  {
    hide ReadLines;
    ReadLinesOfAppend(c, [], HeaderFor(cp, None));
    assert [] + [HeaderFor(cp, None)] == [HeaderFor(cp, None)];
    NothingReadYet(c);
  }

  lemma NothingReadYet(c: Codec)
    ensures ReadLines(c, []) == Ok(ParseSpec.Unread)
  {
  }

  lemma {:induction false} ReadsTrailer(c: Codec, s: Reader, takens: seq<Taken>, rows: seq<CaseRow>)
    requires Counting(s, |takens|, RecordTotal(takens))
    ensures var read := ReadLine(c, s, EndLine(TrailerFor(takens, rows))); read.Ok? && Held(read.value).Ok?
  {
    hide RecordTotal, Exported, WriterSpec.Unread;
  }

  /** The restore's reader accepts every whole export a writer writes. */
  lemma {:induction false} WrittenParses(c: Codec, cp: Checkpoint, takens: seq<Taken>, rows: seq<CaseRow>)
    requires forall i :: 0 <= i < |takens| ==> takens[i].records != [] ==> HonestRun(c, takens[i].run, takens[i].records)
    ensures Parse(c, FileOf(c, cp, None, takens, rows)).Ok?
  {
    hide ReadLine, ReadLines, HonestRun, BlocksLines, CasesLines, TrailerFor, HeaderFor, Counting, Held, RecordTotal;
    var header := HeaderFor(cp, None);
    var blocks := [header] + BlocksLines(c, takens);
    var end := EndLine(TrailerFor(takens, rows));
    ReadsHeader(c, cp);
    ReadsBlocks(c, header, takens);
    var s := ReadLines(c, blocks).value;
    CountingSays(s, |takens|, RecordTotal(takens));
    ReadsCases(c, blocks, s, rows);
    ReadLinesOfAppend(c, blocks + CasesLines(rows), end);
    ReadsTrailer(c, ReadLines(c, blocks + CasesLines(rows)).value, takens, rows);
  }

  // ── The case layer ─────────────────────────────────────────────────────

  ghost predicate NoCaseLines(lines: seq<Line>) {
    forall i :: 0 <= i < |lines| ==> !lines[i].CaseLine?
  }

  lemma {:induction false} NothingToRead(lines: seq<Line>)
    requires NoCaseLines(lines)
    ensures CasesRead(lines) == []
  {
    if lines != [] {
      NothingToRead(lines[..|lines| - 1]);
    }
  }

  lemma {:induction false} CasesReadOfConcat(a: seq<Line>, b: seq<Line>)
    ensures CasesRead(a + b) == CasesRead(a) + CasesRead(b)
    decreases |b|
  {
    if b == [] {
      assert a + b == a;
    } else {
      assert (a + b)[..|a + b| - 1] == a + b[..|b| - 1];
      CasesReadOfConcat(a, b[..|b| - 1]);
    }
  }

  lemma {:induction false} BlocksHaveNoCase(c: Codec, takens: seq<Taken>)
    ensures NoCaseLines(BlocksLines(c, takens))
  {
    if takens != [] {
      BlocksHaveNoCase(c, takens[..|takens| - 1]);
    }
  }

  lemma {:induction false} RowsReadBack(rows: seq<CaseRow>)
    ensures var cases := CasesRead(CasesLines(rows));
            |cases| == |rows| && forall i :: 0 <= i < |rows| ==> SameCase(cases[i], rows[i])
  {
    if rows != [] {
      RowsReadBack(rows[..|rows| - 1]);
    }
  }

  /** Everything a row holds. */
  predicate SameCase(found: RestoredCase, row: CaseRow) {
    found.case_ == row.case_ && found.deadlines == row.deadlines && found.blobs == row.blobs && found.hold == row.hold &&
    found.erasure == row.erasure
  }

  /** A whole export gives back every case row as the store held it. */
  lemma {:induction false} CasesReadBack(c: Codec, cp: Checkpoint, takens: seq<Taken>, rows: seq<CaseRow>)
    requires forall i :: 0 <= i < |takens| ==> takens[i].records != [] ==> HonestRun(c, takens[i].run, takens[i].records)
    ensures Parse(c, FileOf(c, cp, None, takens, rows)).Ok?
    ensures var cases := Parse(c, FileOf(c, cp, None, takens, rows)).value.cases;
            |cases| == |rows| && forall i :: 0 <= i < |rows| ==> SameCase(cases[i], rows[i])
  {
    hide Parse, HonestRun, BlocksLines, CasesLines, CasesRead, TrailerFor, HeaderFor, LastHeader, LastCheckpoint,
         LastTrailer, BlocksOf, SignedLines, SameCase;
    WrittenParses(c, cp, takens, rows);
    ParsedExactly(c, FileOf(c, cp, None, takens, rows));
    var header, blocks := [HeaderFor(cp, None)], BlocksLines(c, takens);
    var cases, end := CasesLines(rows), [EndLine(TrailerFor(takens, rows))];
    CasesReadOfConcat(header + blocks + cases, end);
    CasesReadOfConcat(header + blocks, cases);
    CasesReadOfConcat(header, blocks);
    HeaderIsNoCase(cp);
    NothingToRead(header);
    NothingToRead(end);
    BlocksHaveNoCase(c, takens);
    NothingToRead(blocks);
    RowsReadBack(rows);
  }

  lemma HeaderIsNoCase(cp: Checkpoint)
    ensures !HeaderFor(cp, None).CaseLine?
  {
  }

  // ── The round trip ─────────────────────────────────────────────────────

  /** A history as a restore brings it back: every byte, hash and epoch, and the
      signatures left to the store that holds it now. */
  function Unsigned(records: seq<Record>): (plain: seq<Record>)
    ensures |plain| == |records|
    ensures forall i :: 0 <= i < |records| ==> plain[i] == records[i].(signature := None)
  {
    if records == [] then [] else Unsigned(records[..|records| - 1]) + [records[|records| - 1].(signature := None)]
  }

  lemma ReadsWritten(c: Codec, t: Taken, r: Restored)
    requires Reads(c, BlockOf(c, t), r) && (t.records != [] ==> HonestRun(c, t.run, t.records))
    ensures r.run == t.run && r.records == Unsigned(t.records) && r.outcome == ConcludedOutcome(r.records)
    ensures r.index == (match t.placed case Some(at) => Some(at.0) case None => None)
  {
    hide Unsigned, ReadsLine, HonestRecord, RecordsFor, ConcludedOutcome;
    var b := BlockOf(c, t);
    forall j | 0 <= j < |t.records| ensures r.records[j] == Unsigned(t.records)[j] {
      LineReadsBack(c, t, r.records, j);
    }
  }

  lemma LineReadsBack(c: Codec, t: Taken, records: seq<Record>, j: nat)
    requires j < |t.records| && j < |records| && HonestRecord(c, t.run, t.records, j)
    requires ReadsLine(c, BlockOf(c, t), records, j)
    ensures records[j] == t.records[j].(signature := None)
  {
    hide Hashing.Head, Chain, Uncanonical, CarriedRaws, Raws, RecordsFor;
    CarriedBefore(c, t.records, j);
  }

  lemma {:induction false} OutcomeUnsigned(records: seq<Record>)
    ensures ConcludedOutcome(Unsigned(records)) == ConcludedOutcome(records)
    ensures Concluded(Unsigned(records)) == Concluded(records)
    ensures Concluded(records) ==> ConcludedOutcome(records).Some?
  {
    if records != [] {
      OutcomeUnsigned(records[..|records| - 1]);
      assert Unsigned(records)[..|records| - 1] == Unsigned(records[..|records| - 1]);
    }
  }

  /** A run sealed at the checkpoint is read in full: nothing placed is missing
      from a complete export. */
  ghost predicate Complete(takens: seq<Taken>) {
    forall i :: 0 <= i < |takens| ==> takens[i].placed.Some? ==> takens[i].records != []
  }

  /** What the file says of run `i`, as the restore's reader has it. */
  lemma {:induction false} RunReadsBack(c: Codec, keys: Option<SignatureCheck>, anchors: seq<Anchor>, p0: Plane,
                                        p1: Plane, runs: seq<RunId>, takens: seq<Taken>, rows: seq<CaseRow>, i: nat)
    requires Written(c, keys, anchors, p0, p1, runs, None, takens, rows) && i < |takens|
    requires var file := FileOf(c, CheckpointOf(c.hash, p0), None, takens, rows);
             IsSound(Verify(c, keys, anchors, file)) && Parse(c, file).Ok?
    ensures var parsed := Parse(c, FileOf(c, CheckpointOf(c.hash, p0), None, takens, rows)).value;
            |parsed.runs| == |takens| &&
            var r := parsed.runs[i];
            r.run == takens[i].run && r.records == Unsigned(takens[i].records) &&
            r.index == (match takens[i].placed case Some(at) => Some(at.0) case None => None) &&
            r.outcome == ConcludedOutcome(takens[i].records)
  {
    hide Verify, IsSound, Parse, AllPlain, FileOf, BlocksOf, Reads, CheckpointOf, HonestRun, SamePosition, Written;
    var file := FileOf(c, CheckpointOf(c.hash, p0), None, takens, rows);
    SoundParses(c, keys, anchors, file);
    ReadersAgree(c, keys, anchors, file);
    BlocksOfFile(c, CheckpointOf(c.hash, p0), None, takens, rows);
    WrittenSays(c, keys, anchors, p0, p1, runs, None, takens, rows);
    ReadsWritten(c, takens[i], Parse(c, file).value.runs[i]);
    OutcomeUnsigned(takens[i].records);
  }

  lemma HonestFits(c: Codec, run: RunId, records: seq<Record>)
    requires HonestRun(c, run, records)
    ensures Fits(Unsigned(records))
  {
    hide Hashing.Head, Chain, Uncanonical, Raws, Unsigned;
    forall j | 0 <= j < |records| ensures |Unsigned(records)[j].raw| <= MAX_RECORD_BYTES {
      assert HonestRecord(c, run, records, j);
    }
  }

  /** A placed run of a complete export ends in its conclusion. */
  lemma PlacedIsConcluded(c: Codec, p0: Plane, p1: Plane, t: Taken)
    requires Honest(c, p0) && TakenFrom(c, p0, p1, false, t) && t.placed.Some? && t.records != []
    ensures Concluded(t.records)
  {
    hide HonestRun, Stamped, PositionOf, PathFor, Concluded;
    PositionSays(p0, t.run);
    var k :| 0 <= k < |p0.log| && p0.log[k] == t.run;
  }

  lemma FitsEverywhere(c: Codec, p0: Plane, p1: Plane, takens: seq<Taken>, runs: seq<Restored>)
    requires |runs| == |takens| && Honest(c, p0) && Complete(takens)
    requires forall i :: 0 <= i < |takens| ==>
               TakenFrom(c, p0, p1, false, takens[i]) && runs[i].records == Unsigned(takens[i].records) &&
               runs[i].outcome == ConcludedOutcome(takens[i].records) &&
               (runs[i].index.Some? <==> takens[i].placed.Some?)
    ensures Fitting(runs)
    ensures forall i :: 0 <= i < |runs| && runs[i].index.Some? ==> Sealable(runs[i])
  {
    hide Honest, HonestRun, Concluded, ConcludedOutcome, Unsigned, Fits, PositionOf, PathFor;
    forall i | 0 <= i < |runs|
      ensures Fits(runs[i].records) && (runs[i].index.Some? ==> Sealable(runs[i]) && Concluded(runs[i].records))
    {
      OutcomeUnsigned(takens[i].records);
      if takens[i].records != [] {
        HonestFits(c, takens[i].run, takens[i].records);
      } else {
        NothingFits(runs[i].records);
      }
      if takens[i].placed.Some? {
        PlacedIsConcluded(c, p0, p1, takens[i]);
      }
    }
  }

  lemma NothingFits(records: seq<Record>)
    requires records == []
    ensures Fits(records)
  {
  }

  /** Sealed in log order, the placed runs are the log. */
  lemma LogComesBack(h: Hash, p0: Plane, takens: seq<Taken>, runs: seq<Restored>)
    requires |runs| == |takens| && Positioned(p0, takens)
    requires forall i :: 0 <= i < |runs| ==>
               runs[i].run == takens[i].run &&
               runs[i].index == (match takens[i].placed case Some(at) => Some(at.0) case None => None)
    requires forall i :: 0 <= i < |runs| && runs[i].index.Some? ==> Sealable(runs[i])
    requires |ByIndex(runs)| == |p0.log|
    requires forall k :: 0 <= k < |p0.log| ==> ByIndex(runs)[k].index == Some(k)
    ensures SealedOf(ByIndex(runs)) == p0.log
  {
    hide ByIndex, SealedOf, Sealable, PositionOf;
    var sorted := ByIndex(runs);
    EveryPlaced(runs);
    SealedCount(sorted);
    forall k | 0 <= k < |p0.log| ensures SealedOf(sorted)[k] == p0.log[k] {
      var i := PlacedRun(runs, k);
      PositionSays(p0, takens[i].run);
    }
  }

  lemma {:induction false} PositionsMatch(h: Hash, takens: seq<Taken>, runs: seq<Restored>)
    requires |runs| == |takens|
    requires forall i :: 0 <= i < |runs| ==>
               runs[i].index == (match takens[i].placed case Some(at) => Some(at.0) case None => None) &&
               (takens[i].placed.Some? ==> runs[i].prev == takens[i].placed.value.1)
    ensures Keyed(h, runs) == LeavesTaken(h, takens)
  {
    hide LeafHashOf;
    if runs != [] {
      PositionsMatch(h, takens[..|takens| - 1], runs[..|runs| - 1]);
    }
  }

  lemma SealIsPrev(c: Codec, p0: Plane, p1: Plane, t: Taken, r: Restored)
    requires TakenFrom(c, p0, p1, false, t) && t.placed.Some? && t.records != [] && r.records == Unsigned(t.records)
    requires r.records[|r.records| - 1].hash == r.prev
    ensures r.prev == t.placed.value.1
  {
    hide HonestRun, PositionOf, PathFor, Unsigned;
    PositionSays(p0, t.run);
  }

  lemma KeyedPlaces(h: Hash, p0: Plane, sorted: seq<Restored>)
    requires Indexed(sorted) && Keyed(h, sorted) == LogLeaves(h, p0, |p0.log|)
    ensures |sorted| == |p0.log| && forall k :: 0 <= k < |sorted| ==> sorted[k].index == Some(k)
  {
    hide Keyed, LeafHashOf, LogLeaves;
    KeyedInOrder(h, sorted);
    forall k | 0 <= k < |sorted| ensures sorted[k].index == Some(k) {
      assert Keyed(h, sorted)[k] == LogLeaves(h, p0, |p0.log|)[k];
    }
  }

  /** A complete export of an honest store, taken while the store was in use and
      restored into an empty, lease-free store that does not seal payloads,
      reproduces the log position by position and every record with its bytes,
      its hash and its epoch, so the restore is faithful. */
  lemma {:induction false} RestoreRoundTrip(c: Codec, p0: Plane, p1: Plane, runs: seq<RunId>, takens: seq<Taken>,
                                            rows: seq<CaseRow>, target: Plane)
    requires Written(c, None, [], p0, p1, runs, None, takens, rows) && Complete(takens)
    requires forall k :: 0 <= k < |p0.log| ==> p0.log[k] in runs
    requires target.runs == map[] && target.log == []
    ensures var file := FileOf(c, CheckpointOf(c.hash, p0), None, takens, rows);
            Parse(c, file).Ok? &&
            var made := Restoring(c, target, map[], false, Parse(c, file).value);
            made.Ok? && made.value.log == p0.log &&
            (forall i :: 0 <= i < |takens| ==> RecordsOf(made.value, takens[i].run) == Unsigned(takens[i].records)) &&
            IsFaithful(Parse(c, file).value.checkpoint, CheckpointOf(c.hash, made.value)) &&
            Parse(c, file).value.checkpoint == CheckpointOf(c.hash, p0)
  {
    hide Verify, IsSound, Parse, AllPlain, FileOf, CheckpointOf, Restoring, Written, TakenFrom, Unsigned, Fitting,
         Sealable, ByIndex, SealedOf, Keyed, LeavesTaken, Sorted, LogLeaves, IsFaithful, HonestRun, Positioned,
         Distinct, PositionOf, ConcludedOutcome, Placed, BlocksOf;
    var file := FileOf(c, CheckpointOf(c.hash, p0), None, takens, rows);
    WholeExportVerifies(c, None, [], p0, p1, runs, takens, rows);
    WrittenSays(c, None, [], p0, p1, runs, None, takens, rows);
    forall i | 0 <= i < |takens| && takens[i].records != [] ensures HonestRun(c, takens[i].run, takens[i].records) {
      TakenIsHonest(c, p0, p1, takens[i]);
    }
    WrittenParses(c, CheckpointOf(c.hash, p0), takens, rows);
    var parsed := Parse(c, file).value;
    SoundParses(c, None, [], file);
    ReadersAgreeOnRule(c, None, [], file);
    forall i | 0 <= i < |takens|
      ensures |parsed.runs| == |takens| && parsed.runs[i].run == takens[i].run
      ensures parsed.runs[i].records == Unsigned(takens[i].records)
      ensures parsed.runs[i].index == (match takens[i].placed case Some(at) => Some(at.0) case None => None)
      ensures parsed.runs[i].outcome == ConcludedOutcome(takens[i].records)
    {
      RunReadsBack(c, None, [], p0, p1, runs, takens, rows, i);
    }
    SoundRunsApart(c, None, [], file);
    BlocksOfFile(c, CheckpointOf(c.hash, p0), None, takens, rows);
    WrittenIsHonest(c, p0, p1, runs, takens, rows);
    FitsEverywhere(c, p0, p1, takens, parsed.runs);
    EmptyReceives(target, parsed.runs);
    RestoresSound(c, None, [], file, target);
    forall i | 0 <= i < |takens| && takens[i].placed.Some? ensures parsed.runs[i].prev == takens[i].placed.value.1 {
      SoundRun(c, None, [], file, i);
      SealIsPrev(c, p0, p1, takens[i], parsed.runs[i]);
    }
    PositionsMatch(c.hash, takens, parsed.runs);
    forall k | 0 <= k < |p0.log| ensures TakesRun(takens, p0.log[k]) {
      var i :| 0 <= i < |runs| && runs[i] == p0.log[k];
      assert takens[i].run == p0.log[k];
    }
    LeavesAreTheLog(c.hash, p0, takens);
    SortsTogether(c.hash, parsed.runs);
    KeyedPlaces(c.hash, p0, ByIndex(parsed.runs));
    LogComesBack(c.hash, p0, takens, parsed.runs);
  }

  lemma TakenIsHonest(c: Codec, p0: Plane, p1: Plane, t: Taken)
    requires TakenFrom(c, p0, p1, false, t) && t.records != []
    ensures HonestRun(c, t.run, t.records)
  {
    hide HonestRun, PositionOf, PathFor;
  }

  lemma WrittenIsHonest(c: Codec, p0: Plane, p1: Plane, runs: seq<RunId>, takens: seq<Taken>, rows: seq<CaseRow>)
    requires Written(c, None, [], p0, p1, runs, None, takens, rows)
    ensures Honest(c, p0)
  {
  }

  lemma EmptyReceives(target: Plane, runs: seq<Restored>)
    requires target.runs == map[] && target.log == []
    ensures Receives(target, runs)
  {
  }
}
