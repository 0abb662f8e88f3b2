/** The two readers of a file, `verify` and `parse`, on the files both accept. */
module TwoReaders {
  import opened Wrappers
  import opened Hashing
  import opened Merkle
  import opened Wire
  import opened VerifySpec
  import opened Blocks
  import opened SoundList
  import opened QuietFiles
  import opened Binding
  import opened Omission
  import opened ParseSpec
  import opened Acceptance

  // ── What parse alone makes of a file's blocks ──────────────────────────

  /** Record `j` of a run is line `j` of its block: the line's bytes, linked to
      the lines before it. */
  ghost predicate ReadsLine(c: Codec, b: Block, records: seq<Record>, j: nat)
    requires j < |b.lines| && j < |records|
  {
    var f := b.lines[j];
    var before := Head(c.hash, CarriedRaws(b.lines[..j]));
    Carries(f) && f.hash.value == Chain(c.hash, before, f.raw.value) && !Uncanonical(c, f.raw.value) &&
    c.read(f.raw.value) == Readable(records[j].body) &&
    records[j] == Record(records[j].body, before, f.hash.value, None, f.raw.value)
  }

  ghost predicate Reads(c: Codec, b: Block, r: Restored) {
    r.run == b.run && r.index == IndexOf(b.header) && |r.records| == |b.lines| && |r.hashes| == |b.lines| &&
    r.prev == Head(c.hash, CarriedRaws(b.lines)) && r.outcome == ConcludedOutcome(r.records) &&
    (forall j :: 0 <= j < |b.lines| ==> ReadsLine(c, b, r.records, j)) &&
    (forall j :: 0 <= j < |b.lines| ==> r.hashes[j] == r.records[j].hash)
  }

  lemma ReadsNothing(c: Codec, h: RunFields, run: RunId)
    ensures Reads(c, Block(h, run, []), Restored(run, IndexOf(h), None, [], [], ZERO))
  {
  }

  /** One more line, replayed. */
  lemma {:induction false} ReadsGrows(c: Codec, b: Block, r: Restored, f: RecordFields)
    requires Reads(c, b, r) && Carries(f)
    requires Replayable(c, f.raw.value, r.prev, f.hash.value).Ok?
    ensures Reads(c, b.(lines := b.lines + [f]), Extend(r, Replayable(c, f.raw.value, r.prev, f.hash.value).value))
  {
    hide Head, Chain, Uncanonical, CarriedRaws, ConcludedOutcome;
    var record := Replayable(c, f.raw.value, r.prev, f.hash.value).value;
    var grown := b.(lines := b.lines + [f]);
    var records := r.records + [record];
    CarriedOfAppend(b.lines, f);
    HeadOfAppend(c.hash, CarriedRaws(b.lines), f.raw.value);
    forall j | 0 <= j < |grown.lines| ensures ReadsLine(c, grown, records, j) {
      if j < |b.lines| {
        assert ReadsLine(c, b, r.records, j);
        assert grown.lines[..j] == b.lines[..j];
      } else {
        assert grown.lines[..j] == b.lines;
      }
    }
    OutcomeGrows(r.records, record);
  }

  lemma OutcomeGrows(records: seq<Record>, record: Record)
    ensures ConcludedOutcome(records + [record]) ==
            if record.body.kind.RunConcluded? then Some(record.body.kind.outcome) else ConcludedOutcome(records)
  {
    assert (records + [record])[..|records|] == records;
  }

  /** What parse has read, against the blocks read plainly. */
  ghost predicate Parsing(c: Codec, s: Reader, f: Frame) {
    var runs := s.parsed.runs;
    !f.halted && |All(f)| == |runs| && (f.current.Some? <==> runs != []) && s.runBlocks == |runs| &&
    forall i :: 0 <= i < |runs| ==> Reads(c, All(f)[i], runs[i])
  }

  lemma {:induction false} ParsingRecord(c: Codec, s: Reader, f: Frame, r: RecordFields)
    requires Parsing(c, s, f) && ReadLine(c, s, RecordLine(r)).Ok?
    ensures Parsing(c, ReadLine(c, s, RecordLine(r)).value, FrameStep(f, RecordLine(r)))
  {
    hide Reads, Replayable;
    var n := |s.parsed.runs| - 1;
    var b := f.current.value;
    assert All(f)[n] == b && f.done == All(f)[..n];
    assert Reads(c, All(f)[n], s.parsed.runs[n]);
    PrevRead(c, b, s.parsed.runs[n]);
    ReadsGrows(c, b, s.parsed.runs[n], r);
    var g := FrameStep(f, RecordLine(r));
    assert All(g) == f.done + [b.(lines := b.lines + [r])];
    forall i | 0 <= i < n ensures Reads(c, All(g)[i], s.parsed.runs[i]) {
      assert All(g)[i] == All(f)[i];
    }
  }

  lemma PrevRead(c: Codec, b: Block, r: Restored)
    requires Reads(c, b, r)
    ensures r.prev == Head(c.hash, CarriedRaws(b.lines))
  {
  }

  lemma ParsingRun(c: Codec, s: Reader, f: Frame, h: RunFields)
    requires Parsing(c, s, f) && h.run.Some?
    ensures Parsing(c, ReadLine(c, s, RunLine(h)).value, FrameStep(f, RunLine(h)))
  {
    hide Reads;
    var g := FrameStep(f, RunLine(h));
    assert All(g) == All(f) + [Block(h, h.run.value, [])];
    ReadsNothing(c, h, h.run.value);
  }

  lemma {:induction false} ParsingStep(c: Codec, s: Reader, f: Frame, line: Line)
    requires Parsing(c, s, f) && ReadLine(c, s, line).Ok?
    ensures Parsing(c, ReadLine(c, s, line).value, FrameStep(f, line))
  {
    hide Reads, RestoreRecord, RestoreCase;
    match line {
      case RecordLine(r) => ParsingRecord(c, s, f, r);
      case RunLine(h) => ParsingRun(c, s, f, h);
      case _ =>
    }
  }

  lemma {:induction false} ParseTracks(c: Codec, lines: seq<Line>)
    requires ReadLines(c, lines).Ok?
    ensures Parsing(c, ReadLines(c, lines).value, Framed(lines))
  {
    hide ReadLine, FrameStep, Reads;
    if lines != [] {
      var n := |lines| - 1;
      ParseTracks(c, lines[..n]);
      hide Parsing;
      ParsingStep(c, ReadLines(c, lines[..n]).value, Framed(lines[..n]), lines[n]);
    }
  }

  // ── The header and the trailer ─────────────────────────────────────────

  /** On a file `verify` has found nothing in, the header parse holds is the
      one `verify` read. */
  ghost predicate SameHeader(s: Scan, p: Reader) {
    s.report.findings == [] && !s.report.unverifiable ==>
      (s.first ==> s.report == EmptyReport) &&
      (if s.headerSeen
       then p.parsed.checkpoint == s.report.checkpoint && p.parsed.version == Some(FORMAT_VERSION) &&
            p.parsed.canon == Some(CANON_VERSION) && s.report.selection.None?
       else p.parsed.checkpoint == s.report.checkpoint && p.parsed.version.None?) &&
      p.parsed.complete == s.report.complete && (s.first ==> !s.headerSeen) &&
      (s.halted ==> false)
  }

  lemma {:induction false} SameHeaderStep(c: Codec, keys: Option<SignatureCheck>, s: Scan, p: Reader, line: Line)
    requires SameHeader(s, p) && ReadLine(c, p, line).Ok? && (s.report.unverifiable ==> s.halted)
    ensures SameHeader(Step(c, keys, s, line), ReadLine(c, p, line).value)
  {
    hide ReadRun, ReadRecord, RestoreRecord, RestoreCase, WithRun, HeaderReport;
    StepExtends(c, keys, s, line);
    UnverifiableHalts(c, keys, s, line);
    var t := s.(first := false);
    match line {
      case RunLine(h) =>
        RunKeepsTheRules(c, keys, t, h);
        RunKeepsTheHeader(p.parsed, h.run.value, IndexOf(h));
      case RecordLine(f) =>
        RecordKeepsTheRules(c, t, f);
        RecordKeepsTheHeader(c, p.parsed, f);
      case HeaderLine(kind, f) =>
        if s.first && !s.halted {
          QuietHeader(s.report, kind, f);
        }
      case _ =>
    }
  }

  /** A header found nothing in is one of this format and this rule, with a
      checkpoint. */
  lemma QuietHeader(r: Report, kind: HeaderKind, f: HeaderFields)
    ensures var read := HeaderReport(r, kind, f);
            read.findings == [] && !read.unverifiable ==>
              f.version == Some(FORMAT_VERSION) && f.canon == Some(CANON_VERSION) && f.checkpoint.Given? &&
              read.checkpoint == f.checkpoint.value && (kind.WholeExport? ==> read.selection == r.selection) &&
              read.complete == r.complete
  {
    var found :=
      When(f.version != Some(FORMAT_VERSION), WrongVersion) +
      When(f.checkpoint.Unreadable?, UnreadableCheckpoint) +
      When(f.checkpoint.Missing?, NoCheckpoint);
    assert |HeaderReport(r, kind, f).findings| >= |r.findings + found|;
  }

  lemma RunKeepsTheHeader(p: Parsed, run: RunId, index: Option<nat>)
    ensures var q := WithRun(p, run, index);
            q.checkpoint == p.checkpoint && q.version == p.version && q.canon == p.canon && q.complete == p.complete
  {
  }

  lemma RecordKeepsTheHeader(c: Codec, p: Parsed, f: RecordFields)
    requires RestoreRecord(c, p, f).Ok?
    ensures var q := RestoreRecord(c, p, f).value;
            q.checkpoint == p.checkpoint && q.version == p.version && q.canon == p.canon && q.complete == p.complete
  {
    hide Replayable;
  }

  lemma {:induction false} HeadersAgree(c: Codec, keys: Option<SignatureCheck>, lines: seq<Line>)
    requires ReadLines(c, lines).Ok?
    ensures SameHeader(Scanned(c, keys, Start, lines), ReadLines(c, lines).value)
    ensures Scanned(c, keys, Start, lines).report.unverifiable ==> Scanned(c, keys, Start, lines).halted
  {
    hide ReadLine, Step;
    if lines != [] {
      var n := |lines| - 1;
      HeadersAgree(c, keys, lines[..n]);
      hide SameHeader;
      SameHeaderStep(c, keys, Scanned(c, keys, Start, lines[..n]), ReadLines(c, lines[..n]).value, lines[n]);
      UnverifiableHalts(c, keys, Scanned(c, keys, Start, lines[..n]), lines[n]);
    }
  }

  // ── Agreement ──────────────────────────────────────────────────────────

  /** On any file `verify` calls sound whose lines are plain, both readers
      extract the same checkpoint, the same runs at the same positions, and
      the same record bytes under the same hashes. */
  lemma {:induction false} ReadersAgree(c: Codec, keys: Option<SignatureCheck>, anchors: seq<Anchor>, lines: seq<Line>)
    requires IsSound(Verify(c, keys, anchors, lines)) && AllPlain(lines)
    ensures Parse(c, lines).Ok?
    ensures var r, p, blocks := Verify(c, keys, anchors, lines), Parse(c, lines).value, BlocksOf(lines);
            p.checkpoint == r.checkpoint && p.version == Some(FORMAT_VERSION) && p.canon == Some(CANON_VERSION) &&
            p.complete && r.selection.None? && |p.runs| == |blocks| &&
            forall i :: 0 <= i < |blocks| ==> Reads(c, blocks[i], p.runs[i]) && SamePosition(blocks[i], p.runs[i])
  {
    hide Scanned, Settled, FinishRun, Framed, Reads, ReadLines, IndexOf, AllPlain;
    SoundParses(c, keys, anchors, lines);
    var s := Scanned(c, keys, Start, lines);
    var e := ScanAll(c, keys, lines);
    SoundIsSettled(c, keys, anchors, lines);
    SettledQuietly(c, e, anchors);
    SettledKeeps(c, e, anchors);
    FinishKeepsTheRules(c, keys, s);
    FinishExtends(c, keys, s);
    HeaderWasSeen(c, e, anchors);
    HeadersAgree(c, keys, lines);
    ParseTracks(c, lines);
    var blocks, runs := BlocksOf(lines), Parse(c, lines).value.runs;
    forall i | 0 <= i < |blocks| ensures SamePosition(blocks[i], runs[i]) {
      BlockIsClean(c, keys, anchors, lines, i);
      ReadsIndex(c, blocks[i], runs[i]);
    }
  }

  /** The position the verifier holds a block to is the one parse reads. */
  ghost predicate SamePosition(b: Block, r: Restored) {
    r.index == (match Placed(b.header) case Some(at) => Some(at.0) case None => None)
  }

  lemma ReadsIndex(c: Codec, b: Block, r: Restored)
    requires Reads(c, b, r) && (ClaimsPlace(b.header) ==> Placed(b.header).Some?)
    ensures SamePosition(b, r)
  {
    hide ReadsLine;
  }

  /** Every block of a sound file is clean, whether or not it carries records. */
  lemma {:induction false} BlockIsClean(c: Codec, keys: Option<SignatureCheck>, anchors: seq<Anchor>, lines: seq<Line>,
                                        i: nat)
    requires IsSound(Verify(c, keys, anchors, lines)) && i < |BlocksOf(lines)|
    ensures ClaimsPlace(BlocksOf(lines)[i].header) ==> Placed(BlocksOf(lines)[i].header).Some?
  {
    hide ScanAll, Settled, BlocksOf, PassAt, ClosingFindings, ClaimsPlace;
    var s := ScanAll(c, keys, lines);
    SoundIsSettled(c, keys, anchors, lines);
    ScanAllTracks(c, keys, lines);
    ScanAllIsQuiet(c, keys, lines);
    SettledQuietly(c, s, anchors);
    assert ClosedQuietly(c, keys, s.report, s.closed[i]);
    CleanBlock(c, BlocksOf(lines), i);
  }

  lemma CleanBlock(c: Codec, blocks: seq<Block>, i: nat)
    requires i < |blocks| && PassAt(c, blocks, i).clean
    ensures ClaimsPlace(blocks[i].header) ==> Placed(blocks[i].header).Some?
  {
    hide ReadBlock, Fresh, Recomputes, Recomputed, Head, CarriedRaws;
    BlockReads(c, blocks[i]);
  }
}
