/** Which of the files `verify` calls sound the restore's reader takes: those
    naming every run block, of no kind unknown, and with no package header. */
module Acceptance {
  import opened Wrappers
  import opened Hashing
  import opened Wire
  import opened VerifySpec
  import opened SoundList
  import opened QuietFiles
  import opened Binding
  import opened Omission
  import opened ParseSpec

  /** What the restore's reader asks of a line that `verify` does not. */
  predicate Plain(line: Line) {
    !line.UnknownLine? && (line.RunLine? ==> line.block.run.Some?) && (line.HeaderLine? ==> line.kind.WholeExport?)
  }

  /** A caller can read this off the lines, without hashing anything. */
  predicate AllPlain(lines: seq<Line>) {
    forall i :: 0 <= i < |lines| ==> Plain(lines[i])
  }

  /** The two readers between two lines, on a file nothing is wrong with: the
      same open block at the same head, and the same counts. */
  ghost predicate Abreast(s: Scan, p: Reader) {
    var runs := p.parsed.runs;
    (s.pass.Some? <==> runs != []) && (runs != [] ==> s.pass.Some? && s.pass.value.prev == runs[|runs| - 1].prev) &&
    s.runBlocks == p.runBlocks && s.report.records == p.records && (s.report.complete <==> p.declared.Some?) &&
    (p.declared.Some? ==> p.declared.value == (s.claims.runsRequested, s.claims.records))
  }

  /** A record line nothing is found in is one a restore replays. */
  lemma {:induction false} QuietIsReplayable(c: Codec, f: RecordFields, entered: Pass)
    requires JudgeRecord(c, f, entered).found == []
    ensures f.raw.Some? && f.hash.Some? && Replayable(c, f.raw.value, entered.prev, f.hash.value).Ok?
    ensures Replayable(c, f.raw.value, entered.prev, f.hash.value).value.hash == f.hash.value
    ensures JudgeRecord(c, f, entered).pass.prev == f.hash.value
  {
    hide Chain, Uncanonical, Disagreements, JudgeUnread;
    UnreadIsFound(c, entered, f);
  }

  lemma UnreadIsFound(c: Codec, entered: Pass, f: RecordFields)
    ensures f.raw.Some? ==> JudgeUnread(c, entered.(records := entered.records + 1), f.raw.value).found != []
  {
  }

  lemma {:induction false} RecordAbreast(c: Codec, s: Scan, p: Reader, f: RecordFields)
    requires Abreast(s, p) && s.report.findings == [] && ReadRecord(c, s, f).report.findings == []
    ensures ReadLine(c, p, RecordLine(f)).Ok? && Abreast(ReadRecord(c, s, f), ReadLine(c, p, RecordLine(f)).value)
  {
    hide JudgeRecord, Replayable;
    if s.pass.Some? {
      QuietIsReplayable(c, f, s.pass.value);
      assert p.parsed.runs[|p.parsed.runs| - 1].prev == s.pass.value.prev;
    }
  }

  lemma {:induction false} RunAbreast(c: Codec, keys: Option<SignatureCheck>, s: Scan, p: Reader, h: RunFields)
    requires Abreast(s, p) && h.run.Some?
    ensures ReadLine(c, p, RunLine(h)).Ok? && Abreast(ReadRun(c, keys, s, h), ReadLine(c, p, RunLine(h)).value)
  {
    hide FinishRun, When, Without;
    RunKeepsTheRules(c, keys, s, h);
    FinishKeepsTheRules(c, keys, s.(runBlocks := s.runBlocks + 1));
  }

  lemma {:induction false} StepAbreast(c: Codec, keys: Option<SignatureCheck>, s: Scan, p: Reader, line: Line)
    requires Abreast(s, p) && Plain(line) && !s.halted && Step(c, keys, s, line).report.findings == []
    ensures ReadLine(c, p, line).Ok? && Abreast(Step(c, keys, s, line), ReadLine(c, p, line).value)
  {
    hide ReadRun, ReadRecord, RestoreRecord, Abreast;
    StepExtends(c, keys, s, line);
    var t := s.(first := false);
    Unfirst(s, p);
    match line {
      case RunLine(h) => RunAbreast(c, keys, t, p, h);
      case RecordLine(f) => RecordAbreast(c, t, p, f);
      case _ => OtherAbreast(c, keys, s, p, line);
    }
  }

  lemma Unfirst(s: Scan, p: Reader)
    requires Abreast(s, p)
    ensures Abreast(s.(first := false), p)
  {
  }

  lemma {:induction false} OtherAbreast(c: Codec, keys: Option<SignatureCheck>, s: Scan, p: Reader, line: Line)
    requires Abreast(s, p) && Plain(line) && !line.RunLine? && !line.RecordLine?
    requires !s.halted && s.report.findings == [] && Step(c, keys, s, line).report.findings == []
    ensures ReadLine(c, p, line).Ok? && Abreast(Step(c, keys, s, line), ReadLine(c, p, line).value)
  {
    if line.HeaderLine? {
      HeaderIsReadable(s.report, line.kind, line.header);
    }
  }

  lemma HeaderIsReadable(r: Report, kind: HeaderKind, f: HeaderFields)
    requires HeaderReport(r, kind, f).findings == []
    ensures !f.checkpoint.Unreadable?
  {
    var found :=
      When(f.version != Some(FORMAT_VERSION), WrongVersion) +
      When(f.checkpoint.Unreadable?, UnreadableCheckpoint) +
      When(f.checkpoint.Missing?, NoCheckpoint);
    assert |HeaderReport(r, kind, f).findings| >= |r.findings + found|;
  }

  lemma {:induction false} ScannedAbreast(c: Codec, keys: Option<SignatureCheck>, lines: seq<Line>)
    requires AllPlain(lines)
    requires var s := Scanned(c, keys, Start, lines); s.report.findings == [] && !s.report.unverifiable
    ensures ReadLines(c, lines).Ok? && Abreast(Scanned(c, keys, Start, lines), ReadLines(c, lines).value)
  {
    hide Step, ReadLine, Plain;
    if lines != [] {
      var n := |lines| - 1;
      var s := Scanned(c, keys, Start, lines[..n]);
      hide Abreast, Tallies;
      StepExtends(c, keys, s, lines[n]);
      ScannedTallies(c, keys, lines[..n]);
      UnverifiableHalts(c, keys, s, lines[n]);
      QuietReadsOn(s, lines[..n]);
      ScannedAbreast(c, keys, lines[..n]);
      StepAbreast(c, keys, s, ReadLines(c, lines[..n]).value, lines[n]);
    }
  }

  lemma QuietReadsOn(s: Scan, lines: seq<Line>)
    requires Tallies(s, lines)
    ensures s.report.findings == [] && !s.report.unverifiable ==> !s.halted
  {
    hide RunLines, RecordLines, CaseLines, LastTrailer;
  }

  /** A line a restore takes is plain, wherever it stands. */
  lemma {:induction false} ReadIsPlain(c: Codec, lines: seq<Line>)
    requires ReadLines(c, lines).Ok?
    ensures AllPlain(lines)
  {
    hide RestoreRecord, RestoreCase;
    if lines != [] {
      ReadIsPlain(c, lines[..|lines| - 1]);
    }
  }

  /** Of the files `verify` calls sound the restore's reader takes exactly the
      plain ones: every other refusal is a finding already. */
  lemma {:induction false} SoundParses(c: Codec, keys: Option<SignatureCheck>, anchors: seq<Anchor>, lines: seq<Line>)
    requires IsSound(Verify(c, keys, anchors, lines))
    ensures Parse(c, lines).Ok? <==> AllPlain(lines)
  {
    hide Scanned, Settled, FinishRun, ReadLines, Plain, SettleTrailer;
    if Parse(c, lines).Ok? {
      ReadIsPlain(c, lines);
    }
    if AllPlain(lines) {
      var s := Scanned(c, keys, Start, lines);
      var e := ScanAll(c, keys, lines);
      SoundIsSettled(c, keys, anchors, lines);
      SettledQuietly(c, e, anchors);
      SettledKeeps(c, e, anchors);
      FinishKeepsTheRules(c, keys, s);
      FinishExtends(c, keys, s);
      CountsHeld(e);
      ScannedAbreast(c, keys, lines);
    }
  }
}
