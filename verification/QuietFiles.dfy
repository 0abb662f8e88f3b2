/** What a file with no finding is like: every block stands, every position is
    claimed once, and the counts the pass keeps are counts of its lines. */
module QuietFiles {
  import opened Wrappers
  import opened Hashing
  import opened Merkle
  import opened Wire
  import opened VerifySpec
  import opened Blocks
  import opened SoundList

  /** Findings are only ever added. */
  ghost predicate Extends(s: Scan, t: Scan) {
    |s.report.findings| <= |t.report.findings|
  }

  lemma {:induction false} StepExtends(c: Codec, keys: Option<SignatureCheck>, s: Scan, line: Line)
    ensures Extends(s, Step(c, keys, s, line))
  {
    hide ReadRun, ReadRecord, When;
    var t := s.(first := false);
    match line {
      case RunLine(h) => RunExtends(c, keys, t, h);
      case RecordLine(f) => RecordExtends(c, t, f);
      case UnknownLine(f, _) => RecordExtends(c, t, f);
      case _ =>
    }
  }

  lemma {:induction false} FinishExtends(c: Codec, keys: Option<SignatureCheck>, s: Scan)
    ensures Extends(s, FinishRun(c, keys, s))
  {
    hide ClosingFindings;
  }

  lemma {:induction false} RunExtends(c: Codec, keys: Option<SignatureCheck>, s: Scan, h: RunFields)
    ensures Extends(s, ReadRun(c, keys, s, h))
    ensures var counted := FinishRun(c, keys, s.(runBlocks := s.runBlocks + 1));
            Extends(counted, OpenRunBlock(c, counted, h)) &&
            Extends(OpenRunBlock(c, counted, h), ReadRun(c, keys, s, h))
  {
    hide FinishRun, When, OpenPass, Without;
    FinishExtends(c, keys, s.(runBlocks := s.runBlocks + 1));
  }

  lemma RecordExtends(c: Codec, s: Scan, f: RecordFields)
    ensures Extends(s, ReadRecord(c, s, f))
  {
    hide JudgeRecord;
  }

  /** A closed block is clean, and one that carried records closed quietly. */
  ghost predicate ClosedQuietly(c: Codec, keys: Option<SignatureCheck>, r: Report, p: Pass) {
    p.clean && (p.records > 0 ==> ClosingFindings(c, keys, r.selection.Some?, r.checkpoint, p) == [])
  }

  ghost predicate Quiet(c: Codec, keys: Option<SignatureCheck>, s: Scan) {
    (s.first ==> s.closed == [] && s.pass.None?) &&
    (s.report.findings == [] ==>
       (forall i :: 0 <= i < |s.closed| ==> ClosedQuietly(c, keys, s.report, s.closed[i])) &&
       (s.pass.Some? ==> s.pass.value.clean))
  }

  lemma RecordStaysQuiet(c: Codec, keys: Option<SignatureCheck>, s: Scan, f: RecordFields)
    requires Quiet(c, keys, s)
    ensures Quiet(c, keys, ReadRecord(c, s, f))
  {
    hide JudgeRecord, ClosingFindings;
    if s.pass.Some? {
      CleanIsOnlyAFlag(c, f, s.pass.value, s.pass.value.clean);
    }
  }

  lemma {:induction false} FinishStaysQuiet(c: Codec, keys: Option<SignatureCheck>, s: Scan)
    requires Quiet(c, keys, s)
    ensures Quiet(c, keys, FinishRun(c, keys, s))
  {
    hide ClosingFindings;
    FinishExtends(c, keys, s);
    var t := FinishRun(c, keys, s);
    if t.report.findings == [] {
      forall i | 0 <= i < |t.closed| ensures ClosedQuietly(c, keys, t.report, t.closed[i]) {
        if i < |s.closed| {
          assert ClosedQuietly(c, keys, s.report, s.closed[i]);
        }
      }
    }
  }

  lemma {:induction false} OpenStaysQuiet(c: Codec, keys: Option<SignatureCheck>, s: Scan, h: RunFields)
    requires Quiet(c, keys, s) && !s.first
    ensures Quiet(c, keys, ClaimOnce(OpenRunBlock(c, s, h)))
  {
    hide ClosingFindings, Without;
    var t := OpenRunBlock(c, s, h);
    assert Extends(s, t) && Extends(t, ClaimOnce(t));
    var u := ClaimOnce(t);
    if u.report.findings == [] {
      forall i | 0 <= i < |u.closed| ensures ClosedQuietly(c, keys, u.report, u.closed[i]) {
        assert ClosedQuietly(c, keys, s.report, s.closed[i]);
      }
    }
  }

  lemma {:induction false} OtherStaysQuiet(c: Codec, keys: Option<SignatureCheck>, s: Scan, line: Line)
    requires Quiet(c, keys, s)
    requires !line.RunLine? && !line.RecordLine? && !line.UnknownLine?
    ensures Quiet(c, keys, Step(c, keys, s, line))
  {
    hide ClosingFindings;
    var t := Step(c, keys, s, line);
    StepExtends(c, keys, s, line);
    assert t.closed == s.closed && t.pass == s.pass;
    if t.report.findings == [] {
      forall i | 0 <= i < |t.closed| ensures ClosedQuietly(c, keys, t.report, t.closed[i]) {
        assert ClosedQuietly(c, keys, s.report, s.closed[i]);
      }
    }
  }

  lemma {:induction false} RunStaysQuiet(c: Codec, keys: Option<SignatureCheck>, s: Scan, h: RunFields)
    requires Quiet(c, keys, s) && !s.first
    ensures Quiet(c, keys, ReadRun(c, keys, s, h))
  {
    hide FinishRun, OpenRunBlock, ClaimOnce, Quiet, ClosingFindings;
    RecountStaysQuiet(c, keys, s);
    var counted := s.(runBlocks := s.runBlocks + 1);
    FinishStaysQuiet(c, keys, counted);
    FinishKeepsTheRules(c, keys, counted);
    OpenStaysQuiet(c, keys, FinishRun(c, keys, counted), h);
  }

  lemma UnfirstStaysQuiet(c: Codec, keys: Option<SignatureCheck>, s: Scan)
    requires Quiet(c, keys, s)
    ensures Quiet(c, keys, s.(first := false))
  {
    hide ClosingFindings;
  }

  lemma {:induction false} StepStaysQuiet(c: Codec, keys: Option<SignatureCheck>, s: Scan, line: Line)
    requires Quiet(c, keys, s)
    ensures Quiet(c, keys, Step(c, keys, s, line))
  {
    hide ReadRun, ReadRecord, Quiet, ReadHeader, ReadCase, ReadTrailer;
    var t := s.(first := false);
    UnfirstStaysQuiet(c, keys, s);
    if !s.halted {
      match line {
        case RunLine(h) => RunStaysQuiet(c, keys, t, h);
        case RecordLine(f) => RecordStaysQuiet(c, keys, t, f);
        case UnknownLine(f, _) => RecordStaysQuiet(c, keys, t, f);
        case _ => OtherStaysQuiet(c, keys, s, line);
      }
    }
  }

  lemma RecountStaysQuiet(c: Codec, keys: Option<SignatureCheck>, s: Scan)
    requires Quiet(c, keys, s)
    ensures Quiet(c, keys, s.(runBlocks := s.runBlocks + 1))
  {
  }

  lemma {:induction false} ScannedIsQuiet(c: Codec, keys: Option<SignatureCheck>, lines: seq<Line>)
    ensures Quiet(c, keys, Scanned(c, keys, Start, lines))
  {
    hide Step;
    if lines != [] {
      var n := |lines| - 1;
      ScannedIsQuiet(c, keys, lines[..n]);
      hide Quiet;
      StepStaysQuiet(c, keys, Scanned(c, keys, Start, lines[..n]), lines[n]);
    }
  }

  // ── Counting lines ─────────────────────────────────────────────────────

  function One(b: bool): nat {
    if b then 1 else 0
  }

  function RunLines(lines: seq<Line>): nat {
    if lines == [] then 0 else RunLines(lines[..|lines| - 1]) + One(lines[|lines| - 1].RunLine?)
  }

  function RecordLines(lines: seq<Line>): nat {
    if lines == [] then 0
    else RecordLines(lines[..|lines| - 1]) + One(lines[|lines| - 1].RecordLine? || lines[|lines| - 1].UnknownLine?)
  }

  function CaseLines(lines: seq<Line>): nat {
    if lines == [] then 0 else CaseLines(lines[..|lines| - 1]) + One(lines[|lines| - 1].CaseLine?)
  }

  /** The trailer in force after `lines`: the last one. */
  function LastTrailer(lines: seq<Line>): Option<TrailerFields> {
    if lines == [] then None
    else if lines[|lines| - 1].EndLine? then Some(lines[|lines| - 1].trailer)
    else LastTrailer(lines[..|lines| - 1])
  }

  /** The pass's own tally, on a file it has found nothing in. */
  ghost predicate Tallies(s: Scan, lines: seq<Line>) {
    s.report.findings == [] && !s.report.unverifiable ==>
      !s.halted && s.runBlocks == RunLines(lines) && s.report.records == RecordLines(lines) &&
      s.report.cases == CaseLines(lines) && s.report.complete == LastTrailer(lines).Some? &&
      (s.first <==> forall i :: 0 <= i < |lines| ==> lines[i].Blank?) &&
      (s.headerSeen ==> exists i :: 0 <= i < |lines| && lines[i].HeaderLine?) &&
      (LastTrailer(lines).Some? ==>
         var f := LastTrailer(lines).value;
         s.claims.runsRequested == f.runsRequested && s.claims.runsExported == f.runsExported &&
         s.claims.records == f.records)
  }

  lemma {:induction false} StepTallies(c: Codec, keys: Option<SignatureCheck>, s: Scan, lines: seq<Line>, line: Line)
    requires Tallies(s, lines)
    requires s.report.unverifiable ==> s.halted
    ensures Tallies(Step(c, keys, s, line), lines + [line])
  {
    hide ReadRun, ReadRecord, When;
    var grown := lines + [line];
    assert grown[..|lines|] == lines && grown[|lines|] == line;
    StepExtends(c, keys, s, line);
    var t := s.(first := false);
    match line {
      case RunLine(h) => RunKeepsTheRules(c, keys, t, h);
      case RecordLine(f) => RecordKeepsTheRules(c, t, f);
      case UnknownLine(f, _) => RecordKeepsTheRules(c, t, f);
      case _ =>
    }
    var u := Step(c, keys, s, line);
    if u.report.findings == [] && !u.report.unverifiable {
      if s.headerSeen {
        var i :| 0 <= i < |lines| && lines[i].HeaderLine?;
        assert grown[i].HeaderLine?;
      } else if line.HeaderLine? {
        assert grown[|lines|].HeaderLine?;
      }
      if u.first {
        assert forall i :: 0 <= i < |grown| ==> grown[i].Blank?;
      } else if !s.first {
        var i :| 0 <= i < |lines| && !lines[i].Blank?;
        assert !grown[i].Blank?;
      } else {
        assert !grown[|lines|].Blank?;
      }
    }
  }

  lemma {:induction false} ScannedTallies(c: Codec, keys: Option<SignatureCheck>, lines: seq<Line>)
    ensures Tallies(Scanned(c, keys, Start, lines), lines)
    ensures var s := Scanned(c, keys, Start, lines); s.report.unverifiable ==> s.halted
  {
    hide Step;
    if lines != [] {
      var n := |lines| - 1;
      ScannedTallies(c, keys, lines[..n]);
      hide Tallies;
      StepTallies(c, keys, Scanned(c, keys, Start, lines[..n]), lines[..n], lines[n]);
      UnverifiableHalts(c, keys, Scanned(c, keys, Start, lines[..n]), lines[n]);
      assert lines[..n] + [lines[n]] == lines;
    }
  }
}
