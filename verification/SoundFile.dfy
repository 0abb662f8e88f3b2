/** What a sound file is, in full: an if-and-only-if between `verify`'s answer and
    what stands on the lines. */
module SoundFile {
  import opened Wrappers
  import opened Hashing
  import opened Merkle
  import opened Wire
  import opened VerifySpec
  import opened Blocks
  import opened SoundList
  import opened QuietFiles
  import opened Binding

  // ── Which lines nothing is found in ────────────────────────────────────

  predicate GoodHeader(kind: HeaderKind, f: HeaderFields) {
    f.version == Some(FORMAT_VERSION) && f.canon == Some(CANON_VERSION) && f.checkpoint.Given? &&
    (kind.DisclosurePackage? ==> f.selection.Some? && (f.selection.value.cases != [] || f.selection.value.runs != []))
  }

  predicate GoodCase(f: CaseFields) {
    f.case_.Some? && f.deadlines.Some? && f.hold.Given? && f.erasure.Given?
  }

  /** Line `k` is the first that is not blank. */
  predicate Leads(lines: seq<Line>, k: nat) {
    k < |lines| && !lines[k].Blank? && forall j :: 0 <= j < k ==> lines[j].Blank?
  }

  /** Line `i` is in its place: a header leads the file, a record stands under a
      block that names a run, a case line is whole, and a trailer that counts the
      cases counts those before it. */
  predicate FitsAt(lines: seq<Line>, i: nat)
    requires i < |lines|
  {
    match lines[i]
    case Blank => true
    case NotJson => false
    case HeaderLine(kind, f) => Leads(lines, i) && GoodHeader(kind, f)
    case RunLine(_) => true
    case RecordLine(_) => Framed(lines[..i]).current.Some?
    case UnknownLine(_, _) => Framed(lines[..i]).current.Some?
    case CaseLine(f) => GoodCase(f)
    case EndLine(t) => t.cases.Some? ==> t.cases.value == CaseLines(lines[..i])
  }

  ghost predicate AllFit(lines: seq<Line>) {
    forall i :: 0 <= i < |lines| ==> FitsAt(lines, i)
  }

  // ── The scan, line by line ─────────────────────────────────────────────

  ghost predicate Silent(s: Scan) {
    s.report.findings == [] && !s.report.unverifiable
  }

  /** Every block came out clean so far, and every closed one closed quietly. */
  ghost predicate BlocksQuiet(c: Codec, keys: Option<SignatureCheck>, s: Scan) {
    (forall i :: 0 <= i < |s.closed| ==> ClosedQuietly(c, keys, s.report, s.closed[i])) &&
    (s.pass.Some? ==> s.pass.value.clean)
  }

  /** Nothing is found in the line itself, whatever it does to a block. */
  predicate FitsHere(s: Scan, line: Line) {
    match line
    case Blank => true
    case NotJson => false
    case HeaderLine(kind, f) => s.first && GoodHeader(kind, f)
    case RunLine(_) => true
    case RecordLine(_) => s.pass.Some?
    case UnknownLine(_, _) => s.pass.Some?
    case CaseLine(f) => GoodCase(f)
    case EndLine(t) => t.cases.Some? ==> t.cases.value == s.report.cases
  }

  lemma NothingAdded(found: seq<Finding>, more: seq<Finding>)
    ensures found + more == [] <==> found == [] && more == []
  {
    if found + more == [] {
      ConcatIsEmpty(found, more);
    }
  }

  lemma {:induction false} HeaderSilent(r: Report, kind: HeaderKind, f: HeaderFields)
    requires r.findings == [] && !r.unverifiable
    ensures var t := HeaderReport(r, kind, f); t.findings == [] && !t.unverifiable <==> GoodHeader(kind, f)
  {
    var a, b, d := When(f.version != Some(FORMAT_VERSION), WrongVersion),
                   When(f.checkpoint.Unreadable?, UnreadableCheckpoint), When(f.checkpoint.Missing?, NoCheckpoint);
    NothingAdded(a + b, d);
    NothingAdded(a, b);
    if HeaderReport(r, kind, f).findings == [] {
      assert |HeaderReport(r, kind, f).findings| >= |r.findings + (a + b + d)|;
    }
  }

  lemma {:induction false} RecordSilent(c: Codec, keys: Option<SignatureCheck>, s: Scan, f: RecordFields)
    requires Silent(s) && BlocksQuiet(c, keys, s)
    ensures var t := ReadRecord(c, s, f); Silent(t) <==> s.pass.Some? && BlocksQuiet(c, keys, t)
  {
    hide JudgeRecord, ClosingFindings;
    if s.pass.Some? {
      CleanIsOnlyAFlag(c, f, s.pass.value, true);
      NothingAdded(s.report.findings, JudgeRecord(c, f, s.pass.value).found);
    }
  }

  lemma {:induction false} FinishSilent(c: Codec, keys: Option<SignatureCheck>, s: Scan)
    requires Silent(s) && BlocksQuiet(c, keys, s)
    ensures var t := FinishRun(c, keys, s); Silent(t) <==> BlocksQuiet(c, keys, t)
  {
    hide ClosingFindings;
    if s.pass.Some? {
      var p := s.pass.value;
      var t := FinishRun(c, keys, s);
      assert t.closed == s.closed + [p] && t.closed[|s.closed|] == p;
      NothingAdded(s.report.findings, ClosingFindings(c, keys, s.report.selection.Some?, s.report.checkpoint, p));
      if Silent(t) {
        forall i | 0 <= i < |t.closed| ensures ClosedQuietly(c, keys, t.report, t.closed[i]) {
        }
      }
    }
  }

  lemma {:induction false} OpenSilent(c: Codec, keys: Option<SignatureCheck>, s: Scan, h: RunFields)
    requires s.pass.None? && !s.report.unverifiable
    ensures var t := ClaimOnce(OpenRunBlock(c, s, h));
            (Silent(t) <==> s.report.findings == [] && (t.pass.Some? ==> t.pass.value.clean)) &&
            t.closed == s.closed && t.report.selection == s.report.selection &&
            t.report.checkpoint == s.report.checkpoint
  {
    hide Without;
  }

  lemma {:induction false} RunSilent(c: Codec, keys: Option<SignatureCheck>, s: Scan, h: RunFields)
    requires Silent(s) && BlocksQuiet(c, keys, s)
    ensures var t := ReadRun(c, keys, s, h); Silent(t) <==> BlocksQuiet(c, keys, t)
  {
    hide FinishRun, OpenRunBlock, ClaimOnce, ClosingFindings;
    var counted := s.(runBlocks := s.runBlocks + 1);
    var closed := FinishRun(c, keys, counted);
    assert BlocksQuiet(c, keys, counted);
    FinishSilent(c, keys, counted);
    FinishKeepsTheRules(c, keys, counted);
    FinishedHasNoPass(c, keys, counted);
    OpenSilent(c, keys, closed, h);
    var t := ReadRun(c, keys, s, h);
    if BlocksQuiet(c, keys, t) {
      forall i | 0 <= i < |closed.closed| ensures ClosedQuietly(c, keys, closed.report, closed.closed[i]) {
        assert ClosedQuietly(c, keys, t.report, t.closed[i]);
      }
    }
    if Silent(t) {
      forall i | 0 <= i < |t.closed| ensures ClosedQuietly(c, keys, t.report, t.closed[i]) {
        assert ClosedQuietly(c, keys, closed.report, closed.closed[i]);
      }
    }
  }

  lemma FinishedHasNoPass(c: Codec, keys: Option<SignatureCheck>, s: Scan)
    ensures FinishRun(c, keys, s).pass.None?
  {
    hide ClosingFindings;
  }

  /** One line: nothing is found in it exactly when it is in its place and leaves
      every block as it should be. */
  lemma {:induction false} StepSilent(c: Codec, keys: Option<SignatureCheck>, s: Scan, line: Line)
    requires Silent(s) && !s.halted && BlocksQuiet(c, keys, s) && (s.first ==> s.closed == [] && s.pass.None?)
    ensures var t := Step(c, keys, s, line); Silent(t) <==> FitsHere(s, line) && BlocksQuiet(c, keys, t)
  {
    hide ReadRun, ReadRecord, ClosingFindings, HeaderReport;
    var u := s.(first := false);
    assert BlocksQuiet(c, keys, u);
    match line {
      case RunLine(h) => RunSilent(c, keys, u, h);
      case RecordLine(f) => RecordSilent(c, keys, u, f);
      case UnknownLine(f, _) => RecordSilent(c, keys, u, f);
      case HeaderLine(kind, f) => HeaderSilent(s.report, kind, f);
      case CaseLine(f) => CaseSilent(s.report, f);
      case _ =>
    }
  }

  lemma CaseSilent(r: Report, f: CaseFields)
    requires r.findings == []
    ensures CaseReport(r, f).findings == [] <==> GoodCase(f)
  {
    var a, b, d, e := When(f.case_.None?, MalformedCase), When(f.deadlines.None?, MalformedDeadlines),
                      When(!f.hold.Given?, MalformedHold), When(!f.erasure.Given?, MalformedErasure);
    NothingAdded(a + b + d, e);
    NothingAdded(a + b, d);
    NothingAdded(a, b);
  }

  lemma ClosedIsClean(c: Codec, keys: Option<SignatureCheck>, r: Report, p: Pass)
    requires ClosedQuietly(c, keys, r, p)
    ensures p.clean
  {
    hide ClosingFindings;
  }

  lemma QuietIsHeaders(c: Codec, keys: Option<SignatureCheck>, r: Report, t: Report)
    requires r.selection == t.selection && r.checkpoint == t.checkpoint
    ensures forall p :: ClosedQuietly(c, keys, r, p) <==> ClosedQuietly(c, keys, t, p)
  {
    hide ClosingFindings;
  }

  lemma StepRests(c: Codec, keys: Option<SignatureCheck>, s: Scan, line: Line)
    requires s.halted || line.Blank?
    ensures Step(c, keys, s, line) == s
  {
  }

  /** Which blocks one line closes, and what it makes of the open one. */
  lemma {:induction false} StepCloses(c: Codec, keys: Option<SignatureCheck>, s: Scan, line: Line)
    requires !s.halted && !line.Blank?
    ensures var t := Step(c, keys, s, line);
            match line
            case RunLine(h) => t.closed == s.closed + (if s.pass.Some? then [s.pass.value] else [])
            case RecordLine(f) =>
              t.closed == s.closed && (s.pass.Some? ==> t.pass == Some(JudgeRecord(c, f, s.pass.value).pass))
            case UnknownLine(f, _) =>
              t.closed == s.closed && (s.pass.Some? ==> t.pass == Some(JudgeRecord(c, f, s.pass.value).pass))
            case _ => t.closed == s.closed && t.pass == s.pass
  {
    hide ClosingFindings, JudgeRecord, Without, HeaderReport, OpenPass, When;
  }

  /** Blocks that are as they should be were so a line earlier. */
  lemma {:induction false} QuietBefore(c: Codec, keys: Option<SignatureCheck>, s: Scan, line: Line)
    requires BlocksQuiet(c, keys, Step(c, keys, s, line)) && (s.first ==> s.closed == [] && s.pass.None?)
    ensures BlocksQuiet(c, keys, s)
  {
    hide Step, ClosedQuietly, JudgeRecord;
    var t := Step(c, keys, s, line);
    if s.halted || line.Blank? {
      StepRests(c, keys, s, line);
    } else if !s.first {
      StepKeepsTheHeader(c, keys, s, line);
      StepCloses(c, keys, s, line);
      QuietIsHeaders(c, keys, s.report, t.report);
      forall i | 0 <= i < |s.closed| ensures ClosedQuietly(c, keys, s.report, s.closed[i]) {
        assert ClosedQuietly(c, keys, t.report, t.closed[i]);
      }
      if s.pass.Some? {
        match line {
          case RunLine(h) =>
            assert t.closed[|s.closed|] == s.pass.value;
            assert ClosedQuietly(c, keys, t.report, t.closed[|s.closed|]);
            ClosedIsClean(c, keys, t.report, s.pass.value);
          case RecordLine(f) => CleanIsOnlyAFlag(c, f, s.pass.value, true);
          case UnknownLine(f, _) => CleanIsOnlyAFlag(c, f, s.pass.value, true);
          case _ =>
        }
      }
    }
  }

  lemma {:induction false} StepKeepsTheHeader(c: Codec, keys: Option<SignatureCheck>, s: Scan, line: Line)
    requires !s.first
    ensures var t := Step(c, keys, s, line);
            t.report.selection == s.report.selection && t.report.checkpoint == s.report.checkpoint && !t.first &&
            t.headerSeen == s.headerSeen
  {
    hide ReadRun, ReadRecord, When;
    var u := s.(first := false);
    match line {
      case RunLine(h) => RunKeepsTheRules(c, keys, u, h);
      case RecordLine(f) => RecordKeepsTheRules(c, u, f);
      case UnknownLine(f, _) => RecordKeepsTheRules(c, u, f);
      case _ =>
    }
  }

  // ── The scan of a whole file ───────────────────────────────────────────

  /** The line that leads the file: the first that is not blank. */
  function Lead(lines: seq<Line>): Option<Line> {
    if lines == [] then None
    else
      var before := Lead(lines[..|lines| - 1]);
      if before.Some? then before
      else if lines[|lines| - 1].Blank? then None else Some(lines[|lines| - 1])
  }

  predicate Headed(lines: seq<Line>) {
    Lead(lines).Some? && Lead(lines).value.HeaderLine?
  }

  /** The checkpoint a file is held to, and what a package says it carries. */
  function CheckpointIn(lines: seq<Line>): Checkpoint {
    if Headed(lines) && Lead(lines).value.header.checkpoint.Given? then Lead(lines).value.header.checkpoint.value
    else Checkpoint("", 0, ZERO)
  }

  function SelectionIn(lines: seq<Line>): Option<Selection> {
    if Headed(lines) && Lead(lines).value.kind.DisclosurePackage? then Lead(lines).value.header.selection else None
  }

  lemma {:induction false} LeadIsFirst(lines: seq<Line>)
    ensures Lead(lines).None? <==> forall i :: 0 <= i < |lines| ==> lines[i].Blank?
  {
    if lines != [] {
      LeadIsFirst(lines[..|lines| - 1]);
      assert forall i :: 0 <= i < |lines| - 1 ==> lines[..|lines| - 1][i] == lines[i];
    }
  }

  ghost predicate HeadRead(s: Scan, lines: seq<Line>) {
    Silent(s) ==>
      s.report.selection == SelectionIn(lines) && s.report.checkpoint == CheckpointIn(lines) &&
      (s.headerSeen <==> Headed(lines)) && (s.first <==> Lead(lines).None?)
  }

  lemma {:induction false} SilentBefore(c: Codec, keys: Option<SignatureCheck>, s: Scan, line: Line)
    requires Silent(Step(c, keys, s, line)) && (s.report.unverifiable ==> s.halted)
    ensures Silent(s)
  {
    hide Step;
    StepExtends(c, keys, s, line);
    UnverifiableHalts(c, keys, s, line);
  }

  lemma {:induction false} HeadReadStep(c: Codec, keys: Option<SignatureCheck>, s: Scan, lines: seq<Line>, line: Line)
    requires HeadRead(s, lines) && (s.report.unverifiable ==> s.halted)
    requires Silent(s) ==> !s.halted && (s.first ==> s.report == EmptyReport)
    ensures HeadRead(Step(c, keys, s, line), lines + [line])
  {
    hide ReadRun, ReadRecord, HeaderReport, ReadCase, ReadTrailer;
    var t := Step(c, keys, s, line);
    var grown := lines + [line];
    assert grown[..|lines|] == lines && grown[|lines|] == line;
    if Silent(t) {
      SilentBefore(c, keys, s, line);
      if s.first {
        if line.HeaderLine? {
          HeaderSilent(s.report, line.kind, line.header);
          HeaderSays(s.report, line.kind, line.header);
        } else {
          FirstKeepsTheHeader(c, keys, s, line);
        }
      } else {
        StepKeepsTheHeader(c, keys, s, line);
      }
    }
  }

  lemma HeaderSays(r: Report, kind: HeaderKind, f: HeaderFields)
    requires GoodHeader(kind, f) && r == EmptyReport
    ensures var t := HeaderReport(r, kind, f);
            t.checkpoint == f.checkpoint.value &&
            t.selection == (if kind.DisclosurePackage? then f.selection else None)
  {
  }

  lemma {:induction false} FirstKeepsTheHeader(c: Codec, keys: Option<SignatureCheck>, s: Scan, line: Line)
    requires !line.HeaderLine?
    ensures var t := Step(c, keys, s, line);
            t.report.selection == s.report.selection && t.report.checkpoint == s.report.checkpoint &&
            t.headerSeen == s.headerSeen && (t.first <==> s.first && (line.Blank? || s.halted))
  {
    hide ReadRun, ReadRecord, When;
    var u := s.(first := false);
    match line {
      case RunLine(h) => RunKeepsTheRules(c, keys, u, h);
      case RecordLine(f) => RecordKeepsTheRules(c, u, f);
      case UnknownLine(f, _) => RecordKeepsTheRules(c, u, f);
      case _ =>
    }
  }

  /** What the two earlier accounts of a scan give together. */
  lemma {:induction false} ScanFacts(c: Codec, keys: Option<SignatureCheck>, lines: seq<Line>)
    ensures var s := Scanned(c, keys, Start, lines);
            (s.report.unverifiable ==> s.halted) && HeadRead(s, lines) &&
            (Silent(s) ==>
               !s.halted && (s.first ==> s.closed == [] && s.pass.None? && s.report == EmptyReport) &&
               BlocksQuiet(c, keys, s) && s.report.cases == CaseLines(lines) &&
               (s.first <==> forall i :: 0 <= i < |lines| ==> lines[i].Blank?) &&
               (s.pass.Some? <==> Framed(lines).current.Some?))
  {
    hide Step, Framed, RunLines, RecordLines, CaseLines, LastTrailer;
    var s := Scanned(c, keys, Start, lines);
    ScannedIsQuiet(c, keys, lines);
    ScannedTallies(c, keys, lines);
    ScannedTracks(c, keys, lines);
    if lines == [] {
    } else {
      var n := |lines| - 1;
      ScanFacts(c, keys, lines[..n]);
      HeadReadStep(c, keys, Scanned(c, keys, Start, lines[..n]), lines[..n], lines[n]);
      assert lines[..n] + [lines[n]] == lines;
    }
    if Silent(s) && s.first {
      FirstHasNoPass(c, s, Framed(lines));
    }
  }

  lemma FirstHasNoPass(c: Codec, s: Scan, f: Frame)
    requires Tracks(c, s, f) && s.first
    ensures s.closed == [] && s.pass.None? && s.report == EmptyReport
  {
    hide ReadBlock;
    assert |Passes(s)| == 0;
  }

  /** A line fits where the scan stands exactly when it fits where it stands. */
  lemma FitsIsFitsAt(c: Codec, keys: Option<SignatureCheck>, lines: seq<Line>)
    requires lines != [] && Silent(Scanned(c, keys, Start, lines[..|lines| - 1]))
    ensures FitsHere(Scanned(c, keys, Start, lines[..|lines| - 1]), lines[|lines| - 1]) <==> FitsAt(lines, |lines| - 1)
  {
    hide Scanned, Framed, CaseLines, Lead;
    ScanFacts(c, keys, lines[..|lines| - 1]);
    assert forall i :: 0 <= i < |lines| - 1 ==> lines[..|lines| - 1][i] == lines[i];
  }

  lemma AllFitOfLast(lines: seq<Line>)
    requires lines != []
    ensures AllFit(lines) <==> AllFit(lines[..|lines| - 1]) && FitsAt(lines, |lines| - 1)
  {
    hide Framed, CaseLines;
    var n := |lines| - 1;
    forall i | 0 <= i < n ensures FitsAt(lines, i) == FitsAt(lines[..n], i) {
      assert lines[..n][..i] == lines[..i];
      assert forall j :: 0 <= j < i ==> lines[..n][j] == lines[j];
    }
  }

  /** Nothing is found before the end of a file exactly when every line is in its
      place and every block is as it should be. */
  lemma {:induction false} ScanIsSilent(c: Codec, keys: Option<SignatureCheck>, lines: seq<Line>)
    ensures var s := Scanned(c, keys, Start, lines); Silent(s) <==> AllFit(lines) && BlocksQuiet(c, keys, s)
  {
    hide Step, AllFit, BlocksQuiet, Silent, FitsHere, FitsAt;
    if lines == [] {
      NothingScanned(c, keys);
    } else {
      var n := |lines| - 1;
      var s := Scanned(c, keys, Start, lines[..n]);
      ScanIsSilent(c, keys, lines[..n]);
      AllFitOfLast(lines);
      ScanFacts(c, keys, lines[..n]);
      var t := Step(c, keys, s, lines[n]);
      if Silent(t) {
        SilentBefore(c, keys, s, lines[n]);
      }
      FirstIsClear(c, keys, lines[..n]);
      if BlocksQuiet(c, keys, t) {
        QuietBefore(c, keys, s, lines[n]);
      }
      if Silent(s) {
        StepSilent(c, keys, s, lines[n]);
        FitsIsFitsAt(c, keys, lines);
      }
    }
  }

  lemma NothingScanned(c: Codec, keys: Option<SignatureCheck>)
    ensures Silent(Start) && AllFit([]) && BlocksQuiet(c, keys, Start)
  {
  }

  lemma FirstIsClear(c: Codec, keys: Option<SignatureCheck>, lines: seq<Line>)
    ensures var s := Scanned(c, keys, Start, lines); s.first ==> s.closed == [] && s.pass.None?
  {
    hide Scanned, ClosedQuietly;
    ScannedIsQuiet(c, keys, lines);
  }

  /** The same at the end of a file, with its last block closed. */
  lemma {:induction false} EndIsSilent(c: Codec, keys: Option<SignatureCheck>, lines: seq<Line>)
    ensures var s, e := Scanned(c, keys, Start, lines), FinishRun(c, keys, Scanned(c, keys, Start, lines));
            Silent(e) <==> AllFit(lines) && BlocksQuiet(c, keys, e)
  {
    hide Scanned, AllFit, ClosingFindings;
    var s := Scanned(c, keys, Start, lines);
    var e := FinishRun(c, keys, s);
    ScanIsSilent(c, keys, lines);
    if Silent(s) {
      ScanFacts(c, keys, lines);
      FinishSilent(c, keys, s);
    }
    FinishExtends(c, keys, s);
    FinishKeepsTheRules(c, keys, s);
    if BlocksQuiet(c, keys, e) {
      forall i | 0 <= i < |s.closed| ensures ClosedQuietly(c, keys, s.report, s.closed[i]) {
        assert ClosedQuietly(c, keys, e.report, e.closed[i]);
      }
      if s.pass.Some? {
        assert e.closed[|s.closed|] == s.pass.value;
        assert ClosedQuietly(c, keys, e.report, e.closed[|s.closed|]);
      }
    }
  }

  // ── What the scan keeps for the settlement ─────────────────────────────

  /** How many passes carried records. */
  function FullOf(closed: seq<Pass>): nat {
    if closed == [] then 0
    else FullOf(closed[..|closed| - 1]) + One(closed[|closed| - 1].records > 0)
  }

  ghost predicate EmptyIn(closed: seq<Pass>, run: RunId) {
    exists i :: 0 <= i < |closed| && closed[i].records == 0 && closed[i].run == run
  }

  ghost predicate PassStamps(p: Pass, id: CaseId) {
    exists j :: 0 <= j < |p.resealed| && p.resealed[j].body.case_ == Some(id)
  }

  ghost predicate StampedIn(passes: seq<Pass>, id: CaseId) {
    exists i :: 0 <= i < |passes| && PassStamps(passes[i], id)
  }

  /** What is kept of the blocks is what their passes say. */
  ghost predicate Ledger(s: Scan) {
    (forall run :: run in s.emptyBlocks <==> EmptyIn(s.closed, run)) && s.readRuns == FullOf(s.closed) &&
    (forall id :: id in s.stamped <==> StampedIn(Passes(s), id))
  }

  lemma LastOfAppend(passes: seq<Pass>, p: Pass)
    ensures FullOf(passes + [p]) == FullOf(passes) + One(p.records > 0)
    ensures forall run :: EmptyIn(passes + [p], run) <==> EmptyIn(passes, run) || (p.records == 0 && p.run == run)
    ensures forall id :: StampedIn(passes + [p], id) <==> StampedIn(passes, id) || PassStamps(p, id)
  {
    hide PassStamps;
    var grown := passes + [p];
    assert grown[..|passes|] == passes && grown[|passes|] == p;
    assert forall i :: 0 <= i < |passes| ==> grown[i] == passes[i];
  }

  lemma {:induction false} RecordStamps(c: Codec, f: RecordFields, p: Pass, id: CaseId)
    ensures var j := JudgeRecord(c, f, p);
            (PassStamps(j.pass, id) <==> PassStamps(p, id) || j.stamp == Some(id)) && j.pass.run == p.run
  {
    hide Chain, Uncanonical, Disagreements;
    var j := JudgeRecord(c, f, p);
    if j.pass.resealed != p.resealed {
      var n := |p.resealed|;
      assert j.pass.resealed[n].body.case_ == j.stamp;
      assert forall i :: 0 <= i < n ==> j.pass.resealed[i] == p.resealed[i];
    }
  }

  lemma {:induction false} RecordLedger(c: Codec, s: Scan, f: RecordFields)
    requires Ledger(s)
    ensures Ledger(ReadRecord(c, s, f))
  {
    hide JudgeRecord, PassStamps, StampedIn, EmptyIn, FullOf;
    if s.pass.Some? {
      var t := ReadRecord(c, s, f);
      LastOfAppend(s.closed, s.pass.value);
      LastOfAppend(s.closed, t.pass.value);
      forall id ensures id in t.stamped <==> StampedIn(Passes(t), id) {
        RecordStamps(c, f, s.pass.value, id);
      }
    } else {
      assert Passes(ReadRecord(c, s, f)) == Passes(s);
    }
  }

  lemma {:induction false} FinishLedger(c: Codec, keys: Option<SignatureCheck>, s: Scan)
    requires Ledger(s)
    ensures Ledger(FinishRun(c, keys, s)) && Passes(FinishRun(c, keys, s)) == Passes(s)
  {
    hide ClosingFindings, PassStamps, StampedIn, EmptyIn, FullOf;
    if s.pass.Some? {
      LastOfAppend(s.closed, s.pass.value);
      assert Passes(FinishRun(c, keys, s)) == Passes(s);
    }
  }

  lemma {:induction false} OpenLedger(c: Codec, s: Scan, h: RunFields)
    requires Ledger(s) && s.pass.None?
    ensures Ledger(ClaimOnce(OpenRunBlock(c, s, h)))
  {
    hide PassStamps, StampedIn, EmptyIn, FullOf, When, Without;
    var t := ClaimOnce(OpenRunBlock(c, s, h));
    assert Passes(s) == s.closed;
    if t.pass.Some? {
      LastOfAppend(s.closed, t.pass.value);
      NothingStamped(t.pass.value);
    }
  }

  lemma NothingStamped(p: Pass)
    requires p.resealed == []
    ensures forall id :: !PassStamps(p, id)
  {
  }

  lemma SameLedger(s: Scan, t: Scan)
    requires Ledger(s) && t.emptyBlocks == s.emptyBlocks && t.closed == s.closed && t.readRuns == s.readRuns
    requires t.stamped == s.stamped && t.pass == s.pass
    ensures Ledger(t)
  {
    assert Passes(t) == Passes(s);
  }

  lemma {:induction false} StepLedger(c: Codec, keys: Option<SignatureCheck>, s: Scan, line: Line)
    requires Ledger(s)
    ensures Ledger(Step(c, keys, s, line))
  {
    hide ReadRecord, FinishRun, OpenRunBlock, ClaimOnce, Ledger, When;
    var u := s.(first := false);
    SameLedger(s, u);
    match line {
      case RunLine(h) =>
        var counted := u.(runBlocks := u.runBlocks + 1);
        SameLedger(u, counted);
        FinishLedger(c, keys, counted);
        FinishedHasNoPass(c, keys, counted);
        OpenLedger(c, FinishRun(c, keys, counted), h);
      case RecordLine(f) => RecordLedger(c, u, f);
      case UnknownLine(f, _) => RecordLedger(c, u, f);
      case _ =>
    }
    if !line.RunLine? && !line.RecordLine? && !line.UnknownLine? {
      SameLedger(s, Step(c, keys, s, line));
    }
  }

  lemma {:induction false} ScannedLedger(c: Codec, keys: Option<SignatureCheck>, lines: seq<Line>)
    ensures Ledger(Scanned(c, keys, Start, lines))
  {
    hide Step;
    if lines != [] {
      ScannedLedger(c, keys, lines[..|lines| - 1]);
      hide Ledger;
      StepLedger(c, keys, Scanned(c, keys, Start, lines[..|lines| - 1]), lines[|lines| - 1]);
    }
  }

  /** Every line before `k` is JSON, so the reader gets that far. */
  predicate Heard(lines: seq<Line>, k: nat) {
    k < |lines| && forall j :: 0 <= j < k ==> !lines[j].NotJson?
  }

  /** A trailer the reader gets to declares the run unreadable. */
  predicate DeclaredUnread(lines: seq<Line>, run: RunId) {
    exists k: nat :: k < |lines| && Heard(lines, k) && lines[k].EndLine? && run in lines[k].trailer.unreadable
  }

  /** A case line the reader gets to names the case. */
  predicate HasCaseLine(lines: seq<Line>, id: CaseId) {
    exists k: nat :: k < |lines| && Heard(lines, k) && lines[k].CaseLine? && lines[k].case_.case_.Some? &&
                     lines[k].case_.case_.value.id == id
  }

  ghost predicate Claims(s: Scan, lines: seq<Line>) {
    !s.report.unverifiable ==>
      (s.halted <==> exists j :: 0 <= j < |lines| && lines[j].NotJson?) &&
      (forall run :: run in s.claims.unreadable <==> DeclaredUnread(lines, run)) &&
      (forall id :: id in s.carried <==> HasCaseLine(lines, id))
  }

  lemma HeardOfAppend(lines: seq<Line>, line: Line)
    ensures forall k: nat :: k < |lines| ==> Heard(lines + [line], k) == Heard(lines, k)
    ensures Heard(lines + [line], |lines|) <==> !exists j :: 0 <= j < |lines| && lines[j].NotJson?
  {
    var grown := lines + [line];
    assert forall j :: 0 <= j < |lines| ==> grown[j] == lines[j];
  }

  lemma {:induction false} DeclaredOfAppend(lines: seq<Line>, line: Line, run: RunId)
    ensures DeclaredUnread(lines + [line], run) <==>
            DeclaredUnread(lines, run) ||
            (Heard(lines + [line], |lines|) && line.EndLine? && run in line.trailer.unreadable)
  {
    hide Heard;
    var grown := lines + [line];
    HeardOfAppend(lines, line);
    assert grown[|lines|] == line && forall j :: 0 <= j < |lines| ==> grown[j] == lines[j];
    if DeclaredUnread(lines, run) {
      var k: nat :| k < |lines| && Heard(lines, k) && lines[k].EndLine? && run in lines[k].trailer.unreadable;
      assert grown[k] == lines[k] && Heard(grown, k);
    }
  }

  lemma {:induction false} CaseLineOfAppend(lines: seq<Line>, line: Line, id: CaseId)
    ensures HasCaseLine(lines + [line], id) <==>
            HasCaseLine(lines, id) ||
            (Heard(lines + [line], |lines|) && line.CaseLine? && line.case_.case_.Some? &&
             line.case_.case_.value.id == id)
  {
    hide Heard;
    var grown := lines + [line];
    HeardOfAppend(lines, line);
    assert grown[|lines|] == line && forall j :: 0 <= j < |lines| ==> grown[j] == lines[j];
    if HasCaseLine(lines, id) {
      var k: nat :| k < |lines| && Heard(lines, k) && lines[k].CaseLine? && lines[k].case_.case_.Some? &&
                    lines[k].case_.case_.value.id == id;
      assert grown[k] == lines[k] && Heard(grown, k);
    }
  }

  lemma {:induction false} StepClaims(c: Codec, keys: Option<SignatureCheck>, s: Scan, lines: seq<Line>, line: Line)
    requires Claims(s, lines) && (s.report.unverifiable ==> s.halted)
    ensures Claims(Step(c, keys, s, line), lines + [line])
  {
    hide ReadRun, ReadRecord, Heard, DeclaredUnread, HasCaseLine, When;
    var u := s.(first := false);
    var t := Step(c, keys, s, line);
    var grown := lines + [line];
    UnverifiableHalts(c, keys, s, line);
    HeardOfAppend(lines, line);
    assert grown[|lines|] == line && forall j :: 0 <= j < |lines| ==> grown[j] == lines[j];
    match line {
      case RunLine(h) => RunKeepsTheRules(c, keys, u, h);
      case RecordLine(f) => RecordKeepsTheRules(c, u, f);
      case UnknownLine(f, _) => RecordKeepsTheRules(c, u, f);
      case _ =>
    }
    if !t.report.unverifiable {
      forall run ensures run in t.claims.unreadable <==> DeclaredUnread(grown, run) {
        DeclaredOfAppend(lines, line, run);
      }
      forall id ensures id in t.carried <==> HasCaseLine(grown, id) {
        CaseLineOfAppend(lines, line, id);
      }
    }
  }

  lemma {:induction false} ScannedClaims(c: Codec, keys: Option<SignatureCheck>, lines: seq<Line>)
    ensures var s := Scanned(c, keys, Start, lines); Claims(s, lines) && (s.report.unverifiable ==> s.halted)
  {
    hide Step;
    if lines != [] {
      var n := |lines| - 1;
      ScannedClaims(c, keys, lines[..n]);
      hide Claims;
      StepClaims(c, keys, Scanned(c, keys, Start, lines[..n]), lines[..n], lines[n]);
      UnverifiableHalts(c, keys, Scanned(c, keys, Start, lines[..n]), lines[n]);
      assert lines[..n] + [lines[n]] == lines;
    }
  }

  // ── The settlement ─────────────────────────────────────────────────────

  lemma {:induction false} EmptiesDeclared(empty: seq<RunId>, declared: seq<RunId>)
    ensures UndeclaredEmpty(empty, declared) == [] <==> forall run :: run in empty ==> run in declared
  {
    hide When;
    if empty != [] {
      var n := |empty| - 1;
      EmptiesDeclared(empty[..n], declared);
      NothingAdded(UndeclaredEmpty(empty[..n], declared), When(empty[n] !in declared, EmptyBlock(empty[n])));
      assert forall run :: run in empty <==> run in empty[..n] || run == empty[n];
    }
  }

  lemma {:induction false} SelectedCarried(selected: seq<CaseId>, carried: set<CaseId>)
    ensures SelectedMissing(selected, carried) == [] <==> forall i :: 0 <= i < |selected| ==> selected[i] in carried
  {
    hide When;
    if selected != [] {
      var n := |selected| - 1;
      SelectedCarried(selected[..n], carried);
      NothingAdded(SelectedMissing(selected[..n], carried),
                   When(selected[n] !in carried, SelectedCaseMissing(selected[n])));
      assert forall i :: 0 <= i < n ==> selected[..n][i] == selected[i];
    }
  }

  lemma CasesSettled(e: Scan)
    ensures SettleCases(e) == [] <==>
            e.stamped <= e.carried &&
            (e.report.selection.Some? ==>
               forall i :: 0 <= i < |e.report.selection.value.cases| ==> e.report.selection.value.cases[i] in e.carried)
  {
    hide Least;
    var missing := e.stamped - e.carried;
    if e.report.selection.Some? {
      SelectedCarried(e.report.selection.value.cases, e.carried);
      NothingAdded(CasesMissing(missing), SelectedMissing(e.report.selection.value.cases, e.carried));
    }
    if missing != {} {
      assert |CasesMissing(missing)| > 0;
    }
    if missing == {} {
      forall id | id in e.stamped ensures id in e.carried {
        assert id !in missing;
      }
    }
  }

  predicate CountsAgree(e: Scan) {
    e.claims.runsRequested == Some(e.runBlocks) && e.claims.runsExported == Some(e.readRuns) &&
    e.claims.records == Some(e.report.records)
  }

  lemma TrailerSettled(e: Scan)
    requires e.report.complete
    ensures SettleTrailer(e) == [] <==>
            CountsAgree(e) && forall run :: run in e.emptyBlocks ==> run in e.claims.unreadable
  {
    hide UndeclaredEmpty;
    EmptiesDeclared(e.emptyBlocks, e.claims.unreadable);
    NothingAdded(UndeclaredEmpty(e.emptyBlocks, e.claims.unreadable), HeldCounts(e));
    var k := e.claims;
    if k.runsRequested.Some? && k.runsExported.Some? && k.records.Some? {
      var a := When(k.runsRequested.value != e.runBlocks, RunCount(k.runsRequested.value, e.runBlocks));
      var b := When(k.runsExported.value != e.readRuns, ExportedCount(k.runsExported.value, e.readRuns));
      var d := When(k.records.value != e.report.records, RecordCount(k.records.value, e.report.records));
      NothingAdded(a + b, d);
      NothingAdded(a, b);
    }
  }

  /** An outside checkpoint of this log is a prefix of the leaves. */
  ghost predicate AnchorHolds(h: Hash, leaves: seq<Leaf>, cp: Checkpoint, given: Checkpoint) {
    given.origin == cp.origin && given.size <= cp.size && PrefixIs(h, leaves, given.size, given.root)
  }

  /** The leaves are the log the checkpoint commits to, and every outside
      checkpoint is one of its earlier ones. */
  ghost predicate TreeHeld(h: Hash, leaves: seq<Leaf>, cp: Checkpoint, anchors: seq<Anchor>) {
    |leaves| == cp.size && Contiguous(leaves) && Root(h, Hashes(leaves)) == cp.root &&
    forall i :: 0 <= i < |anchors| ==> AnchorHolds(h, leaves, cp, anchors[i].checkpoint)
  }

  predicate AnchorAgrees(cp: Checkpoint, given: Checkpoint) {
    given.origin == cp.origin && (given.size == cp.size ==> given.root == cp.root)
  }

  ghost predicate PackageHeld(cp: Checkpoint, anchors: seq<Anchor>) {
    forall i :: 0 <= i < |anchors| ==> AnchorAgrees(cp, anchors[i].checkpoint)
  }

  lemma AnchorSettled(h: Hash, leaves: seq<Leaf>, cp: Checkpoint, anchor: Anchor)
    requires |leaves| == cp.size && Contiguous(leaves) && Root(h, Hashes(leaves)) == cp.root
    ensures CompareAnchor(h, cp, anchor, leaves) == [] <==> AnchorHolds(h, leaves, cp, anchor.checkpoint)
  {
    hide Root, Hashes;
    if anchor.checkpoint.size == cp.size {
      assert leaves[..cp.size] == leaves;
    }
  }

  lemma {:induction false} AnchorsSettled(h: Hash, leaves: seq<Leaf>, cp: Checkpoint, anchors: seq<Anchor>)
    ensures CompareAnchors(h, cp, anchors, leaves) == [] <==>
            forall i :: 0 <= i < |anchors| ==> CompareAnchor(h, cp, anchors[i], leaves) == []
  {
    hide CompareAnchor;
    if anchors != [] {
      var n := |anchors| - 1;
      AnchorsSettled(h, leaves, cp, anchors[..n]);
      NothingAdded(CompareAnchors(h, cp, anchors[..n], leaves), CompareAnchor(h, cp, anchors[n], leaves));
      assert forall i :: 0 <= i < n ==> anchors[..n][i] == anchors[i];
    }
  }

  lemma PackageAnchorSettled(cp: Checkpoint, anchor: Anchor)
    ensures ComparePackageAnchor(cp, anchor) == [] <==> AnchorAgrees(cp, anchor.checkpoint)
  {
  }

  lemma {:induction false} PackageAnchorsSettled(cp: Checkpoint, anchors: seq<Anchor>)
    ensures ComparePackageAnchors(cp, anchors) == [] <==> PackageHeld(cp, anchors)
  {
    hide ComparePackageAnchor, AnchorAgrees;
    if anchors != [] {
      var n := |anchors| - 1;
      PackageAnchorsSettled(cp, anchors[..n]);
      PackageAnchorSettled(cp, anchors[n]);
      NothingAdded(ComparePackageAnchors(cp, anchors[..n]), ComparePackageAnchor(cp, anchors[n]));
      assert forall i :: 0 <= i < n ==> anchors[..n][i] == anchors[i];
    }
  }

  lemma {:induction false} WholeSettled(h: Hash, e: Scan, anchors: seq<Anchor>)
    ensures SettleWhole(h, e, anchors) == [] <==>
            e.headerSeen && e.report.complete && TreeHeld(h, Sorted(e.leaves), e.report.checkpoint, anchors)
  {
    hide CompareAnchors, Sorted, Root, Hashes, AnchorHolds, CompareAnchor;
    var leaves, cp := Sorted(e.leaves), e.report.checkpoint;
    var compared := if e.headerSeen then CompareAnchors(h, cp, anchors, leaves) else [];
    var headed, tree, framed := When(!e.headerSeen, NoHeader), RebuiltTree(h, leaves, cp),
                                When(!e.report.complete, NoTrailer);
    NothingAdded(compared + headed + tree, framed);
    NothingAdded(compared + headed, tree);
    NothingAdded(compared, headed);
    AnchorsSettled(h, leaves, cp, anchors);
    if tree == [] {
      forall i | 0 <= i < |anchors|
        ensures CompareAnchor(h, cp, anchors[i], leaves) == [] <==> AnchorHolds(h, leaves, cp, anchors[i].checkpoint)
      {
        AnchorSettled(h, leaves, cp, anchors[i]);
      }
    }
  }

  lemma {:induction false} PackageSettled(e: Scan, anchors: seq<Anchor>)
    ensures SettlePackage(e, anchors) == [] <==>
            e.headerSeen && e.report.complete && PackageHeld(e.report.checkpoint, anchors)
  {
    hide ComparePackageAnchors, PackageHeld;
    PackageAnchorsSettled(e.report.checkpoint, anchors);
    var headed, compared, framed := When(!e.headerSeen, NoHeader), ComparePackageAnchors(e.report.checkpoint, anchors),
                                    When(!e.report.complete, NoTrailer);
    NothingAdded(headed + compared, framed);
    NothingAdded(headed, compared);
  }

  /** Settling finds nothing exactly when all of these hold. */
  lemma {:induction false} SettledExactly(c: Codec, e: Scan, anchors: seq<Anchor>)
    ensures Settled(c, e, anchors).findings == [] <==>
            e.report.findings == [] && e.headerSeen && e.report.complete && CountsAgree(e) &&
            (forall run :: run in e.emptyBlocks ==> run in e.claims.unreadable) && e.stamped <= e.carried &&
            (if e.report.selection.Some? then
               PackageHeld(e.report.checkpoint, anchors) &&
               forall i :: 0 <= i < |e.report.selection.value.cases| ==> e.report.selection.value.cases[i] in e.carried
             else TreeHeld(c.hash, Sorted(e.leaves), e.report.checkpoint, anchors))
  {
    hide SettlePackage, SettleWhole, SettleTrailer, SettleCases, CountsAgree, PackageHeld, TreeHeld, Sorted;
    var shape := if e.report.selection.Some? then SettlePackage(e, anchors) else SettleWhole(c.hash, e, anchors);
    NothingAdded(e.report.findings, shape + SettleTrailer(e) + SettleCases(e));
    NothingAdded(shape + SettleTrailer(e), SettleCases(e));
    NothingAdded(shape, SettleTrailer(e));
    CasesSettled(e);
    if e.report.complete {
      TrailerSettled(e);
    }
    WholeSettled(c.hash, e, anchors);
    PackageSettled(e, anchors);
  }

  // ── The theorem ────────────────────────────────────────────────────────

  /** What a file's header says its blocks are held to. */
  function HeadOf(lines: seq<Line>): Report {
    EmptyReport.(checkpoint := CheckpointIn(lines), selection := SelectionIn(lines))
  }

  /** How many blocks carry a record. */
  function Filled(blocks: seq<Block>): nat {
    if blocks == [] then 0 else Filled(blocks[..|blocks| - 1]) + One(blocks[|blocks| - 1].lines != [])
  }

  /** The block shares its run and its place with no other, its place is whole and,
      if it carries records, it is their one history. */
  ghost predicate BlockFine(c: Codec, keys: Option<SignatureCheck>, r: Report, blocks: seq<Block>, i: nat)
    requires i < |blocks|
  {
    var b := blocks[i];
    (forall j :: 0 <= j < |blocks| && j != i ==> blocks[j].run != b.run && !SamePlace(blocks[j], b)) &&
    (ClaimsPlace(b.header) ==> Placed(b.header).Some?) &&
    (b.lines != [] ==> OneHistory(c, keys, r, blocks, b.run, i))
  }

  /** And if it carries no record, a trailer says so. */
  ghost predicate BlockStands(c: Codec, keys: Option<SignatureCheck>, lines: seq<Line>, i: nat)
    requires i < |BlocksOf(lines)|
  {
    BlockFine(c, keys, HeadOf(lines), BlocksOf(lines), i) &&
    (BlocksOf(lines)[i].lines == [] ==> DeclaredUnread(lines, BlocksOf(lines)[i].run))
  }

  ghost predicate BlocksStand(c: Codec, keys: Option<SignatureCheck>, lines: seq<Line>) {
    forall i :: 0 <= i < |BlocksOf(lines)| ==> BlockStands(c, keys, lines, i)
  }

  /** The trailer in force counts the run lines, the blocks that carry records and
      the record lines. */
  predicate TrailerAgrees(lines: seq<Line>) {
    LastTrailer(lines).Some? &&
    var t := LastTrailer(lines).value;
    t.runsRequested == Some(RunLines(lines)) && t.runsExported == Some(Filled(BlocksOf(lines))) &&
    t.records == Some(RecordLines(lines))
  }

  /** Record `j` of block `b` is stamped with a case. */
  predicate LineStamps(c: Codec, b: Block, j: nat, id: CaseId) {
    j < |b.lines| && b.lines[j].raw.Some? && c.read(b.lines[j].raw.value).Readable? &&
    c.read(b.lines[j].raw.value).body.case_ == Some(id)
  }

  /** Every case a record is stamped with, and every case a package selects, has a
      case line. */
  ghost predicate CasesStand(c: Codec, lines: seq<Line>) {
    (forall i, j: nat, id :: 0 <= i < |BlocksOf(lines)| && LineStamps(c, BlocksOf(lines)[i], j, id) ==>
       HasCaseLine(lines, id)) &&
    (SelectionIn(lines).Some? ==>
       forall i :: 0 <= i < |SelectionIn(lines).value.cases| ==> HasCaseLine(lines, SelectionIn(lines).value.cases[i]))
  }

  /** The leaves are the log the header commits to and every outside checkpoint is
      of it; of a package, whose leaves are proved one by one, only an outside
      checkpoint of its own size is compared. */
  ghost predicate CommitmentStands(c: Codec, anchors: seq<Anchor>, lines: seq<Line>) {
    if SelectionIn(lines).Some? then PackageHeld(CheckpointIn(lines), anchors)
    else TreeHeld(c.hash, FileLeaves(c.hash, BlocksOf(lines)), CheckpointIn(lines), anchors)
  }

  ghost predicate FileStands(c: Codec, keys: Option<SignatureCheck>, anchors: seq<Anchor>, lines: seq<Line>) {
    Headed(lines) && AllFit(lines) && BlocksStand(c, keys, lines) && TrailerAgrees(lines) && CasesStand(c, lines) &&
    CommitmentStands(c, anchors, lines)
  }

  /** A file of which every line fits is one the reader can answer for. */
  lemma {:induction false} FitIsAnswerable(c: Codec, keys: Option<SignatureCheck>, lines: seq<Line>)
    requires AllFit(lines)
    ensures !Scanned(c, keys, Start, lines).report.unverifiable
  {
    hide Step, FitsAt;
    if lines != [] {
      AllFitOfLast(lines);
      FitIsAnswerable(c, keys, lines[..|lines| - 1]);
      UnanswerableIsHeader(c, keys, Scanned(c, keys, Start, lines[..|lines| - 1]), lines[|lines| - 1]);
      if lines[|lines| - 1].HeaderLine? {
        FitHeaderIsGood(lines, |lines| - 1);
      }
    }
  }

  lemma FitHeaderIsGood(lines: seq<Line>, i: nat)
    requires i < |lines| && FitsAt(lines, i) && lines[i].HeaderLine?
    ensures GoodHeader(lines[i].kind, lines[i].header)
  {
  }

  lemma {:induction false} UnanswerableIsHeader(c: Codec, keys: Option<SignatureCheck>, s: Scan, line: Line)
    ensures Step(c, keys, s, line).report.unverifiable ==>
              s.report.unverifiable || (line.HeaderLine? && !GoodHeader(line.kind, line.header))
  {
    hide ReadRun, ReadRecord, When;
    var u := s.(first := false);
    match line {
      case RunLine(h) => RunKeepsTheRules(c, keys, u, h);
      case RecordLine(f) => RecordKeepsTheRules(c, u, f);
      case UnknownLine(f, _) => RecordKeepsTheRules(c, u, f);
      case _ =>
    }
  }

  lemma {:induction false} FilledIsFull(c: Codec, blocks: seq<Block>, passes: seq<Pass>)
    requires |passes| == |blocks|
    requires forall i :: 0 <= i < |blocks| ==> passes[i].records == |blocks[i].lines|
    ensures FullOf(passes) == Filled(blocks)
  {
    if blocks != [] {
      FilledIsFull(c, blocks[..|blocks| - 1], passes[..|passes| - 1]);
    }
  }

  /** What one block's pass says, in terms of the block. */
  lemma {:induction false} QuietBlockMeans(c: Codec, keys: Option<SignatureCheck>, r: Report, blocks: seq<Block>,
                                           i: nat)
    requires i < |blocks| && forall j :: 0 <= j < |blocks| ==> Fresh(blocks, j)
    ensures ClosedQuietly(c, keys, r, PassAt(c, blocks, i)) <==>
            (ClaimsPlace(blocks[i].header) ==> Placed(blocks[i].header).Some?) &&
            (blocks[i].lines != [] ==> OneHistory(c, keys, r, blocks, blocks[i].run, i))
    ensures PassAt(c, blocks, i).records == |blocks[i].lines| && PassAt(c, blocks, i).run == blocks[i].run
  {
    hide ReadBlock, Fresh, Recomputed, SignedHistory, LeafIsProved, HasSealingConclusion, Head, CarriedRaws,
         ClosingFindings, OneHistory, LineHolds;
    BlockReads(c, blocks[i]);
    FreshIsOnly(blocks, i);
    StandsMeans(c, keys, r, blocks, blocks[i].run, i);
    if OneHistory(c, keys, r, blocks, blocks[i].run, i) {
      OneHistoryIsPlaced(c, keys, r, blocks, i);
    }
  }

  lemma OneHistoryIsPlaced(c: Codec, keys: Option<SignatureCheck>, r: Report, blocks: seq<Block>, i: nat)
    requires i < |blocks| && OneHistory(c, keys, r, blocks, blocks[i].run, i)
    ensures ClaimsPlace(blocks[i].header) ==> Placed(blocks[i].header).Some?
  {
    hide ReadBlock, Recomputes, Recomputed, SignedHistory, LeafIsProved, HasSealingConclusion, Head, CarriedRaws,
         ClaimsPlace, Placed;
  }

  /** The scan's own terms for an end nothing is found at. */
  ghost predicate EndsWell(c: Codec, anchors: seq<Anchor>, e: Scan) {
    e.headerSeen && e.report.complete && CountsAgree(e) &&
    (forall run :: run in e.emptyBlocks ==> run in e.claims.unreadable) && e.stamped <= e.carried &&
    (if e.report.selection.Some? then
       PackageHeld(e.report.checkpoint, anchors) &&
       forall i :: 0 <= i < |e.report.selection.value.cases| ==> e.report.selection.value.cases[i] in e.carried
     else TreeHeld(c.hash, Sorted(e.leaves), e.report.checkpoint, anchors))
  }

  lemma {:induction false} SoundIsEndsWell(c: Codec, keys: Option<SignatureCheck>, anchors: seq<Anchor>,
                                           lines: seq<Line>)
    ensures var s := Scanned(c, keys, Start, lines);
            var e := FinishRun(c, keys, s);
            IsSound(Verify(c, keys, anchors, lines)) <==>
            !s.report.unverifiable && AllFit(lines) && BlocksQuiet(c, keys, e) && EndsWell(c, anchors, e)
  {
    hide Scanned, FinishRun, AllFit, BlocksQuiet, PackageHeld, TreeHeld, CountsAgree, Sorted, Settled;
    var s := Scanned(c, keys, Start, lines);
    var e := FinishRun(c, keys, s);
    EndIsSilent(c, keys, lines);
    FinishKeepsTheRules(c, keys, s);
    SettledExactly(c, e, anchors);
    SettledKeeps(c, e, anchors);
  }

  /** Everything the scan ends with, in terms of the lines, on a file of which
      every line fits. */
  lemma {:induction false} EndSays(c: Codec, keys: Option<SignatureCheck>, lines: seq<Line>)
    requires AllFit(lines)
    ensures var e := FinishRun(c, keys, Scanned(c, keys, Start, lines));
            var blocks := BlocksOf(lines);
            !e.report.unverifiable && e.pass.None? && |e.closed| == |blocks| &&
            (forall i :: 0 <= i < |blocks| ==> e.closed[i] == PassAt(c, blocks, i)) &&
            e.leaves == LeavesOf(c.hash, blocks) &&
            (forall run :: run in e.claims.unreadable <==> DeclaredUnread(lines, run)) &&
            (forall id :: id in e.carried <==> HasCaseLine(lines, id)) && Ledger(e) &&
            (e.report.findings == [] ==>
               e.report.selection == SelectionIn(lines) && e.report.checkpoint == CheckpointIn(lines) &&
               (e.headerSeen <==> Headed(lines)) && (e.report.complete <==> LastTrailer(lines).Some?) &&
               e.runBlocks == RunLines(lines) && e.report.records == RecordLines(lines) &&
               (LastTrailer(lines).Some? ==>
                  e.claims.runsRequested == LastTrailer(lines).value.runsRequested &&
                  e.claims.runsExported == LastTrailer(lines).value.runsExported &&
                  e.claims.records == LastTrailer(lines).value.records))
  {
    hide Scanned, FinishRun, AllFit, PassAt, LeavesOf, BlocksOf, DeclaredUnread, HasCaseLine, Ledger, RunLines,
         RecordLines, CaseLines, LastTrailer, ListsExactly;
    var s := Scanned(c, keys, Start, lines);
    FitIsAnswerable(c, keys, lines);
    FinishKeepsTheRules(c, keys, s);
    FinishedHasNoPass(c, keys, s);
    ScanAllTracks(c, keys, lines);
    ScannedClaims(c, keys, lines);
    ScannedLedger(c, keys, lines);
    FinishLedger(c, keys, s);
    ScanFacts(c, keys, lines);
    ScannedTallies(c, keys, lines);
    FinishExtends(c, keys, s);
  }

  lemma {:induction false} FreshMeans(blocks: seq<Block>)
    ensures (forall i :: 0 <= i < |blocks| ==> Fresh(blocks, i)) <==>
            forall i, j :: 0 <= i < |blocks| && 0 <= j < |blocks| && i != j ==>
              blocks[i].run != blocks[j].run && !SamePlace(blocks[i], blocks[j])
  {
    if forall i :: 0 <= i < |blocks| ==> Fresh(blocks, i) {
      forall i, j | 0 <= i < |blocks| && 0 <= j < |blocks| && i != j
        ensures blocks[i].run != blocks[j].run && !SamePlace(blocks[i], blocks[j])
      {
        FreshIsOnly(blocks, j);
      }
    }
  }

  lemma {:induction false} CleanIsFresh(c: Codec, keys: Option<SignatureCheck>, r: Report, blocks: seq<Block>)
    requires forall i :: 0 <= i < |blocks| ==> ClosedQuietly(c, keys, r, PassAt(c, blocks, i))
    ensures forall i :: 0 <= i < |blocks| ==> Fresh(blocks, i)
  {
    hide ClosedQuietly, PassAt, Fresh;
    forall i | 0 <= i < |blocks| ensures Fresh(blocks, i) {
      QuietIsFresh(c, keys, r, blocks, i);
    }
  }

  lemma FineWhenFresh(c: Codec, keys: Option<SignatureCheck>, r: Report, blocks: seq<Block>, i: nat)
    requires i < |blocks| && forall j :: 0 <= j < |blocks| ==> Fresh(blocks, j)
    ensures ClosedQuietly(c, keys, r, PassAt(c, blocks, i)) <==> BlockFine(c, keys, r, blocks, i)
  {
    hide ClosedQuietly, PassAt, Fresh, OneHistory, ClaimsPlace, Placed, SamePlace;
    FreshMeans(blocks);
    QuietBlockMeans(c, keys, r, blocks, i);
  }

  lemma {:induction false} FineIsFresh(c: Codec, keys: Option<SignatureCheck>, r: Report, blocks: seq<Block>)
    requires forall i :: 0 <= i < |blocks| ==> BlockFine(c, keys, r, blocks, i)
    ensures forall i :: 0 <= i < |blocks| ==> Fresh(blocks, i)
  {
    hide Fresh, OneHistory, ClaimsPlace, Placed, SamePlace;
    FreshMeans(blocks);
    forall i, j | 0 <= i < |blocks| && 0 <= j < |blocks| && i != j
      ensures blocks[i].run != blocks[j].run && !SamePlace(blocks[i], blocks[j])
    {
      assert BlockFine(c, keys, r, blocks, j);
    }
  }

  /** Closed quietly, block by block. */
  lemma {:induction false} BlocksMean(c: Codec, keys: Option<SignatureCheck>, r: Report, blocks: seq<Block>)
    ensures (forall i :: 0 <= i < |blocks| ==> ClosedQuietly(c, keys, r, PassAt(c, blocks, i))) <==>
            forall i :: 0 <= i < |blocks| ==> BlockFine(c, keys, r, blocks, i)
  {
    hide ClosedQuietly, PassAt, Fresh, BlockFine;
    if forall i :: 0 <= i < |blocks| ==> ClosedQuietly(c, keys, r, PassAt(c, blocks, i)) {
      CleanIsFresh(c, keys, r, blocks);
      forall i | 0 <= i < |blocks| ensures BlockFine(c, keys, r, blocks, i) {
        FineWhenFresh(c, keys, r, blocks, i);
      }
    }
    if forall i :: 0 <= i < |blocks| ==> BlockFine(c, keys, r, blocks, i) {
      FineIsFresh(c, keys, r, blocks);
      forall i | 0 <= i < |blocks| ensures ClosedQuietly(c, keys, r, PassAt(c, blocks, i)) {
        FineWhenFresh(c, keys, r, blocks, i);
      }
    }
  }

  /** A clean block is stamped with exactly the cases its lines are. */
  lemma {:induction false} CleanStamps(c: Codec, keys: Option<SignatureCheck>, r: Report, blocks: seq<Block>, i: nat,
                                       id: CaseId)
    requires i < |blocks| && ClosedQuietly(c, keys, r, PassAt(c, blocks, i))
    ensures PassStamps(PassAt(c, blocks, i), id) <==> exists j: nat :: LineStamps(c, blocks[i], j, id)
  {
    hide ReadBlock, Fresh, ClosingFindings, Recomputes, Head, CarriedRaws;
    var b := blocks[i];
    BlockReads(c, b);
    var records := ReadBlock(c, b).resealed;
    forall j | 0 <= j < |b.lines|
      ensures records[j].body == c.read(b.lines[j].raw.value).body && b.lines[j].raw.Some? &&
              c.read(b.lines[j].raw.value).Readable?
    {
      assert records[j] == RecordOf(c, b.lines[..j + 1]);
    }
    if PassStamps(PassAt(c, blocks, i), id) {
      var j :| 0 <= j < |records| && records[j].body.case_ == Some(id);
      assert LineStamps(c, b, j, id);
    }
    if j: nat :| LineStamps(c, b, j, id) {
      assert records[j].body.case_ == Some(id);
    }
  }

  lemma {:induction false} StampsMean(c: Codec, keys: Option<SignatureCheck>, r: Report, blocks: seq<Block>,
                                      passes: seq<Pass>, id: CaseId)
    requires |passes| == |blocks| && forall i :: 0 <= i < |blocks| ==> passes[i] == PassAt(c, blocks, i)
    requires forall i :: 0 <= i < |blocks| ==> ClosedQuietly(c, keys, r, passes[i])
    ensures StampedIn(passes, id) <==> exists i, j: nat :: 0 <= i < |blocks| && LineStamps(c, blocks[i], j, id)
  {
    hide PassAt, ClosedQuietly, PassStamps, LineStamps;
    forall i | 0 <= i < |blocks|
      ensures PassStamps(passes[i], id) <==> exists j: nat :: LineStamps(c, blocks[i], j, id)
    {
      CleanStamps(c, keys, r, blocks, i, id);
    }
  }

  lemma {:induction false} EmptiesMean(c: Codec, blocks: seq<Block>, passes: seq<Pass>, run: RunId)
    requires |passes| == |blocks| && forall i :: 0 <= i < |blocks| ==> passes[i] == PassAt(c, blocks, i)
    ensures EmptyIn(passes, run) <==> exists i :: 0 <= i < |blocks| && blocks[i].lines == [] && blocks[i].run == run
    ensures FullOf(passes) == Filled(blocks)
  {
    hide PassAt, FullOf, Filled;
    forall i | 0 <= i < |blocks| ensures passes[i].records == |blocks[i].lines| && passes[i].run == blocks[i].run {
      PassCounts(c, blocks, i);
    }
    FilledIsFull(c, blocks, passes);
  }

  lemma PassCounts(c: Codec, blocks: seq<Block>, i: nat)
    requires i < |blocks|
    ensures PassAt(c, blocks, i).records == |blocks[i].lines| && PassAt(c, blocks, i).run == blocks[i].run
  {
    hide ReadBlock, Fresh, Recomputes, Recomputed, Head, CarriedRaws;
    BlockReads(c, blocks[i]);
  }

  lemma FineIsLocal(c: Codec, keys: Option<SignatureCheck>, r: Report, t: Report, blocks: seq<Block>)
    requires r.selection == t.selection && r.checkpoint == t.checkpoint
    ensures forall i :: 0 <= i < |blocks| ==> (BlockFine(c, keys, r, blocks, i) <==> BlockFine(c, keys, t, blocks, i))
  {
    hide ReadBlock, Recomputes, Recomputed, SignedHistory, LeafIsProved, HasSealingConclusion, Head, CarriedRaws, Placed,
         SamePlace, ClaimsPlace;
  }

  /** The blocks of a file of which every line fits are as they should be exactly
      when the scan left them so. */
  lemma {:induction false} QuietIsStanding(c: Codec, keys: Option<SignatureCheck>, lines: seq<Line>)
    requires AllFit(lines)
    requires var e := FinishRun(c, keys, Scanned(c, keys, Start, lines));
             e.report.selection == SelectionIn(lines) && e.report.checkpoint == CheckpointIn(lines)
    ensures var e := FinishRun(c, keys, Scanned(c, keys, Start, lines));
            BlocksQuiet(c, keys, e) && (forall run :: run in e.emptyBlocks ==> run in e.claims.unreadable) <==>
            BlocksStand(c, keys, lines)
  {
    hide Scanned, FinishRun, AllFit, PassAt, LeavesOf, BlocksOf, DeclaredUnread, HasCaseLine, RunLines, RecordLines,
         LastTrailer, ClosedQuietly, BlockFine, EmptyIn, FullOf, StampedIn, Lead;
    var e := FinishRun(c, keys, Scanned(c, keys, Start, lines));
    var blocks := BlocksOf(lines);
    EndSays(c, keys, lines);
    BlocksMean(c, keys, e.report, blocks);
    FineIsLocal(c, keys, e.report, HeadOf(lines), blocks);
    forall run ensures run in e.emptyBlocks <==>
                       exists i :: 0 <= i < |blocks| && blocks[i].lines == [] && blocks[i].run == run
    {
      EmptiesMean(c, blocks, e.closed, run);
    }
    if BlocksStand(c, keys, lines) {
      forall i | 0 <= i < |blocks| ensures BlockFine(c, keys, HeadOf(lines), blocks, i) {
        assert BlockStands(c, keys, lines, i);
      }
      forall run | run in e.emptyBlocks ensures run in e.claims.unreadable {
        var i :| 0 <= i < |blocks| && blocks[i].lines == [] && blocks[i].run == run;
        assert BlockStands(c, keys, lines, i);
      }
    }
  }

  /** For every file, set of keys and set of anchors: `verify` calls the file sound
      if and only if it stands, line by line, block by block, count by count and
      leaf by leaf. */
  lemma {:induction false} SoundExactly(c: Codec, keys: Option<SignatureCheck>, anchors: seq<Anchor>, lines: seq<Line>)
    ensures IsSound(Verify(c, keys, anchors, lines)) <==> FileStands(c, keys, anchors, lines)
  {
    hide Verify, Scanned, FinishRun, AllFit, PassAt, LeavesOf, BlocksOf, DeclaredUnread, HasCaseLine, RunLines,
         RecordLines, LastTrailer, BlocksQuiet, BlocksStand, EmptyIn, FullOf, Filled, StampedIn, Lead, Headed,
         TreeHeld, PackageHeld, CasesStand, Sorted;
    var e := FinishRun(c, keys, Scanned(c, keys, Start, lines));
    SoundIsEndsWell(c, keys, anchors, lines);
    EndIsSilent(c, keys, lines);
    if AllFit(lines) {
      FitIsAnswerable(c, keys, lines);
      EndSays(c, keys, lines);
      EmptiesMean(c, BlocksOf(lines), e.closed, 0);
      if BlocksQuiet(c, keys, e) {
        QuietIsStanding(c, keys, lines);
        CasesMean(c, keys, lines);
      }
      if BlocksStand(c, keys, lines) {
        StandingIsQuiet(c, keys, lines);
      }
    }
  }

  /** Standing blocks are quiet ones, whether or not anything else was found. */
  lemma {:induction false} StandingIsQuiet(c: Codec, keys: Option<SignatureCheck>, lines: seq<Line>)
    requires AllFit(lines) && BlocksStand(c, keys, lines)
    ensures BlocksQuiet(c, keys, FinishRun(c, keys, Scanned(c, keys, Start, lines)))
  {
    hide Scanned, FinishRun, AllFit, PassAt, LeavesOf, BlocksOf, DeclaredUnread, HasCaseLine, RunLines, RecordLines,
         LastTrailer, ClosedQuietly, BlockFine, Ledger, Lead;
    var e := FinishRun(c, keys, Scanned(c, keys, Start, lines));
    EndSays(c, keys, lines);
    HeaderHolds(c, keys, lines);
    BlocksMean(c, keys, e.report, BlocksOf(lines));
    FineIsLocal(c, keys, e.report, HeadOf(lines), BlocksOf(lines));
    forall i | 0 <= i < |BlocksOf(lines)| ensures BlockFine(c, keys, HeadOf(lines), BlocksOf(lines), i) {
      assert BlockStands(c, keys, lines, i);
    }
  }

  /** On a file of which every line fits, the report names what the header says. */
  lemma {:induction false} HeaderHolds(c: Codec, keys: Option<SignatureCheck>, lines: seq<Line>)
    requires AllFit(lines)
    ensures var s, e := Scanned(c, keys, Start, lines), FinishRun(c, keys, Scanned(c, keys, Start, lines));
            e.report.selection == SelectionIn(lines) && e.report.checkpoint == CheckpointIn(lines)
  {
    hide Scanned, AllFit, FinishRun;
    FinishKeepsTheRules(c, keys, Scanned(c, keys, Start, lines));
    HeaderIsRead(c, keys, lines);
  }

  /** The header members of a scan, whether or not anything was found in blocks. */
  lemma {:induction false} HeaderIsRead(c: Codec, keys: Option<SignatureCheck>, lines: seq<Line>)
    requires AllFit(lines)
    ensures var s := Scanned(c, keys, Start, lines);
            s.report.selection == SelectionIn(lines) && s.report.checkpoint == CheckpointIn(lines) &&
            (s.first <==> Lead(lines).None?) && (s.first ==> s.report == EmptyReport) && !s.halted
  {
    hide Step, FitsAt;
    if lines != [] {
      var n := |lines| - 1;
      var s := Scanned(c, keys, Start, lines[..n]);
      AllFitOfLast(lines);
      HeaderIsRead(c, keys, lines[..n]);
      FitHeader(lines);
      StepHeader(c, keys, s, lines[n]);
      if lines[n].HeaderLine? {
        LeadIsFirst(lines[..n]);
        FitHeaderIsGood(lines, n);
        HeaderSays(s.report, lines[n].kind, lines[n].header);
      } else if s.first {
        FirstKeepsTheHeader(c, keys, s, lines[n]);
      } else {
        StepKeepsTheHeader(c, keys, s, lines[n]);
      }
    }
  }

  lemma FitHeader(lines: seq<Line>)
    requires lines != [] && FitsAt(lines, |lines| - 1)
    ensures !lines[|lines| - 1].NotJson?
    ensures lines[|lines| - 1].HeaderLine? ==> AllBlank(lines[..|lines| - 1])
  {
  }

  predicate AllBlank(lines: seq<Line>) {
    forall i :: 0 <= i < |lines| ==> lines[i].Blank?
  }

  lemma {:induction false} StepHeader(c: Codec, keys: Option<SignatureCheck>, s: Scan, line: Line)
    requires !s.halted && !line.NotJson?
    ensures var t := Step(c, keys, s, line);
            (line.HeaderLine? && s.first ==>
               t.report == HeaderReport(s.report, line.kind, line.header) && !t.first &&
               (!t.report.unverifiable ==> !t.halted)) &&
            (!line.HeaderLine? ==> !t.halted) && (line.Blank? ==> t == s)
  {
    hide ReadRun, ReadRecord, When, HeaderReport;
    var u := s.(first := false);
    match line {
      case RunLine(h) => RunKeepsTheRules(c, keys, u, h);
      case RecordLine(f) => RecordKeepsTheRules(c, u, f);
      case UnknownLine(f, _) => RecordKeepsTheRules(c, u, f);
      case _ =>
    }
  }

  /** The cases a quiet scan wants are those the lines are stamped with. */
  lemma {:induction false} CasesMean(c: Codec, keys: Option<SignatureCheck>, lines: seq<Line>)
    requires AllFit(lines) && BlocksQuiet(c, keys, FinishRun(c, keys, Scanned(c, keys, Start, lines)))
    requires var e := FinishRun(c, keys, Scanned(c, keys, Start, lines));
             e.report.selection == SelectionIn(lines) && e.report.checkpoint == CheckpointIn(lines)
    ensures var e := FinishRun(c, keys, Scanned(c, keys, Start, lines));
            CasesStand(c, lines) <==>
            e.stamped <= e.carried &&
            (e.report.selection.Some? ==>
               forall i :: 0 <= i < |e.report.selection.value.cases| ==> e.report.selection.value.cases[i] in e.carried)
  {
    hide Scanned, FinishRun, AllFit, PassAt, LeavesOf, BlocksOf, DeclaredUnread, HasCaseLine, RunLines, RecordLines,
         LastTrailer, ClosedQuietly, EmptyIn, FullOf, StampedIn, Lead, LineStamps;
    var e := FinishRun(c, keys, Scanned(c, keys, Start, lines));
    var blocks := BlocksOf(lines);
    EndSays(c, keys, lines);
    assert Passes(e) == e.closed;
    forall id ensures id in e.stamped <==> exists i, j: nat :: 0 <= i < |blocks| && LineStamps(c, blocks[i], j, id) {
      StampsMean(c, keys, e.report, blocks, e.closed, id);
    }
  }
}
