/** Every file the writer writes verifies: what `verify` makes of a written
    file, line by line and then in settlement. */
module WriterMeetsVerifier {
  import opened Wrappers
  import opened Hashing
  import opened Merkle
  import opened Wire
  import opened VerifySpec
  import opened Blocks
  import opened Planes
  import opened WriterSpec
  import opened HonestBlocks
  import opened Binding

  // ── Record lines ───────────────────────────────────────────────────────

  function Recorded(s: Scan, pass: Pass, count: nat, stamps: set<CaseId>): Scan {
    s.(report := s.report.(records := s.report.records + count), pass := Some(pass), stamped := s.stamped + stamps)
  }

  lemma {:induction false} OneRecord(c: Codec, keys: Option<SignatureCheck>, s: Scan, f: RecordFields)
    requires s.pass.Some? && !s.halted && !s.first
    requires JudgeRecord(c, f, s.pass.value).found == []
    ensures var j := JudgeRecord(c, f, s.pass.value);
            Step(c, keys, s, RecordLine(f)) ==
            Recorded(s, j.pass, 1, match j.stamp case Some(id) => {id} case None => {})
  {
    hide JudgeRecord;
    var j := JudgeRecord(c, f, s.pass.value);
    assert s.report.findings + j.found == s.report.findings;
  }

  /** Record lines under an open block, when none of them is found wanting. */
  lemma {:induction false} ScannedRecords(c: Codec, keys: Option<SignatureCheck>, s: Scan, fields: seq<RecordFields>)
    requires s.pass.Some? && !s.halted && !s.first
    requires BlockFindings(c, s.pass.value, fields) == []
    ensures Scanned(c, keys, s, AsLines(fields)) ==
            Recorded(s, PassAfter(c, s.pass.value, fields), |fields|, StampsRead(c, s.pass.value, fields))
  {
    hide JudgeRecord, Step;
    if fields != [] {
      var n := |fields| - 1;
      ScannedRecords(c, keys, s, fields[..n]);
      var t := Scanned(c, keys, s, AsLines(fields[..n]));
      assert AsLines(fields)[..n] == AsLines(fields[..n]);
      OneRecord(c, keys, t, fields[n]);
    }
  }

  // ── A block ────────────────────────────────────────────────────────────

  function LeavesTaken(h: Hash, takens: seq<Taken>): seq<Leaf> {
    if takens == [] then []
    else
      LeavesTaken(h, takens[..|takens| - 1]) +
      (match takens[|takens| - 1].placed case Some(at) => [(at.0, LeafHashOf(h, at.1))] case None => [])
  }

  ghost function RunsTaken(takens: seq<Taken>): set<RunId> {
    if takens == [] then {} else RunsTaken(takens[..|takens| - 1]) + {takens[|takens| - 1].run}
  }

  ghost function PlacesTaken(takens: seq<Taken>): set<nat> {
    if takens == [] then {}
    else
      PlacesTaken(takens[..|takens| - 1]) +
      (match takens[|takens| - 1].placed case Some(at) => {at.0} case None => {})
  }

  /** The scan once the blocks of `takens` are read and the last one is closed:
      nothing found, and everything counted. */
  ghost predicate After(c: Codec, cp: Checkpoint, selection: Option<Selection>, s: Scan, takens: seq<Taken>) {
    s.report == Report(cp, Exported(takens), [], RecordTotal(takens), 0, false, false, selection) &&
    s.headerSeen && !s.first && !s.halted && s.pass.None? &&
    s.leaves == LeavesTaken(c.hash, takens) && s.runBlocks == |takens| && s.readRuns == |Exported(takens)| &&
    s.emptyBlocks == Unread(takens) && s.claims == TrailerClaims(None, None, None, []) &&
    s.stamped == StampsTaken(takens) && s.carried == {} &&
    s.blocksOf == RunsTaken(takens) && s.positions == PlacesTaken(takens)
  }

  /** What the next block adds, given that nothing before it repeats it. */
  ghost predicate Next(takens: seq<Taken>, t: Taken) {
    t.run !in RunsTaken(takens) && (t.placed.Some? ==> t.placed.value.0 !in PlacesTaken(takens))
  }

  function Opened(c: Codec, s: Scan, t: Taken): Scan {
    s.(runBlocks := s.runBlocks + 1, pass := Some(OpenPass(BlockHeader(t), t.run)),
       leaves := s.leaves + (match t.placed case Some(at) => [(at.0, LeafHashOf(c.hash, at.1))] case None => []),
       blocksOf := s.blocksOf + {t.run},
       positions := s.positions + (match t.placed case Some(at) => {at.0} case None => {}))
  }

  lemma OpensQuietly(c: Codec, s: Scan, t: Taken)
    requires s.report.findings == [] && s.pass.None? && t.run !in s.blocksOf
    requires t.placed.Some? ==> t.placed.value.0 !in s.positions
    ensures ClaimOnce(OpenRunBlock(c, s.(runBlocks := s.runBlocks + 1), BlockHeader(t))) == Opened(c, s, t)
  {
    hide *;
    PlacesQuietly(c, s.(runBlocks := s.runBlocks + 1), t);
    ClaimsQuietly(c, s, t);
  }

  /** The block under its header, before the claim on its run and position. */
  function Placing(c: Codec, s: Scan, t: Taken): Scan {
    s.(pass := Some(OpenPass(BlockHeader(t), t.run)),
       leaves := s.leaves + (match t.placed case Some(at) => [(at.0, LeafHashOf(c.hash, at.1))] case None => []))
  }

  lemma PlacesQuietly(c: Codec, s: Scan, t: Taken)
    requires s.report.findings == []
    ensures OpenRunBlock(c, s, BlockHeader(t)) == Placing(c, s, t)
  {
    hide LeafHashOf, OpenPass;
    assert s.report.(findings := []) == s.report;
  }

  lemma ClaimsQuietly(c: Codec, s: Scan, t: Taken)
    requires s.report.findings == [] && t.run !in s.blocksOf
    requires t.placed.Some? ==> t.placed.value.0 !in s.positions
    ensures ClaimOnce(Placing(c, s.(runBlocks := s.runBlocks + 1), t)) == Opened(c, s, t)
  {
    hide LeafHashOf, Without;
    assert s.report.(findings := []) == s.report;
  }

  lemma FinishRecounted(c: Codec, keys: Option<SignatureCheck>, s: Scan)
    ensures FinishRun(c, keys, s.(runBlocks := s.runBlocks + 1)) ==
            FinishRun(c, keys, s).(runBlocks := FinishRun(c, keys, s).runBlocks + 1)
  {
    hide FinishRun, ClosingFindings;
    FinishForms(c, keys, s);
    FinishForms(c, keys, s.(runBlocks := s.runBlocks + 1));
  }

  /** The line that opens a block closes the one before it. */
  lemma {:induction false} OpensBlock(c: Codec, keys: Option<SignatureCheck>, s: Scan, t: Taken)
    requires !s.halted && !s.first
    requires var f := FinishRun(c, keys, s);
             f.report.findings == [] && f.pass.None? && t.run !in f.blocksOf && !f.first &&
             (t.placed.Some? ==> t.placed.value.0 !in f.positions)
    ensures Step(c, keys, s, RunLine(BlockHeader(t))) == Opened(c, FinishRun(c, keys, s), t)
  {
    hide FinishRun, OpenRunBlock, ClaimOnce, Opened;
    FinishRecounted(c, keys, s);
    OpensQuietly(c, FinishRun(c, keys, s), t);
    assert s.(first := false) == s;
  }

  /** What a block is closed as: its records counted, and the run sound when it
      carried any. */
  function ClosedAs(s: Scan, p: Pass, t: Taken, stamps: set<CaseId>): Scan {
    var counted := s.(report := s.report.(records := s.report.records + |t.records|), pass := None,
                      stamped := s.stamped + stamps, closed := s.closed + [p]);
    if t.records == [] then counted.(emptyBlocks := s.emptyBlocks + [t.run])
    else counted.(readRuns := s.readRuns + 1, report := counted.report.(sound := s.report.sound + [t.run]))
  }

  lemma {:induction false} ClosesQuietly(c: Codec, keys: Option<SignatureCheck>, s: Scan, p: Pass, t: Taken,
                                         stamps: set<CaseId>)
    requires p.records == |t.records| && p.run == t.run && p.clean && s.report.findings == []
    requires t.records != [] ==> ClosingFindings(c, keys, s.report.selection.Some?, s.report.checkpoint, p) == []
    ensures FinishRun(c, keys, Recorded(s, p, |t.records|, stamps)) == ClosedAs(s, p, t, stamps)
  {
    hide ClosingFindings;
    assert s.report.findings + [] == s.report.findings;
  }

  /** A block the writer took, ready to be closed without a finding. */
  ghost predicate Closes(c: Codec, keys: Option<SignatureCheck>, package: bool, cp: Checkpoint, t: Taken) {
    t.records != [] ==>
      HonestRun(c, t.run, t.records) &&
      (t.placed.Some? ==> t.placed.value.1 == t.records[|t.records| - 1].hash) &&
      (package && HasSealingConclusion(t.records) ==> t.placed.Some?) &&
      (package && t.placed.Some? ==> LeafIsProved(c.hash, t.placed.value.1, Some(t.placed.value.0), t.proof, cp)) &&
      (keys.Some? ==> SignedHistory(c.hash, keys.value, t.records))
  }

  lemma {:induction false} ReadsBlock(c: Codec, keys: Option<SignatureCheck>, package: bool, cp: Checkpoint, t: Taken)
    requires Closes(c, keys, package, cp, t)
    ensures var entered := OpenPass(BlockHeader(t), t.run);
            var fields := RecordsFor(c, t.records);
            var p := PassAfter(c, entered, fields);
            BlockFindings(c, entered, fields) == [] && p.records == |t.records| && p.run == t.run && p.clean &&
            StampsRead(c, entered, fields) == StampsOf(t.records) &&
            (t.records != [] ==> ClosingFindings(c, keys, package, cp, p) == [])
  {
    hide LeafIsProved, SignedHistory, HasSealingConclusion, HonestRecord, JudgeRecord;
    var entered := OpenPass(BlockHeader(t), t.run);
    if t.records != [] {
      HonestBlock(c, entered, t.records);
      StampsAreRead(c, entered, t.records);
    } else {
      assert RecordsFor(c, t.records) == [];
    }
  }

  lemma AfterGrows(c: Codec, cp: Checkpoint, selection: Option<Selection>, s: Scan, p: Pass, takens: seq<Taken>,
                   t: Taken)
    requires After(c, cp, selection, s, takens)
    ensures After(c, cp, selection, ClosedAs(Opened(c, s, t), p, t, StampsOf(t.records)), takens + [t])
  {
    hide StampsOf, LeafHashOf, OpenPass, BlockHeader;
    assert (takens + [t])[..|takens|] == takens;
  }

  /** The lines of one more block. */
  lemma {:induction false} BlockKeeps(c: Codec, keys: Option<SignatureCheck>, cp: Checkpoint,
                                      selection: Option<Selection>, s: Scan, takens: seq<Taken>, t: Taken)
    requires !s.halted && !s.first && After(c, cp, selection, FinishRun(c, keys, s), takens) && Next(takens, t)
    requires Closes(c, keys, selection.Some?, cp, t)
    ensures var u := Scanned(c, keys, s, BlockLines(c, t));
            !u.halted && !u.first && After(c, cp, selection, FinishRun(c, keys, u), takens + [t])
  {
    hide FinishRun, Step, Closes, PassAfter, BlockFindings, StampsRead, StampsOf, OpenPass, BlockHeader, RecordsFor,
         ClosingFindings, Next, After, Opened;
    var f := FinishRun(c, keys, s);
    AfterSays(c, cp, selection, f, takens, t);
    OpensBlock(c, keys, s, t);
    var opened_ := Opened(c, f, t);
    OpenedSays(c, f, t);
    assert Scanned(c, keys, s, [RunLine(BlockHeader(t))]) == opened_ by {
      ScannedOfAppend(c, keys, s, [], RunLine(BlockHeader(t)));
      assert [] + [RunLine(BlockHeader(t))] == [RunLine(BlockHeader(t))];
    }
    ReadsBlock(c, keys, selection.Some?, cp, t);
    ScannedOfConcat(c, keys, s, [RunLine(BlockHeader(t))], AsLines(RecordsFor(c, t.records)));
    ScannedRecords(c, keys, opened_, RecordsFor(c, t.records));
    var p := PassAfter(c, OpenPass(BlockHeader(t), t.run), RecordsFor(c, t.records));
    ClosesQuietly(c, keys, opened_, p, t, StampsOf(t.records));
    AfterGrows(c, cp, selection, f, p, takens, t);
  }

  lemma AfterSays(c: Codec, cp: Checkpoint, selection: Option<Selection>, f: Scan, takens: seq<Taken>, t: Taken)
    requires After(c, cp, selection, f, takens) && Next(takens, t)
    ensures f.report.findings == [] && f.pass.None? && t.run !in f.blocksOf && !f.first && !f.halted
    ensures t.placed.Some? ==> t.placed.value.0 !in f.positions
    ensures f.report.selection == selection && f.report.checkpoint == cp
  {
  }

  lemma OpenedSays(c: Codec, f: Scan, t: Taken)
    ensures var o := Opened(c, f, t);
            o.pass == Some(OpenPass(BlockHeader(t), t.run)) && o.halted == f.halted && o.first == f.first &&
            o.report == f.report
  {
    hide OpenPass, BlockHeader;
  }

  // ── The header, the cases and the trailer ──────────────────────────────

  /** A selection a package may be written for names something. */
  predicate Names(selection: Option<Selection>) {
    selection.Some? ==> selection.value.cases != [] || selection.value.runs != []
  }

  lemma {:induction false} HeaderOpens(c: Codec, keys: Option<SignatureCheck>, cp: Checkpoint,
                                       selection: Option<Selection>)
    requires Names(selection)
    ensures var s := Step(c, keys, Start, HeaderFor(cp, selection));
            !s.halted && !s.first && After(c, cp, selection, FinishRun(c, keys, s), [])
  {
  }

  ghost predicate AllNext(takens: seq<Taken>) {
    forall i :: 0 <= i < |takens| ==> Next(takens[..i], takens[i])
  }

  /** Every block of a file, after its header. */
  lemma {:induction false} BlocksKeep(c: Codec, keys: Option<SignatureCheck>, cp: Checkpoint,
                                      selection: Option<Selection>, takens: seq<Taken>)
    requires Names(selection) && AllNext(takens)
    requires forall i :: 0 <= i < |takens| ==> Closes(c, keys, selection.Some?, cp, takens[i])
    ensures var s := Scanned(c, keys, Start, [HeaderFor(cp, selection)] + BlocksLines(c, takens));
            !s.halted && !s.first && After(c, cp, selection, FinishRun(c, keys, s), takens)
  {
    hide FinishRun, Step, Closes, Next, AllNext, After, BlockLines, HeaderFor;
    var header := [HeaderFor(cp, selection)];
    if takens == [] {
      assert header + BlocksLines(c, takens) == [] + header;
      ScannedOfAppend(c, keys, Start, [], HeaderFor(cp, selection));
      HeaderOpens(c, keys, cp, selection);
    } else {
      var n := |takens| - 1;
      AllNextFront(takens);
      BlocksKeep(c, keys, cp, selection, takens[..n]);
      var s := Scanned(c, keys, Start, header + BlocksLines(c, takens[..n]));
      BlockKeeps(c, keys, cp, selection, s, takens[..n], takens[n]);
      assert takens[..n] + [takens[n]] == takens;
      OneMoreBlock(c, keys, header, takens);
    }
  }

  lemma AllNextFront(takens: seq<Taken>)
    requires takens != [] && AllNext(takens)
    ensures var n := |takens| - 1; AllNext(takens[..n]) && Next(takens[..n], takens[n])
  {
    hide Next;
    var n := |takens| - 1;
    forall i | 0 <= i < n ensures Next(takens[..n][..i], takens[..n][i]) {
      assert takens[..n][..i] == takens[..i];
    }
  }

  lemma {:induction false} OneMoreBlock(c: Codec, keys: Option<SignatureCheck>, header: seq<Line>, takens: seq<Taken>)
    requires takens != []
    ensures var n := |takens| - 1;
            Scanned(c, keys, Start, header + BlocksLines(c, takens)) ==
            Scanned(c, keys, Scanned(c, keys, Start, header + BlocksLines(c, takens[..n])), BlockLines(c, takens[n]))
  {
    hide Scanned, BlockLines;
    var n := |takens| - 1;
    ScannedOfConcat(c, keys, Start, header + BlocksLines(c, takens[..n]), BlockLines(c, takens[n]));
    assert header + BlocksLines(c, takens) == header + BlocksLines(c, takens[..n]) + BlockLines(c, takens[n]);
  }

  function CasesTaken(s: Scan, rows: seq<CaseRow>): Scan {
    s.(report := s.report.(cases := s.report.cases + |rows|), carried := s.carried + IdsCarried(rows))
  }

  lemma {:induction false} OneCase(c: Codec, keys: Option<SignatureCheck>, s: Scan, row: CaseRow)
    requires !s.halted && !s.first
    ensures Step(c, keys, s, CaseLine(CaseFor(row))) ==
            s.(report := s.report.(cases := s.report.cases + 1), carried := s.carried + {row.case_.id})
  {
    assert s.report.findings + [] == s.report.findings;
  }

  lemma {:induction false} ScannedCases(c: Codec, keys: Option<SignatureCheck>, s: Scan, rows: seq<CaseRow>)
    requires !s.halted && !s.first
    ensures Scanned(c, keys, s, CasesLines(rows)) == CasesTaken(s, rows)
  {
    hide Step, CaseFor;
    if rows != [] {
      var n := |rows| - 1;
      ScannedCases(c, keys, s, rows[..n]);
      assert CasesLines(rows)[..n] == CasesLines(rows[..n]);
      OneCase(c, keys, Scanned(c, keys, s, CasesLines(rows[..n])), rows[n]);
    }
  }

  /** The trailer, on a scan that has counted as many cases as it declares. */
  function Ended(s: Scan, t: TrailerFields): Scan {
    s.(report := s.report.(complete := true),
       claims := TrailerClaims(t.runsRequested, t.runsExported, t.records, s.claims.unreadable + t.unreadable))
  }

  lemma {:induction false} TrailerEnds(c: Codec, keys: Option<SignatureCheck>, s: Scan, t: TrailerFields)
    requires !s.halted && !s.first && t.cases == Some(s.report.cases)
    ensures Step(c, keys, s, EndLine(t)) == Ended(s, t)
  {
    assert s.report.findings + [] == s.report.findings;
  }

  /** The last block is closed after the trailer as it would have been before. */
  lemma {:induction false} FinishCommutes(c: Codec, keys: Option<SignatureCheck>, s: Scan, rows: seq<CaseRow>,
                                          t: TrailerFields)
    ensures FinishRun(c, keys, Ended(CasesTaken(s, rows), t)) == Ended(CasesTaken(FinishRun(c, keys, s), rows), t)
  {
    hide *;
    FinishAfterCases(c, keys, s, rows);
    FinishAfterEnd(c, keys, CasesTaken(s, rows), t);
  }

  lemma {:induction false} FinishAfterCases(c: Codec, keys: Option<SignatureCheck>, s: Scan, rows: seq<CaseRow>)
    ensures FinishRun(c, keys, CasesTaken(s, rows)) == CasesTaken(FinishRun(c, keys, s), rows)
  {
    hide FinishRun, ClosingFindings, IdsCarried;
    FinishForms(c, keys, s);
    FinishForms(c, keys, CasesTaken(s, rows));
  }

  /** The three ways a block is closed, field by field. */
  function Closed(s: Scan, p: Pass, found: seq<Finding>): Scan {
    s.(pass := None, readRuns := s.readRuns + 1, closed := s.closed + [p],
       report := s.report.(findings := s.report.findings + found,
                           sound := s.report.sound + (if p.clean && found == [] then [p.run] else [])))
  }

  lemma FinishForms(c: Codec, keys: Option<SignatureCheck>, s: Scan)
    ensures s.pass.None? ==> FinishRun(c, keys, s) == s
    ensures s.pass.Some? && s.pass.value.records == 0 ==>
              FinishRun(c, keys, s) == s.(pass := None, emptyBlocks := s.emptyBlocks + [s.pass.value.run],
                                          closed := s.closed + [s.pass.value])
    ensures s.pass.Some? && s.pass.value.records > 0 ==>
              FinishRun(c, keys, s) ==
              Closed(s, s.pass.value,
                     ClosingFindings(c, keys, s.report.selection.Some?, s.report.checkpoint, s.pass.value))
  {
    hide ClosingFindings;
    assert s.report.sound + [] == s.report.sound;
  }

  lemma {:induction false} FinishAfterEnd(c: Codec, keys: Option<SignatureCheck>, s: Scan, t: TrailerFields)
    ensures FinishRun(c, keys, Ended(s, t)) == Ended(FinishRun(c, keys, s), t)
  {
    hide FinishRun, ClosingFindings;
    FinishForms(c, keys, s);
    FinishForms(c, keys, Ended(s, t));
  }

  /** The whole scan of a written file. */
  lemma {:induction false} WholeScan(c: Codec, keys: Option<SignatureCheck>, cp: Checkpoint,
                                     selection: Option<Selection>, takens: seq<Taken>,
                                     rows: seq<CaseRow>) returns (f: Scan)
    requires Names(selection) && AllNext(takens)
    requires forall i :: 0 <= i < |takens| ==> Closes(c, keys, selection.Some?, cp, takens[i])
    ensures After(c, cp, selection, f, takens)
    ensures ScanAll(c, keys, FileOf(c, cp, selection, takens, rows)) ==
            Ended(CasesTaken(f, rows), TrailerFor(takens, rows))
  {
    hide FinishRun, Step, Closes, Next, After, HeaderFor, AllNext, Ended, CasesTaken, TrailerFor, BlocksLines,
         CasesLines;
    var front := [HeaderFor(cp, selection)] + BlocksLines(c, takens);
    var s := Scanned(c, keys, Start, front);
    f := FinishRun(c, keys, s);
    var end := TrailerFor(takens, rows);
    BlocksKeep(c, keys, cp, selection, takens);
    ScannedOfConcat(c, keys, Start, front, CasesLines(rows));
    ScannedCases(c, keys, s, rows);
    ScannedOfAppend(c, keys, Start, front + CasesLines(rows), EndLine(end));
    CasesTakenSays(c, keys, cp, selection, s, takens, rows);
    TrailerEnds(c, keys, CasesTaken(s, rows), end);
    FinishCommutes(c, keys, s, rows, end);
  }

  lemma {:induction false} CasesTakenSays(c: Codec, keys: Option<SignatureCheck>, cp: Checkpoint,
                                          selection: Option<Selection>, s: Scan, takens: seq<Taken>, rows: seq<CaseRow>)
    requires !s.halted && !s.first && After(c, cp, selection, FinishRun(c, keys, s), takens)
    ensures var t := CasesTaken(s, rows);
            !t.halted && !t.first && TrailerFor(takens, rows).cases == Some(t.report.cases) &&
            !Ended(t, TrailerFor(takens, rows)).report.unverifiable
  {
    hide ClosingFindings, Exported, Unread, RecordTotal, StampsTaken, RunsTaken, PlacesTaken, LeavesTaken, IdsCarried;
  }
}
