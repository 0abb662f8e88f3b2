/** The blocks of a written file are the runs that were taken; what follows for
    a package that carries an unplaced sealing conclusion. */
module FileBlocks {
  import opened Wrappers
  import opened Hashing
  import opened Merkle
  import opened Wire
  import opened VerifySpec
  import opened Blocks
  import opened SoundList
  import opened Binding
  import opened Planes
  import opened WriterSpec
  import opened HonestBlocks
  import opened WriterMeetsVerifier
  import opened ExportVerifies
  import opened Packages

  function BlockOf(c: Codec, t: Taken): Block {
    Block(BlockHeader(t), t.run, RecordsFor(c, t.records))
  }

  function BlocksTaken(c: Codec, takens: seq<Taken>): (blocks: seq<Block>)
    ensures |blocks| == |takens|
    ensures forall i :: 0 <= i < |takens| ==> blocks[i] == BlockOf(c, takens[i])
  {
    if takens == [] then [] else BlocksTaken(c, takens[..|takens| - 1]) + [BlockOf(c, takens[|takens| - 1])]
  }

  lemma FramedOfAppend(a: seq<Line>, line: Line)
    ensures Framed(a + [line]) == FrameStep(Framed(a), line)
  {
    hide FrameStep;
    assert (a + [line])[..|a|] == a;
  }

  lemma {:induction false} FramedRecords(a: seq<Line>, b: Block, fields: seq<RecordFields>)
    requires !Framed(a).halted && Framed(a).current == Some(b)
    ensures Framed(a + AsLines(fields)) == Framed(a).(current := Some(b.(lines := b.lines + fields)))
  {
    hide Framed;
    if fields == [] {
      assert a + AsLines(fields) == a && b.lines + fields == b.lines;
    } else {
      var n := |fields| - 1;
      FramedRecords(a, b, fields[..n]);
      FramedOfAppend(a + AsLines(fields[..n]), RecordLine(fields[n]));
      assert a + AsLines(fields) == a + AsLines(fields[..n]) + [RecordLine(fields[n])];
      assert b.lines + fields == b.lines + fields[..n] + [fields[n]];
    }
  }

  lemma {:induction false} FramedBlock(c: Codec, a: seq<Line>, t: Taken)
    requires !Framed(a).halted
    ensures var f := Framed(a + BlockLines(c, t)); !f.halted && All(f) == All(Framed(a)) + [BlockOf(c, t)]
  {
    hide Framed, RecordsFor, AsLines;
    var opening := RunLine(BlockHeader(t));
    FramedOfAppend(a, opening);
    FramedRecords(a + [opening], Block(BlockHeader(t), t.run, []), RecordsFor(c, t.records));
    assert a + BlockLines(c, t) == a + [opening] + AsLines(RecordsFor(c, t.records));
    assert [] + RecordsFor(c, t.records) == RecordsFor(c, t.records);
  }

  lemma {:induction false} FramedBlocks(c: Codec, header: Line, takens: seq<Taken>)
    requires header.HeaderLine?
    ensures var f := Framed([header] + BlocksLines(c, takens)); !f.halted && All(f) == BlocksTaken(c, takens)
  {
    hide Framed, BlockLines, BlockOf, All;
    if takens == [] {
      FramedHeader(header);
      assert [header] + BlocksLines(c, takens) == [header];
    } else {
      var n := |takens| - 1;
      FramedBlocks(c, header, takens[..n]);
      FramedBlock(c, [header] + BlocksLines(c, takens[..n]), takens[n]);
      assert [header] + BlocksLines(c, takens) == [header] + BlocksLines(c, takens[..n]) + BlockLines(c, takens[n]);
    }
  }

  lemma FramedHeader(header: Line)
    requires header.HeaderLine?
    ensures !Framed([header]).halted && All(Framed([header])) == []
  {
    FramedOfAppend([], header);
    assert [] + [header] == [header];
  }

  lemma {:induction false} FramedCases(a: seq<Line>, rows: seq<CaseRow>)
    requires !Framed(a).halted
    ensures Framed(a + CasesLines(rows)) == Framed(a)
  {
    hide Framed;
    if rows == [] {
      assert a + CasesLines(rows) == a;
    } else {
      var n := |rows| - 1;
      FramedCases(a, rows[..n]);
      FramedOfAppend(a + CasesLines(rows[..n]), CaseLine(CaseFor(rows[n])));
      assert a + CasesLines(rows) == a + CasesLines(rows[..n]) + [CaseLine(CaseFor(rows[n]))];
    }
  }

  /** The blocks of a written file, in order. */
  lemma {:induction false} BlocksOfFile(c: Codec, cp: Checkpoint, package: Option<Selection>, takens: seq<Taken>,
                                        rows: seq<CaseRow>)
    ensures BlocksOf(FileOf(c, cp, package, takens, rows)) == BlocksTaken(c, takens)
  {
    hide Framed, BlocksLines, CasesLines, TrailerFor, BlocksTaken, All;
    var front := [HeaderFor(cp, package)] + BlocksLines(c, takens);
    FramedBlocks(c, HeaderFor(cp, package), takens);
    FramedCases(front, rows);
    FramedOfAppend(front + CasesLines(rows), EndLine(TrailerFor(takens, rows)));
  }

  // ── A package that carries a sealing conclusion with no leaf ────────────

  lemma {:induction false} HistoryIsPlaced(c: Codec, keys: Option<SignatureCheck>, r: Report, blocks: seq<Block>,
                                           run: RunId, i: nat)
    requires OneHistory(c, keys, r, blocks, run, i) && r.selection.Some?
    requires HasSealingConclusion(ReadBlock(c, blocks[i]).resealed)
    ensures Placed(blocks[i].header).Some?
  {
    hide ReadBlock, Recomputes, Recomputed, LeafIsProved, SignedHistory, HasSealingConclusion, Placed;
  }

  /** Past the first line, no line changes what the header selected. */
  lemma {:induction false} SelectionStays(c: Codec, keys: Option<SignatureCheck>, s: Scan, line: Line)
    requires !s.first
    ensures Step(c, keys, s, line).report.selection == s.report.selection && !Step(c, keys, s, line).first
  {
    hide ReadRun, ReadRecord, When;
    var t := s.(first := false);
    match line {
      case RunLine(h) => RunKeepsTheRules(c, keys, t, h);
      case RecordLine(f) => RecordKeepsTheRules(c, t, f);
      case UnknownLine(f, _) => RecordKeepsTheRules(c, t, f);
      case _ =>
    }
  }

  lemma {:induction false} SelectionLasts(c: Codec, keys: Option<SignatureCheck>, s: Scan, lines: seq<Line>)
    requires !s.first
    ensures Scanned(c, keys, s, lines).report.selection == s.report.selection && !Scanned(c, keys, s, lines).first
  {
    hide Step;
    if lines != [] {
      var n := |lines| - 1;
      SelectionLasts(c, keys, s, lines[..n]);
      SelectionStays(c, keys, Scanned(c, keys, s, lines[..n]), lines[n]);
    }
  }

  /** A written package is read as one. */
  lemma {:induction false} PackageIsSelected(c: Codec, keys: Option<SignatureCheck>, anchors: seq<Anchor>,
                                             cp: Checkpoint, selection: Selection, takens: seq<Taken>,
                                             rows: seq<CaseRow>)
    requires Names(Some(selection))
    ensures Verify(c, keys, anchors, FileOf(c, cp, Some(selection), takens, rows)).selection == Some(selection)
  {
    hide Step, FinishRun, Settled, BlocksLines, CasesLines, TrailerFor, HeaderFor, After;
    var header := HeaderFor(cp, Some(selection));
    var rest := BlocksLines(c, takens) + CasesLines(rows) + [EndLine(TrailerFor(takens, rows))];
    var file := FileOf(c, cp, Some(selection), takens, rows);
    assert file == [header] + rest;
    ScannedOfConcat(c, keys, Start, [header], rest);
    ScannedOfAppend(c, keys, Start, [], header);
    assert [] + [header] == [header];
    HeaderSelects(c, keys, cp, selection);
    SelectionLasts(c, keys, Step(c, keys, Start, header), rest);
    FinishKeepsTheRules(c, keys, Scanned(c, keys, Start, file));
    SettledKeeps(c, ScanAll(c, keys, file), anchors);
  }

  lemma {:induction false} HeaderSelects(c: Codec, keys: Option<SignatureCheck>, cp: Checkpoint, selection: Selection)
    requires Names(Some(selection))
    ensures var s := Step(c, keys, Start, HeaderFor(cp, Some(selection)));
            s.report.selection == Some(selection) && !s.first
  {
  }

  /** However it is checked, a package with a sealing conclusion it does not
      place is not sound. */
  lemma {:induction false} UnplacedIsStripped(c: Codec, keys: Option<SignatureCheck>, anchors: seq<Anchor>,
                                              cp: Checkpoint, selection: Selection, takens: seq<Taken>,
                                              rows: seq<CaseRow>)
    requires forall i :: 0 <= i < |takens| ==> takens[i].records != [] ==> HonestRun(c, takens[i].run, takens[i].records)
    requires Names(Some(selection)) && Unplaced(takens) != []
    ensures !IsSound(Verify(c, keys, anchors, FileOf(c, cp, Some(selection), takens, rows)))
  {
    hide Verify, IsSound, OneHistory, FileOf, BlocksOf, HonestRun, HasSealingConclusion, Unplaced, ReadBlock;
    var i := UnplacedTaken(takens, Unplaced(takens)[0]);
    NothingSealsWithout(takens[i].records);
    if IsSound(Verify(c, keys, anchors, FileOf(c, cp, Some(selection), takens, rows))) {
      SoundIsPlaced(c, keys, anchors, cp, selection, takens, rows, i);
    }
  }

  lemma {:induction false} SoundIsPlaced(c: Codec, keys: Option<SignatureCheck>, anchors: seq<Anchor>, cp: Checkpoint,
                                         selection: Selection, takens: seq<Taken>, rows: seq<CaseRow>, i: nat)
    requires i < |takens| && takens[i].records != [] && HonestRun(c, takens[i].run, takens[i].records)
    requires Names(Some(selection)) && HasSealingConclusion(takens[i].records)
    requires IsSound(Verify(c, keys, anchors, FileOf(c, cp, Some(selection), takens, rows)))
    ensures takens[i].placed.Some?
  {
    hide Verify, IsSound, OneHistory, FileOf, BlocksOf, HonestRun, HasSealingConclusion, Unplaced, ReadBlock;
    var file := FileOf(c, cp, Some(selection), takens, rows);
    var r := Verify(c, keys, anchors, file);
    BlockReadsBack(c, takens[i]);
    SoundBlocks(c, keys, anchors, file);
    BlocksOfFile(c, cp, Some(selection), takens, rows);
    PackageIsSelected(c, keys, anchors, cp, selection, takens, rows);
    HistoryIsPlaced(c, keys, r, BlocksOf(file), takens[i].run, i);
  }

  lemma NothingSealsWithout(records: seq<Record>)
    ensures HasSealingConclusion(records) ==> records != []
  {
  }

  lemma BlockReadsBack(c: Codec, t: Taken)
    requires HonestRun(c, t.run, t.records)
    ensures ReadBlock(c, BlockOf(c, t)).resealed == t.records
  {
    hide HonestRun;
    HonestBlock(c, OpenPass(BlockHeader(t), t.run), t.records);
  }
}
