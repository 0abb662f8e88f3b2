/** A written file has the shape omission is measured against. */
module FileShape {
  import opened Wrappers
  import opened Hashing
  import opened Wire
  import opened VerifySpec
  import opened QuietFiles
  import opened Omission
  import opened Planes
  import opened WriterSpec

  /** How many lines of each kind a stretch of a file holds. */
  datatype Counts = Counts(headers: nat, runs: nat, records: nat, cases: nat, ends: nat)

  function CountsOf(f: seq<Line>): Counts {
    Counts(HeaderLines(f), RunLines(f), RecordLines(f), CaseLines(f), EndLines(f))
  }

  function Plus(a: Counts, b: Counts): Counts {
    Counts(a.headers + b.headers, a.runs + b.runs, a.records + b.records, a.cases + b.cases, a.ends + b.ends)
  }

  function OneOf(line: Line): Counts {
    Counts(One(line.HeaderLine?), One(line.RunLine?), One(line.RecordLine? || line.UnknownLine?), One(line.CaseLine?),
           One(line.EndLine?))
  }

  lemma CountsOfLast(f: seq<Line>)
    ensures f != [] ==> CountsOf(f) == Plus(CountsOf(f[..|f| - 1]), OneOf(f[|f| - 1]))
    ensures f == [] ==> CountsOf(f) == Counts(0, 0, 0, 0, 0)
  {
  }

  lemma ConcatParts(a: seq<Line>, b: seq<Line>)
    requires b != []
    ensures a + b != [] && (a + b)[..|a + b| - 1] == a + b[..|b| - 1] && (a + b)[|a + b| - 1] == b[|b| - 1]
  {
  }

  lemma {:induction false} CountsOfConcat(a: seq<Line>, b: seq<Line>)
    ensures CountsOf(a + b) == Plus(CountsOf(a), CountsOf(b))
    decreases |b|
  {
    hide CountsOf, OneOf;
    CountsOfLast(b);
    if b == [] {
      assert a + b == a;
    } else {
      CountsOfConcat(a, b[..|b| - 1]);
      CountsOfLast(a + b);
      ConcatParts(a, b);
    }
  }

  ghost predicate AllWritten(f: seq<Line>) {
    forall i :: 0 <= i < |f| ==> Written(f[i])
  }

  lemma {:induction false} RecordsCount(fields: seq<RecordFields>)
    ensures CountsOf(AsLines(fields)) == Counts(0, 0, |fields|, 0, 0) && AllWritten(AsLines(fields))
  {
    if fields != [] {
      RecordsCount(fields[..|fields| - 1]);
    }
  }

  lemma {:induction false} CasesCount(rows: seq<CaseRow>)
    ensures CountsOf(CasesLines(rows)) == Counts(0, 0, 0, |rows|, 0) && AllWritten(CasesLines(rows))
  {
    if rows != [] {
      CasesCount(rows[..|rows| - 1]);
    }
  }

  lemma OneCount(line: Line)
    ensures CountsOf([line]) == OneOf(line)
  {
    hide CountsOf;
    CountsOfLast([line]);
    assert [line][..0] == [];
    CountsOfLast([]);
  }

  lemma BlockCount(c: Codec, t: Taken)
    ensures CountsOf(BlockLines(c, t)) == Counts(0, 1, |t.records|, 0, 0) && AllWritten(BlockLines(c, t))
  {
    hide CountsOf;
    var fields := RecordsFor(c, t.records);
    OneCount(RunLine(BlockHeader(t)));
    RecordsCount(fields);
    CountsOfConcat([RunLine(BlockHeader(t))], AsLines(fields));
  }

  lemma {:induction false} BlocksCount(c: Codec, takens: seq<Taken>)
    ensures CountsOf(BlocksLines(c, takens)) == Counts(0, |takens|, RecordTotal(takens), 0, 0)
    ensures AllWritten(BlocksLines(c, takens))
  {
    hide BlockLines;
    if takens != [] {
      var n := |takens| - 1;
      BlocksCount(c, takens[..n]);
      hide CountsOf;
      BlockCount(c, takens[n]);
      CountsOfConcat(BlocksLines(c, takens[..n]), BlockLines(c, takens[n]));
    }
  }

  lemma AllWrittenOfConcat(a: seq<Line>, b: seq<Line>)
    requires AllWritten(a) && AllWritten(b)
    ensures AllWritten(a + b)
  {
  }

  /** The trailer's three counts are the counts of the file's lines. */
  lemma {:induction false} WrittenShape(c: Codec, cp: Checkpoint, package: Option<Selection>, takens: seq<Taken>,
                                        rows: seq<CaseRow>)
    ensures WriterShape(FileOf(c, cp, package, takens, rows))
  {
    hide CountsOf, BlocksLines, CasesLines, HeaderFor, TrailerFor, AllWritten, WriterShape, RecordTotal;
    var header, blocks, cases, end := [HeaderFor(cp, package)], BlocksLines(c, takens), CasesLines(rows),
                                      [EndLine(TrailerFor(takens, rows))];
    OneCount(HeaderFor(cp, package));
    BlocksCount(c, takens);
    CasesCount(rows);
    OneCount(EndLine(TrailerFor(takens, rows)));
    CountsOfConcat(header, blocks);
    CountsOfConcat(header + blocks, cases);
    CountsOfConcat(header + blocks + cases, end);
    OneIsWritten(cp, package, takens, rows);
    AllWrittenOfConcat(header, blocks);
    AllWrittenOfConcat(header + blocks, cases);
    AllWrittenOfConcat(header + blocks + cases, end);
    ShapeFromCounts(FileOf(c, cp, package, takens, rows), takens, rows);
  }

  lemma OneIsWritten(cp: Checkpoint, package: Option<Selection>, takens: seq<Taken>, rows: seq<CaseRow>)
    ensures AllWritten([HeaderFor(cp, package)]) && AllWritten([EndLine(TrailerFor(takens, rows))])
    ensures HeaderFor(cp, package).HeaderLine?
  {
  }

  lemma ShapeFromCounts(f: seq<Line>, takens: seq<Taken>, rows: seq<CaseRow>)
    requires f != [] && f[|f| - 1] == EndLine(TrailerFor(takens, rows))
    requires AllWritten(f) && CountsOf(f) == Counts(1, |takens|, RecordTotal(takens), |rows|, 1)
    ensures WriterShape(f)
  {
    hide HeaderLines, EndLines, RunLines, RecordLines, CaseLines, Exported, Unread, RecordTotal, Written;
  }

  /** Omission evidence for written files: whatever lines are removed from an
      export or a package, what is left does not verify. */
  lemma {:induction false} NothingLeavesUnseen(c: Codec, keys: Option<SignatureCheck>, anchors: seq<Anchor>,
                                               cp: Checkpoint, package: Option<Selection>, takens: seq<Taken>,
                                               rows: seq<CaseRow>, g: seq<Line>)
    requires Subsequence(g, FileOf(c, cp, package, takens, rows)) && g != FileOf(c, cp, package, takens, rows)
    ensures !IsSound(Verify(c, keys, anchors, g))
  {
    hide *;
    WrittenShape(c, cp, package, takens, rows);
    OmissionIsSeen(c, keys, anchors, g, FileOf(c, cp, package, takens, rows));
  }
}
