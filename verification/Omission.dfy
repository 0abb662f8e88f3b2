/** A line cannot leave a written file unnoticed.  The header flag, the trailer
    flag and the three counts the trailer fixes account for every line. */
module Omission {
  import opened Wrappers
  import opened Hashing
  import opened Wire
  import opened VerifySpec
  import opened SoundList
  import opened QuietFiles
  import opened Binding

  /** `g` is what is left of `f` once some lines are removed. */
  ghost predicate Subsequence(g: seq<Line>, f: seq<Line>) {
    if g == [] then true
    else
      f != [] &&
      (Subsequence(g, f[..|f| - 1]) ||
       (g[|g| - 1] == f[|f| - 1] && Subsequence(g[..|g| - 1], f[..|f| - 1])))
  }

  function HeaderLines(lines: seq<Line>): nat {
    if lines == [] then 0 else HeaderLines(lines[..|lines| - 1]) + One(lines[|lines| - 1].HeaderLine?)
  }

  function EndLines(lines: seq<Line>): nat {
    if lines == [] then 0 else EndLines(lines[..|lines| - 1]) + One(lines[|lines| - 1].EndLine?)
  }

  predicate Written(line: Line) {
    line.HeaderLine? || line.RunLine? || line.RecordLine? || line.CaseLine? || line.EndLine?
  }

  /** The shape every writer gives a file: one header, then blocks, records and
      cases, then the one trailer, whose counts are the counts of its lines. */
  ghost predicate WriterShape(f: seq<Line>) {
    (forall i :: 0 <= i < |f| ==> Written(f[i])) &&
    HeaderLines(f) == 1 && EndLines(f) == 1 && f != [] && f[|f| - 1].EndLine? &&
    var t := f[|f| - 1].trailer;
    t.runsRequested == Some(RunLines(f)) && t.records == Some(RecordLines(f)) && t.cases == Some(CaseLines(f))
  }

  function Tally(f: seq<Line>): nat {
    HeaderLines(f) + RunLines(f) + RecordLines(f) + CaseLines(f) + EndLines(f)
  }

  lemma {:induction false} WrittenTally(f: seq<Line>)
    requires forall i :: 0 <= i < |f| ==> Written(f[i])
    ensures |f| == Tally(f)
  {
    if f != [] {
      WrittenTally(f[..|f| - 1]);
      assert Written(f[|f| - 1]);
    }
  }

  /** Removing lines raises no count. */
  lemma {:induction false} SubsequenceCounts(g: seq<Line>, f: seq<Line>)
    requires Subsequence(g, f)
    ensures |g| <= |f| && HeaderLines(g) <= HeaderLines(f) && RunLines(g) <= RunLines(f) && EndLines(g) <= EndLines(f)
    ensures RecordLines(g) <= RecordLines(f) && CaseLines(g) <= CaseLines(f)
    ensures forall i :: 0 <= i < |g| ==> g[i] in f
  {
    if g != [] {
      var n, m := |f| - 1, |g| - 1;
      if Subsequence(g, f[..n]) {
        SubsequenceCounts(g, f[..n]);
      } else {
        SubsequenceCounts(g[..m], f[..n]);
        assert f[n] in f;
        forall i | 0 <= i < |g| ensures g[i] in f {
          if i < m {
            assert g[..m][i] in f[..n];
          }
        }
      }
    }
  }

  lemma {:induction false} WholeSubsequence(g: seq<Line>, f: seq<Line>)
    requires Subsequence(g, f) && |g| == |f|
    ensures g == f
  {
    if g != [] {
      var n := |f| - 1;
      if Subsequence(g, f[..n]) {
        SubsequenceCounts(g, f[..n]);
        assert false;
      } else {
        WholeSubsequence(g[..n], f[..n]);
        assert g == g[..n] + [g[n]] && f == f[..n] + [f[n]];
      }
    }
  }

  lemma {:induction false} CountsSeeEveryLine(g: seq<Line>, i: nat)
    requires i < |g|
    ensures g[i].HeaderLine? ==> HeaderLines(g) >= 1
    ensures g[i].EndLine? ==> EndLines(g) >= 1
  {
    if i < |g| - 1 {
      CountsSeeEveryLine(g[..|g| - 1], i);
    }
  }

  lemma {:induction false} TrailerIsALine(g: seq<Line>)
    requires LastTrailer(g).Some?
    ensures EndLines(g) >= 1 && exists i :: 0 <= i < |g| && g[i] == EndLine(LastTrailer(g).value)
  {
    var n := |g| - 1;
    if g[n].EndLine? {
      assert g[n] == EndLine(LastTrailer(g).value);
    } else {
      TrailerIsALine(g[..n]);
      var i :| 0 <= i < n && g[..n][i] == EndLine(LastTrailer(g[..n]).value);
      assert g[i] == EndLine(LastTrailer(g).value);
    }
  }

  /** A subsequence that keeps the trailer of a written file ends with it. */
  lemma {:induction false} EndStaysLast(g: seq<Line>, f: seq<Line>)
    requires Subsequence(g, f) && f != [] && EndLines(f[..|f| - 1]) == 0 && EndLines(g) >= 1
    ensures g != [] && g[|g| - 1] == f[|f| - 1]
    ensures Subsequence(g[..|g| - 1], f[..|f| - 1])
  {
    if Subsequence(g, f[..|f| - 1]) {
      SubsequenceCounts(g, f[..|f| - 1]);
      assert false;
    }
  }

  /** What a sound file's own accounting says of its lines. */
  lemma {:induction false} SoundCounts(c: Codec, keys: Option<SignatureCheck>, anchors: seq<Anchor>, g: seq<Line>)
    requires IsSound(Verify(c, keys, anchors, g))
    ensures LastTrailer(g).Some? && HeaderLines(g) >= 1
    ensures var t := LastTrailer(g).value;
            t.runsRequested == Some(RunLines(g)) && t.records == Some(RecordLines(g)) && t.runsExported.Some?
    ensures g[|g| - 1].EndLine? && LastTrailer(g).value.cases.Some? ==>
              LastTrailer(g).value.cases == Some(CaseLines(g[..|g| - 1]))
  {
    hide Scanned, Settled, FinishRun;
    var s := Scanned(c, keys, Start, g);
    var e := ScanAll(c, keys, g);
    SoundIsSettled(c, keys, anchors, g);
    SettledQuietly(c, e, anchors);
    SettledKeeps(c, e, anchors);
    ScannedTallies(c, keys, g);
    FinishKeepsTheRules(c, keys, s);
    FinishExtends(c, keys, s);
    HeaderWasSeen(c, e, anchors);
    CountsHeld(e);
    var i :| 0 <= i < |g| && g[i].HeaderLine?;
    CountsSeeEveryLine(g, i);
    if g[|g| - 1].EndLine? && LastTrailer(g).value.cases.Some? {
      LastTrailerCounts(c, keys, g);
    }
  }

  lemma HeaderWasSeen(c: Codec, s: Scan, anchors: seq<Anchor>)
    requires Settled(c, s, anchors).findings == []
    ensures s.headerSeen
  {
    hide SettleTrailer, SettleCases, CompareAnchors, RebuiltTree;
    SettledQuietly(c, s, anchors);
    if s.report.selection.Some? {
      ConcatIsEmpty(When(!s.headerSeen, NoHeader) + ComparePackageAnchors(s.report.checkpoint, anchors),
                    When(!s.report.complete, NoTrailer));
      ConcatIsEmpty(When(!s.headerSeen, NoHeader), ComparePackageAnchors(s.report.checkpoint, anchors));
    } else {
      WholeQuietly(c.hash, s, anchors);
    }
  }

  lemma CountsHeld(s: Scan)
    requires SettleTrailer(s) == [] && s.report.complete
    ensures s.claims.runsRequested == Some(s.runBlocks) && s.claims.runsExported == Some(s.readRuns)
    ensures s.claims.records == Some(s.report.records)
  {
    hide UndeclaredEmpty;
    ConcatIsEmpty(UndeclaredEmpty(s.emptyBlocks, s.claims.unreadable), HeldCounts(s));
    var k := s.claims;
    if k.runsRequested.Some? && k.runsExported.Some? && k.records.Some? {
      var a := When(k.runsRequested.value != s.runBlocks, RunCount(k.runsRequested.value, s.runBlocks));
      var b := When(k.runsExported.value != s.readRuns, ExportedCount(k.runsExported.value, s.readRuns));
      var d := When(k.records.value != s.report.records, RecordCount(k.records.value, s.report.records));
      ConcatIsEmpty(a + b, d);
      ConcatIsEmpty(a, b);
    }
  }

  lemma {:induction false} LastTrailerCounts(c: Codec, keys: Option<SignatureCheck>, g: seq<Line>)
    requires g != [] && g[|g| - 1].EndLine? && g[|g| - 1].trailer.cases.Some?
    requires var s := Scanned(c, keys, Start, g); s.report.findings == [] && !s.report.unverifiable
    ensures g[|g| - 1].trailer.cases == Some(CaseLines(g[..|g| - 1]))
  {
    hide Scanned, CaseLines, Tallies;
    var n := |g| - 1;
    var s := Scanned(c, keys, Start, g[..n]);
    assert g == g[..n] + [g[n]];
    ScannedOfAppend(c, keys, Start, g[..n], g[n]);
    StepExtends(c, keys, s, g[n]);
    ScannedTallies(c, keys, g[..n]);
    UnverifiableHalts(c, keys, s, g[n]);
    TalliesCases(s, g[..n]);
    TrailerStep(c, keys, s, g[n].trailer);
  }

  lemma TalliesCases(s: Scan, lines: seq<Line>)
    requires Tallies(s, lines) && s.report.findings == [] && !s.report.unverifiable
    ensures !s.halted && s.report.cases == CaseLines(lines)
  {
    hide CaseLines, RunLines, RecordLines;
  }

  lemma {:induction false} TrailerStep(c: Codec, keys: Option<SignatureCheck>, s: Scan, t: TrailerFields)
    requires Step(c, keys, s, EndLine(t)).report.findings == [] && !s.halted && t.cases.Some?
    ensures t.cases == Some(s.report.cases)
  {
  }

  /** No proper subsequence of a written file is sound, whatever keys and
      anchors it is checked with: any line removed is missed. */
  lemma {:induction false} OmissionIsSeen(c: Codec, keys: Option<SignatureCheck>, anchors: seq<Anchor>, g: seq<Line>,
                                          f: seq<Line>)
    requires WriterShape(f) && Subsequence(g, f) && g != f
    ensures !IsSound(Verify(c, keys, anchors, g))
  {
    hide Verify, IsSound;
    if IsSound(Verify(c, keys, anchors, g)) {
      SoundCounts(c, keys, anchors, g);
      TrailerIsALine(g);
      EndStaysLast(g, f);
      SubsequenceCounts(g, f);
      SubsequenceCounts(g[..|g| - 1], f[..|f| - 1]);
      forall i | 0 <= i < |g| ensures Written(g[i]) {
        assert g[i] in f;
      }
      WrittenTally(g);
      WrittenTally(f);
      WholeSubsequence(g, f);
    }
  }
}
