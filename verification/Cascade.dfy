/** What a block nobody touched costs in the report, to the end of its closing
    checks, when this reader cannot read some of its records. */
module Cascade {
  import opened Wrappers
  import opened Hashing
  import opened Merkle
  import opened Wire
  import opened VerifySpec
  import opened Blocks

  predicate Reads(c: Codec, f: RecordFields) {
    Carries(f) && c.read(f.raw.value).Readable?
  }

  /** The records of the lines this reader can read, in order. */
  function Readables(c: Codec, lines: seq<RecordFields>): seq<Record> {
    if lines == [] then []
    else
      var n := |lines| - 1;
      Readables(c, lines[..n]) + (if Reads(c, lines[n]) then [RecordOf(c, lines)] else [])
  }

  /** A readable record stands after one this reader cannot read. */
  predicate ReadsOn(c: Codec, lines: seq<RecordFields>) {
    exists i, j :: 0 <= i < j < |lines| && !Reads(c, lines[i]) && Reads(c, lines[j])
  }

  predicate SignedLine(check: SignatureCheck, f: RecordFields) {
    f.hash.Some? && f.signature.Some? && check(f.hash.value, f.signature.value)
  }

  /** Every record this reader can read carries a signature that verifies. */
  predicate AllSigned(c: Codec, check: SignatureCheck, lines: seq<RecordFields>) {
    forall i :: 0 <= i < |lines| && Reads(c, lines[i]) ==> SignedLine(check, lines[i])
  }

  /** What closing an untouched block holds against it, with these keys. */
  predicate Faulted(c: Codec, keys: Option<SignatureCheck>, lines: seq<RecordFields>) {
    keys.Some? && (ReadsOn(c, lines) || !AllSigned(c, keys.value, lines))
  }

  /** The records kept for the closing checks are those of the readable lines. */
  lemma {:induction false} UntouchedReseals(c: Codec, entered: Pass, lines: seq<RecordFields>)
    requires entered.prev == ZERO && entered.lastSeq == 0 && entered.resealed == []
    requires Untouched(c, entered.run, lines)
    ensures PassAfter(c, entered, lines).resealed == Readables(c, lines)
  {
    hide JudgeRecord, LineHolds, Unreached, RecordOf, Head, CarriedRaws;
    if lines != [] {
      var n := |lines| - 1;
      UntouchedPrefix(c, entered.run, lines);
      UntouchedReseals(c, entered, lines[..n]);
      NoCascade(c, entered, lines[..n]);
      HeadInvariant(c, entered, lines[..n]);
      UntouchedReads(c, entered.run, lines);
      JudgeIsLineHolds(c, lines, PassAfter(c, entered, lines[..n]));
      if !LineHolds(c, entered.run, lines, n) {
        JudgeOfUnreached(c, lines, PassAfter(c, entered, lines[..n]));
      }
    }
  }

  // ── The chain over what could be read ──────────────────────────────────

  lemma {:induction false} ReadablesCount(c: Codec, lines: seq<RecordFields>)
    ensures |Readables(c, lines)| <= |lines|
    ensures |Readables(c, lines)| == |lines| <==> forall i :: 0 <= i < |lines| ==> Reads(c, lines[i])
  {
    hide Reads, RecordOf;
    if lines != [] {
      var n := |lines| - 1;
      ReadablesCount(c, lines[..n]);
      assert forall i :: 0 <= i < n ==> lines[..n][i] == lines[i];
    }
  }

  lemma {:induction false} FirstReadable(c: Codec, lines: seq<RecordFields>)
    requires lines != [] && Reads(c, lines[0])
    ensures Readables(c, lines) != [] && Readables(c, lines)[0] == RecordOf(c, lines[..1])
  {
    hide Reads, RecordOf;
    var n := |lines| - 1;
    if n == 0 {
      assert lines[..1] == lines;
    } else {
      FirstReadable(c, lines[..n]);
      assert lines[..n][..1] == lines[..1];
    }
  }

  /** The last readable record is the one of the line before, when that reads. */
  lemma LastReadable(c: Codec, lines: seq<RecordFields>)
    requires lines != [] && Reads(c, lines[|lines| - 1])
    ensures Readables(c, lines) == Readables(c, lines[..|lines| - 1]) + [RecordOf(c, lines)]
  {
    hide RecordOf, Reads;
  }

  lemma {:induction false} ReadsOnOfAppend(c: Codec, lines: seq<RecordFields>)
    requires lines != []
    ensures var n := |lines| - 1;
            ReadsOn(c, lines) <==>
            ReadsOn(c, lines[..n]) || (Reads(c, lines[n]) && |Readables(c, lines[..n])| < n)
  {
    hide Reads;
    var n := |lines| - 1;
    ReadablesCount(c, lines[..n]);
    if ReadsOn(c, lines[..n]) {
      var i, j :| 0 <= i < j < n && !Reads(c, lines[..n][i]) && Reads(c, lines[..n][j]);
      assert lines[i] == lines[..n][i] && lines[j] == lines[..n][j];
    }
    if Reads(c, lines[n]) && |Readables(c, lines[..n])| < n {
      var i :| 0 <= i < n && !Reads(c, lines[..n][i]);
      assert lines[i] == lines[..n][i];
    }
    if ReadsOn(c, lines) {
      var i, j :| 0 <= i < j < |lines| && !Reads(c, lines[i]) && Reads(c, lines[j]);
      assert lines[..n][i] == lines[i];
      if j < n {
        assert lines[..n][j] == lines[j];
      }
    }
  }

  lemma ChainOfAppend(h: Hash, records: seq<Record>, r: Record)
    ensures ChainVerifies(h, records + [r], ZERO) <==>
            ChainVerifies(h, records, ZERO) && LinksBack(h, records + [r], ZERO, |records|)
  {
    hide Chain;
    var grown := records + [r];
    forall i | 0 <= i < |records| ensures LinksBack(h, grown, ZERO, i) == LinksBack(h, records, ZERO, i) {
    }
  }

  /** What a line that holds says of the record read from it. */
  lemma HeldRecord(c: Codec, run: RunId, lines: seq<RecordFields>)
    requires lines != [] && LineHolds(c, run, lines, |lines| - 1)
    ensures Reads(c, lines[|lines| - 1])
    ensures var r := RecordOf(c, lines);
            r.body.seq_ == |lines| && r.prev == Head(c.hash, CarriedRaws(lines[..|lines| - 1])) &&
            r.hash == Chain(c.hash, r.prev, r.raw) && r.hash == Head(c.hash, CarriedRaws(lines))
  {
    hide Head, Chain, CarriedRaws, Uncanonical;
    var n := |lines| - 1;
    CarriedOfAppend(lines[..n], lines[n]);
    assert lines[..n] + [lines[n]] == lines;
    HeadOfAppend(c.hash, CarriedRaws(lines[..n]), lines[n].raw.value);
  }

  lemma {:induction false} UntouchedTake(c: Codec, run: RunId, lines: seq<RecordFields>, n: nat)
    requires n <= |lines| && Untouched(c, run, lines)
    ensures Untouched(c, run, lines[..n])
  {
    hide LineHolds, Unreached;
    if n == |lines| {
      assert lines[..n] == lines;
    } else {
      UntouchedPrefix(c, run, lines);
      UntouchedTake(c, run, lines[..|lines| - 1], n);
      assert lines[..|lines| - 1][..n] == lines[..n];
    }
  }

  lemma HeldAt(c: Codec, run: RunId, lines: seq<RecordFields>)
    requires lines != [] && Untouched(c, run, lines) && Reads(c, lines[|lines| - 1])
    ensures LineHolds(c, run, lines, |lines| - 1)
  {
    hide LineHolds, Unreached, Untouched;
    UntouchedReads(c, run, lines);
  }

  /** Whether the next readable record links to the readable ones before it: it
      does exactly when every line before it could be read. */
  lemma {:induction false} NextLinks(c: Codec, run: RunId, lines: seq<RecordFields>)
    requires lines != [] && Untouched(c, run, lines) && Reads(c, lines[|lines| - 1])
    requires ZeroFree(c.hash, ChainStrings(c.hash, CarriedRaws(lines)))
    requires ChainVerifies(c.hash, Readables(c, lines[..|lines| - 1]), ZERO)
    requires !ReadsOn(c, lines[..|lines| - 1])
    ensures LinksBack(c.hash, Readables(c, lines), ZERO, |Readables(c, lines[..|lines| - 1])|) <==>
            |Readables(c, lines[..|lines| - 1])| == |lines| - 1
  {
    hide ChainVerifies, LineHolds, RecordOf, Head, Chain, CarriedRaws, ZeroFree, ChainStrings, Untouched, Readables;
    var n := |lines| - 1;
    var before := Readables(c, lines[..n]);
    LastReadable(c, lines);
    HeldAt(c, run, lines);
    HeldRecord(c, run, lines);
    ReadablesCount(c, lines[..n]);
    if before == [] {
      EmptyHead(c, run, lines);
    } else {
      FirstIsRead(c, lines[..n]);
      FirstReadable(c, lines[..n]);
      UntouchedTake(c, run, lines, 1);
      assert lines[..n][..1] == lines[..1];
      HeldAt(c, run, lines[..1]);
      HeldRecord(c, run, lines[..1]);
      if |before| == n {
        assert lines[..n][n - 1] == lines[n - 1];
        UntouchedTake(c, run, lines, n);
        HeldAt(c, run, lines[..n]);
        HeldRecord(c, run, lines[..n]);
        LastReadable(c, lines[..n]);
      }
    }
  }

  /** The chain before a line stands at its start only before the first line. */
  lemma {:induction false} EmptyHead(c: Codec, run: RunId, lines: seq<RecordFields>)
    requires lines != [] && Untouched(c, run, lines)
    requires ZeroFree(c.hash, ChainStrings(c.hash, CarriedRaws(lines)))
    ensures Head(c.hash, CarriedRaws(lines[..|lines| - 1])) == ZERO <==> |lines| == 1
  {
    hide Head, ZeroFree, ChainStrings;
    var n := |lines| - 1;
    AllCarry(c, run, lines);
    CarriedLength(lines);
    assert CarriedRaws(lines)[..n] == CarriedRaws(lines[..n]);
    PrefixStrings(c.hash, CarriedRaws(lines), n);
    StillZeroFree(c.hash, ChainStrings(c.hash, CarriedRaws(lines[..n])), ChainStrings(c.hash, CarriedRaws(lines)));
    HeadIsLinked(c.hash, CarriedRaws(lines[..n]), ChainStrings(c.hash, CarriedRaws(lines[..n])));
  }

  lemma StillZeroFree(h: Hash, some: set<Bytes>, s: set<Bytes>)
    requires some <= s && ZeroFree(h, s)
    ensures ZeroFree(h, some)
  {
  }

  lemma AllCarry(c: Codec, run: RunId, lines: seq<RecordFields>)
    requires Untouched(c, run, lines)
    ensures forall i :: 0 <= i < |lines| ==> Carries(lines[i])
  {
    hide Head, Chain, CarriedRaws, Uncanonical;
    forall i | 0 <= i < |lines| ensures Carries(lines[i]) {
      assert LineHolds(c, run, lines, i) || Unreached(c, lines, i);
    }
  }

  /** If anything reads and nothing reads past an unread line, the first reads. */
  lemma {:induction false} FirstIsRead(c: Codec, lines: seq<RecordFields>)
    requires Readables(c, lines) != [] && !ReadsOn(c, lines)
    ensures lines != [] && Reads(c, lines[0])
  {
    hide Reads, RecordOf;
    var n := |lines| - 1;
    ReadsOnOfAppend(c, lines);
    if Readables(c, lines[..n]) != [] {
      FirstIsRead(c, lines[..n]);
    }
  }

  /** The records kept form a chain exactly when none of them follows a record
      that could not be read, up to a digest of zeros. */
  lemma {:induction false} LinksExactly(c: Codec, run: RunId, lines: seq<RecordFields>)
    requires Untouched(c, run, lines) && ZeroFree(c.hash, ChainStrings(c.hash, CarriedRaws(lines)))
    ensures ChainVerifies(c.hash, Readables(c, lines), ZERO) <==> !ReadsOn(c, lines)
  {
    hide Reads, RecordOf, LineHolds, Unreached, LinksBack, ZeroFree, ChainStrings, CarriedRaws, ReadsOn, ChainVerifies;
    if lines == [] {
      NothingLinks(c);
    } else {
      var n := |lines| - 1;
      UntouchedPrefix(c, run, lines);
      PrefixIsZeroFree(c, run, lines);
      LinksExactly(c, run, lines[..n]);
      ReadsOnOfAppend(c, lines);
      ReadablesCount(c, lines[..n]);
      if Reads(c, lines[n]) {
        OneMoreLinks(c, lines);
        if !ReadsOn(c, lines[..n]) {
          NextLinks(c, run, lines);
        }
      } else {
        assert Readables(c, lines) == Readables(c, lines[..n]);
      }
    }
  }

  lemma OneMoreLinks(c: Codec, lines: seq<RecordFields>)
    requires lines != [] && Reads(c, lines[|lines| - 1])
    ensures var before := Readables(c, lines[..|lines| - 1]);
            |Readables(c, lines)| == |before| + 1 &&
            (ChainVerifies(c.hash, Readables(c, lines), ZERO) <==>
             ChainVerifies(c.hash, before, ZERO) && LinksBack(c.hash, Readables(c, lines), ZERO, |before|))
  {
    hide ChainVerifies, LinksBack, Head, CarriedRaws;
    ChainOfAppend(c.hash, Readables(c, lines[..|lines| - 1]), RecordOf(c, lines));
  }

  lemma NothingLinks(c: Codec)
    ensures ChainVerifies(c.hash, Readables(c, []), ZERO) && !ReadsOn(c, [])
  {
  }

  lemma PrefixIsZeroFree(c: Codec, run: RunId, lines: seq<RecordFields>)
    requires lines != [] && Untouched(c, run, lines)
    requires ZeroFree(c.hash, ChainStrings(c.hash, CarriedRaws(lines)))
    ensures ZeroFree(c.hash, ChainStrings(c.hash, CarriedRaws(lines[..|lines| - 1])))
  {
    hide ZeroFree, ChainStrings, Untouched;
    var n := |lines| - 1;
    AllCarry(c, run, lines);
    CarriedLength(lines);
    PrefixStrings(c.hash, CarriedRaws(lines), n);
    StillZeroFree(c.hash, ChainStrings(c.hash, CarriedRaws(lines[..n])), ChainStrings(c.hash, CarriedRaws(lines)));
  }

  predicate AllRecordsSigned(check: SignatureCheck, records: seq<Record>) {
    forall i :: 0 <= i < |records| ==> SignedRecord(check, records[i])
  }

  lemma SignedOfAppend(check: SignatureCheck, records: seq<Record>, r: Record)
    ensures AllRecordsSigned(check, records + [r]) <==> AllRecordsSigned(check, records) && SignedRecord(check, r)
  {
    hide SignedRecord;
    var grown := records + [r];
    assert grown[|records|] == r;
    assert forall i :: 0 <= i < |records| ==> grown[i] == records[i];
  }

  lemma AllSignedOfAppend(c: Codec, check: SignatureCheck, lines: seq<RecordFields>)
    requires lines != []
    ensures var n := |lines| - 1;
            AllSigned(c, check, lines) <==>
            AllSigned(c, check, lines[..n]) && (Reads(c, lines[n]) ==> SignedLine(check, lines[n]))
  {
    hide SignedLine, Reads;
    assert forall i :: 0 <= i < |lines| - 1 ==> lines[..|lines| - 1][i] == lines[i];
  }

  lemma {:induction false} SignedExactly(c: Codec, check: SignatureCheck, lines: seq<RecordFields>)
    ensures AllRecordsSigned(check, Readables(c, lines)) <==> AllSigned(c, check, lines)
  {
    hide AllRecordsSigned, AllSigned, Head, CarriedRaws;
    if lines == [] {
      NothingIsSigned(c, check);
    } else {
      var n := |lines| - 1;
      SignedExactly(c, check, lines[..n]);
      AllSignedOfAppend(c, check, lines);
      if Reads(c, lines[n]) {
        SignedOfAppend(check, Readables(c, lines[..n]), RecordOf(c, lines));
        assert SignedRecord(check, RecordOf(c, lines)) == SignedLine(check, lines[n]);
      } else {
        assert Readables(c, lines) == Readables(c, lines[..n]);
      }
    }
  }

  lemma NothingIsSigned(c: Codec, check: SignatureCheck)
    ensures AllRecordsSigned(check, Readables(c, [])) && AllSigned(c, check, [])
  {
  }

  lemma SignedHistoryMeans(h: Hash, check: SignatureCheck, records: seq<Record>)
    ensures SignedHistory(h, check, records) <==> ChainVerifies(h, records, ZERO) && AllRecordsSigned(check, records)
  {
    hide ChainVerifies;
    assert AllRecordsSigned(check, records) <==>
           forall i :: 0 <= i < |records| ==> SignedRecord(check, records[i]);
  }

  predicate SignedRecord(check: SignatureCheck, r: Record) {
    r.signature.Some? && check(r.hash, r.signature.value)
  }

  // ── The closing checks ─────────────────────────────────────────────────

  /** The block's place is the one the log would give it: a declared seal is the
      head over its bytes and, in a package, is proved and is there wherever the
      records that read hold a sealing conclusion. */
  predicate KeepsItsPlace(c: Codec, r: Report, h: RunFields, lines: seq<RecordFields>) {
    (ClaimsPlace(h) ==> Placed(h).Some?) &&
    (Placed(h).Some? ==> Placed(h).value.1 == Head(c.hash, CarriedRaws(lines))) &&
    (r.selection.Some? ==>
       (Placed(h).Some? ==> LeafIsProved(c.hash, Placed(h).value.1, Some(Placed(h).value.0), h.proof, r.checkpoint)) &&
       (HasSealingConclusion(Readables(c, lines)) ==> Placed(h).Some?))
  }

  /** Closing an untouched block finds nothing without keys; with keys it files
      the signatures exactly when a readable record follows an unread one or
      carries no signature that verifies. */
  lemma {:induction false} ClosesExactly(c: Codec, keys: Option<SignatureCheck>, r: Report, h: RunFields, run: RunId,
                                         lines: seq<RecordFields>)
    requires Untouched(c, run, lines) && KeepsItsPlace(c, r, h, lines)
    requires keys.Some? ==> ZeroFree(c.hash, ChainStrings(c.hash, CarriedRaws(lines)))
    ensures ClosingFindings(c, keys, r.selection.Some?, r.checkpoint, PassAfter(c, OpenPass(h, run), lines)) ==
            When(Faulted(c, keys, lines), NotSigned(run))
  {
    hide Head, CarriedRaws, ReadsOn, ChainVerifies, ZeroFree, ChainStrings, LeafIsProved, HasSealingConclusion, Readables,
         AllSigned, PassAfter, Untouched, SignedHistory;
    var p := PassAfter(c, OpenPass(h, run), lines);
    HeadInvariant(c, OpenPass(h, run), lines);
    ReadBlockKeepsItsHeader(c, OpenPass(h, run), lines);
    UntouchedReseals(c, OpenPass(h, run), lines);
    if keys.Some? {
      LinksExactly(c, run, lines);
      SignedExactly(c, keys.value, lines);
      SignedHistoryMeans(c.hash, keys.value, p.resealed);
    }
  }

  // ── The report ─────────────────────────────────────────────────────────

  /** A block's lines as they stand in the file. */
  predicate AreRecords(lines: seq<Line>, fields: seq<RecordFields>) {
    |lines| == |fields| &&
    forall i :: 0 <= i < |lines| ==> (lines[i].RecordLine? || lines[i].UnknownLine?) && lines[i].record == fields[i]
  }

  lemma RecordIsScanned(c: Codec, keys: Option<SignatureCheck>, s: Scan, line: Line, f: RecordFields)
    requires !s.halted && s.pass.Some? && (line.RecordLine? || line.UnknownLine?) && line.record == f
    ensures var t, j := Step(c, keys, s, line), JudgeRecord(c, f, s.pass.value);
            !t.halted && t.pass == Some(j.pass) && t.report.findings == s.report.findings + j.found &&
            t.report.selection == s.report.selection && t.report.checkpoint == s.report.checkpoint
  {
    hide JudgeRecord;
  }

  /** What the record lines of an open block leave behind. */
  lemma {:induction false} RecordsAreScanned(c: Codec, keys: Option<SignatureCheck>, s: Scan, lines: seq<Line>,
                                             fields: seq<RecordFields>)
    requires !s.halted && s.pass.Some? && AreRecords(lines, fields)
    ensures var t, p := Scanned(c, keys, s, lines), s.pass.value;
            !t.halted && t.pass == Some(PassAfter(c, p, fields)) &&
            t.report.findings == s.report.findings + BlockFindings(c, p, fields) &&
            t.report.selection == s.report.selection && t.report.checkpoint == s.report.checkpoint
  {
    hide JudgeRecord, Step;
    if lines != [] {
      var n := |lines| - 1;
      RecordsAreScanned(c, keys, s, lines[..n], fields[..n]);
      RecordIsScanned(c, keys, Scanned(c, keys, s, lines[..n]), lines[n], fields[n]);
    }
  }

  /** What closing a block leaves as it was. */
  lemma ClosingKeeps(c: Codec, keys: Option<SignatureCheck>, s: Scan, n: nat)
    ensures var t := FinishRun(c, keys, s.(runBlocks := n, first := false));
            t.report == FinishRun(c, keys, s).report && t.pass.None? && t.halted == s.halted &&
            t.blocksOf == s.blocksOf && t.positions == s.positions &&
            t.report.selection == s.report.selection && t.report.checkpoint == s.report.checkpoint
  {
    hide ClosingFindings;
  }

  /** What opening a block of its own run and place leaves behind. */
  lemma BlockOpens(c: Codec, keys: Option<SignatureCheck>, s: Scan, h: RunFields)
    requires !s.halted && h.run.Some? && (ClaimsPlace(h) ==> Placed(h).Some?)
    requires h.run.value !in s.blocksOf && (Placed(h).Some? ==> Placed(h).value.0 !in s.positions)
    ensures var t, was := Step(c, keys, s, RunLine(h)), FinishRun(c, keys, s).report;
            !t.halted && t.pass == Some(OpenPass(h, h.run.value)) && t.report.findings == was.findings &&
            t.report.selection == s.report.selection && t.report.checkpoint == s.report.checkpoint
  {
    hide FinishRun;
    ClosingKeeps(c, keys, s, s.runBlocks + 1);
  }

  /** An untouched block costs the report one finding for each record that could
      not be read; and, with keys, exactly one more when a record that reads
      follows one that does not, or is not signed. */
  lemma {:induction false} BlockCosts(c: Codec, keys: Option<SignatureCheck>, s: Scan, h: RunFields, lines: seq<Line>,
                                      fields: seq<RecordFields>)
    requires !s.halted && h.run.Some? && AreRecords(lines, fields)
    requires h.run.value !in s.blocksOf && (Placed(h).Some? ==> Placed(h).value.0 !in s.positions)
    requires Untouched(c, h.run.value, fields) && KeepsItsPlace(c, s.report, h, fields)
    requires keys.Some? ==> ZeroFree(c.hash, ChainStrings(c.hash, CarriedRaws(fields)))
    ensures var before := FinishRun(c, keys, s).report.findings;
            var after := FinishRun(c, keys, Scanned(c, keys, s, [RunLine(h)] + lines)).report.findings;
            before <= after && |after| == |before| + UnreadLines(c, fields) + (if Faulted(c, keys, fields) then 1 else 0)
  {
    hide ClosingFindings, PassAfter, BlockFindings, UnreadLines, Faulted, Untouched, KeepsItsPlace, ZeroFree,
         ChainStrings, CarriedRaws, Step;
    var run := h.run.value;
    var begun := Step(c, keys, s, RunLine(h));
    ScannedOfAppend(c, keys, s, [], RunLine(h));
    assert [] + [RunLine(h)] == [RunLine(h)];
    ScannedOfConcat(c, keys, s, [RunLine(h)], lines);
    PlaceIsClaimed(c, s.report, h, fields);
    BlockOpens(c, keys, s, h);
    RecordsAreScanned(c, keys, begun, lines, fields);
    NoCascade(c, OpenPass(h, run), fields);
    HeadInvariant(c, OpenPass(h, run), fields);
    ClosesExactly(c, keys, s.report, h, run, fields);
    if fields == [] {
      EmptyIsNotFaulted(c, keys);
    }
  }

  lemma PlaceIsClaimed(c: Codec, r: Report, h: RunFields, lines: seq<RecordFields>)
    requires KeepsItsPlace(c, r, h, lines)
    ensures ClaimsPlace(h) ==> Placed(h).Some?
  {
  }

  lemma EmptyIsNotFaulted(c: Codec, keys: Option<SignatureCheck>)
    ensures !Faulted(c, keys, [])
  {
  }

  // ── A key, and one old record ──────────────────────────────────────────

  const OLD: Bytes := []
  const NEWER: Bytes := [0]

  /** A build that reads the second record of a run and not the first. */
  function NewBuild(): Codec {
    Codec((x: Bytes) => LengthDigest(x),
          (raw: Bytes) =>
            if raw == NEWER then Readable(Body(2, 0, None, None, Forward, 0, None, OtherKind)) else UnknownVersion,
          (raw: Bytes) => None,
          (j: Json) => OLD,
          (raw: Bytes) => if raw == OLD then Some(1) else None)
  }

  const UNPLACED := RunFields(Some(0), Missing, Missing, None)

  function OldLine(): RecordFields {
    RecordFields(Some(OLD), Some(LengthDigest(Link(ZERO, OLD))), None, None, None, Some(Signature(0, [])))
  }

  function NewLine(): RecordFields {
    var prev := LengthDigest(Link(ZERO, OLD));
    RecordFields(Some(NEWER), Some(LengthDigest(Link(prev, NEWER))), Some(Json("null")), Some(2), Some(prev),
                 Some(Signature(0, [])))
  }

  lemma CarriedOld()
    ensures var lines := [OldLine(), NewLine()];
            CarriedRaws(lines) == [OLD, NEWER] && CarriedRaws(lines[..1]) == [OLD] && CarriedRaws(lines[..0]) == []
  {
    hide LengthDigest, Link;
    CarriedOfAppend([], OldLine());
    CarriedOfAppend([OldLine()], NewLine());
    assert [OldLine()] + [NewLine()] == [OldLine(), NewLine()] && [] + [OldLine()] == [OldLine()];
    assert [OldLine(), NewLine()][..1] == [OldLine()];
  }

  lemma LengthIsSeen(x: Bytes)
    requires |x| % 256 != 0
    ensures LengthDigest(x) != ZERO
  {
    assert LengthDigest(x).bytes[0] != 0 && ZERO.bytes[0] == 0;
  }

  /** Two records of two lengths, and what their chain hashes. */
  lemma OldAndNewer()
    ensures Head(NewBuild().hash, [OLD]) == LengthDigest(Link(ZERO, OLD))
    ensures ZeroFree(NewBuild().hash, ChainStrings(NewBuild().hash, [OLD, NEWER]))
  {
    hide LengthDigest, Head, ChainStrings;
    var h := NewBuild().hash;
    HeadOfNone(h);
    HeadOfAppend(h, [], OLD);
    HeadOfAppend(h, [OLD], NEWER);
    assert [] + [OLD] == [OLD] && [OLD] + [NEWER] == [OLD, NEWER];
    NothingIsHashed(h);
    LengthIsSeen(Link(ZERO, OLD));
    LengthIsSeen(Link(LengthDigest(Link(ZERO, OLD)), NEWER));
  }

  lemma NothingIsHashed(h: Hash)
    ensures ChainStrings(h, []) == {}
  {
  }

  /** One old record at the head of a block, every record signed by a key that
      verifies: without the key the block costs one finding, with it a second. */
  lemma {:induction false} AKeyCascades(check: SignatureCheck)
    requires forall d, sig :: check(d, sig)
    ensures var c, lines := NewBuild(), [OldLine(), NewLine()];
            Untouched(c, 0, lines) && UnreadLines(c, lines) == 1 && AllSigned(c, check, lines) &&
            ZeroFree(c.hash, ChainStrings(c.hash, CarriedRaws(lines))) &&
            ClosingFindings(c, None, false, Checkpoint("", 0, ZERO), PassAfter(c, OpenPass(UNPLACED, 0), lines)) == [] &&
            ClosingFindings(c, Some(check), false, Checkpoint("", 0, ZERO),
                            PassAfter(c, OpenPass(UNPLACED, 0), lines)) == [NotSigned(0)]
  {
    hide ClosingFindings, PassAfter, OpenPass, LengthDigest, Head, CarriedRaws, ZeroFree, ChainStrings, Link;
    var c, lines := NewBuild(), [OldLine(), NewLine()];
    CarriedOld();
    OldAndNewer();
    OldReadsNewer();
    HeadOfNone(c.hash);
    assert lines[..1] == [OldLine()];
    assert Unreached(c, lines, 0) && LineHolds(c, 0, lines, 1);
    assert UnreadLines(c, lines[..1]) == 1 by {
      assert lines[..1][..0] == [];
    }
    assert ReadsOn(c, lines) by {
      assert !Reads(c, lines[0]) && Reads(c, lines[1]);
    }
    ClosesExactly(c, None, EmptyReport, UNPLACED, 0, lines);
    ClosesExactly(c, Some(check), EmptyReport, UNPLACED, 0, lines);
  }

  lemma OldReadsNewer()
    ensures !Reads(NewBuild(), OldLine()) && Reads(NewBuild(), NewLine())
  {
    hide LengthDigest;
  }
}
