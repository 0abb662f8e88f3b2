/** Which files the restore's reader takes, why it refuses the others, and what
    it holds of one it took: all of it read off the lines. */
module AcceptedFiles {
  import opened Wrappers
  import opened Hashing
  import opened Wire
  import opened Blocks
  import opened QuietFiles
  import opened ParseSpec
  import opened TwoReaders

  /** The record lines above a line, under the last run line before it. */
  function Above(lines: seq<Line>, i: nat): Option<seq<RecordFields>>
    requires i <= |lines|
  {
    var f := Framed(lines[..i]);
    match f.current case Some(b) => Some(b.lines) case None => None
  }

  /** The reader stops at line `i`, and for this. */
  predicate Stops(c: Codec, lines: seq<Line>, i: nat, why: Refusal)
    requires i < |lines|
  {
    match lines[i]
    case Blank => false
    case EndLine(_) => false
    case NotJson => why.LineNotJson?
    case UnknownLine(_, _) => why.KindUnknown?
    case HeaderLine(kind, f) =>
      (kind.DisclosurePackage? && why.PackageRefused?) ||
      (kind.WholeExport? && f.checkpoint.Unreadable? && why.HeaderUnreadable?)
    case RunLine(f) => f.run.None? && why.BlockNamesNoRun?
    case CaseLine(f) =>
      f.case_.Some? && f.deadlines.Some? && f.blobs.Some? &&
      ((!f.hold.Given? && why.HoldUnreadable?) || (f.hold.Given? && !f.erasure.Given? && why.ErasureUnreadable?))
    case RecordLine(f) =>
      (f.raw.None? && why.NoBytes?) || (f.raw.Some? && f.hash.None? && why.NoHash?) ||
      (f.raw.Some? && f.hash.Some? &&
       match Above(lines, i)
       case None => why.OutsideBlock?
       case Some(before) =>
         var canonical := !Uncanonical(c, f.raw.value);
         var covered := f.hash.value == Chain(c.hash, Head(c.hash, CarriedRaws(before)), f.raw.value);
         (!canonical && why.BytesNotCanonical?) || (canonical && !covered && why.BytesNotCovered?) ||
         (canonical && covered && c.read(f.raw.value).UnknownVersion? && why.VersionUnreached?) ||
         (canonical && covered && !c.read(f.raw.value).UnknownVersion? && !c.read(f.raw.value).Readable? &&
          why.BytesNotARecord?))
  }

  /** The reader passes line `i`. */
  ghost predicate Passed(c: Codec, lines: seq<Line>, i: nat)
    requires i < |lines|
  {
    forall why :: !Stops(c, lines, i, why)
  }

  ghost predicate AllPassed(c: Codec, lines: seq<Line>) {
    forall i :: 0 <= i < |lines| ==> Passed(c, lines, i)
  }

  /** Whether the reader passes line `i` and, if not, the one reason. */
  ghost predicate Judged(c: Codec, lines: seq<Line>, i: nat, read: Result<Reader, Refusal>)
    requires i < |lines|
  {
    match read
    case Ok(_) => Passed(c, lines, i)
    case Err(e) => forall why :: Stops(c, lines, i, why) <==> why == e
  }

  ghost predicate StopsFirst(c: Codec, lines: seq<Line>, why: Refusal) {
    exists i: nat :: FirstStop(c, lines, i, why)
  }

  /** Line `i` is the first the reader does not pass. */
  ghost predicate FirstStop(c: Codec, lines: seq<Line>, i: nat, why: Refusal) {
    i < |lines| && (forall j :: 0 <= j < i ==> Passed(c, lines, j)) && Stops(c, lines, i, why)
  }

  lemma StopsStays(c: Codec, lines: seq<Line>, i: nat, why: Refusal)
    requires i < |lines| - 1
    ensures Stops(c, lines, i, why) == Stops(c, lines[..|lines| - 1], i, why)
  {
    hide Framed, Head, CarriedRaws, Chain, Uncanonical;
    assert lines[..|lines| - 1][..i] == lines[..i];
  }

  lemma AllPassedOfLast(c: Codec, lines: seq<Line>)
    requires lines != []
    ensures AllPassed(c, lines) <==> AllPassed(c, lines[..|lines| - 1]) && Passed(c, lines, |lines| - 1)
  {
    hide Stops;
    var n := |lines| - 1;
    forall i | 0 <= i < n ensures Passed(c, lines, i) == Passed(c, lines[..n], i) {
      forall why ensures Stops(c, lines, i, why) == Stops(c, lines[..n], i, why) {
        StopsStays(c, lines, i, why);
      }
    }
  }

  lemma {:induction false} FirstStopOfLast(c: Codec, lines: seq<Line>, i: nat, why: Refusal)
    requires lines != [] && i < |lines| - 1
    ensures FirstStop(c, lines, i, why) <==> FirstStop(c, lines[..|lines| - 1], i, why)
  {
    hide Stops;
    var n := |lines| - 1;
    StopsStays(c, lines, i, why);
    forall j | 0 <= j < i ensures Passed(c, lines, j) == Passed(c, lines[..n], j) {
      forall other ensures Stops(c, lines, j, other) == Stops(c, lines[..n], j, other) {
        StopsStays(c, lines, j, other);
      }
    }
  }

  lemma ReplayableMeans(c: Codec, raw: Bytes, prev: Digest, claimed: Digest)
    ensures var r := Replayable(c, raw, prev, claimed);
            var canonical, covered := !Uncanonical(c, raw), claimed == Chain(c.hash, prev, raw);
            (r.Ok? <==> canonical && covered && c.read(raw).Readable?) &&
            (r.Ok? || r.error == (if !canonical then BytesNotCanonical else if !covered then BytesNotCovered
                                  else if c.read(raw).UnknownVersion? then VersionUnreached else BytesNotARecord))
  {
    hide Uncanonical, Chain;
  }

  lemma {:induction false} RecordStops(c: Codec, lines: seq<Line>, s: Reader)
    requires lines != [] && lines[|lines| - 1].RecordLine? && Parsing(c, s, Framed(lines[..|lines| - 1]))
    ensures Judged(c, lines, |lines| - 1, ReadLine(c, s, lines[|lines| - 1]))
  {
    hide Uncanonical, Chain, Framed, Head, CarriedRaws, Replayable;
    var n := |lines| - 1;
    var f := lines[n].record;
    var runs := s.parsed.runs;
    if f.raw.Some? && f.hash.Some? && runs != [] {
      var b := Framed(lines[..n]).current.value;
      assert All(Framed(lines[..n]))[|runs| - 1] == b;
      PrevRead(c, b, runs[|runs| - 1]);
      ReplayableMeans(c, f.raw.value, runs[|runs| - 1].prev, f.hash.value);
    }
  }

  /** The reader's next step, once it has passed every line so far. */
  lemma {:induction false} NextStops(c: Codec, lines: seq<Line>, s: Reader)
    requires lines != [] && Parsing(c, s, Framed(lines[..|lines| - 1]))
    ensures Judged(c, lines, |lines| - 1, ReadLine(c, s, lines[|lines| - 1]))
  {
    hide Framed, Parsing, RestoreRecord;
    if lines[|lines| - 1].RecordLine? {
      RecordStops(c, lines, s);
    }
  }

  /** The reader reads to the end exactly when it passes every line, and is
      otherwise refused for the first it does not pass. */
  lemma {:induction false} ReadsToTheEnd(c: Codec, lines: seq<Line>)
    ensures ReadLines(c, lines).Ok? <==> AllPassed(c, lines)
    ensures forall why :: ReadLines(c, lines) == Err(why) <==> StopsFirst(c, lines, why)
  {
    hide ReadLine, Passed, AllPassed, StopsFirst, Judged;
    if lines == [] {
      NoLinePassed(c);
    } else {
      var n := |lines| - 1;
      var before := ReadLines(c, lines[..n]);
      ReadsToTheEnd(c, lines[..n]);
      AllPassedOfLast(c, lines);
      if before.Ok? {
        ParseTracks(c, lines[..n]);
        NextStops(c, lines, before.value);
        JudgedPasses(c, lines, ReadLine(c, before.value, lines[n]));
      }
      forall why ensures ReadLines(c, lines) == Err(why) <==> StopsFirst(c, lines, why) {
        StopsOfLast(c, lines, why);
      }
    }
  }

  lemma JudgedPasses(c: Codec, lines: seq<Line>, read: Result<Reader, Refusal>)
    requires lines != [] && Judged(c, lines, |lines| - 1, read)
    ensures read.Ok? <==> Passed(c, lines, |lines| - 1)
    ensures forall why :: Stops(c, lines, |lines| - 1, why) <==> read == Err(why)
  {
    hide Stops;
    if read.Err? {
      assert Stops(c, lines, |lines| - 1, read.error);
    }
  }

  /** The first stop is an earlier one, or the last line's. */
  lemma {:induction false} StopsOfLast(c: Codec, lines: seq<Line>, why: Refusal)
    requires lines != []
    ensures StopsFirst(c, lines, why) <==>
            StopsFirst(c, lines[..|lines| - 1], why) ||
            (AllPassed(c, lines[..|lines| - 1]) && Stops(c, lines, |lines| - 1, why))
  {
    hide Stops;
    var n := |lines| - 1;
    forall i: nat | i < n ensures FirstStop(c, lines, i, why) <==> FirstStop(c, lines[..n], i, why) {
      FirstStopOfLast(c, lines, i, why);
    }
    PassedBefore(c, lines);
    assert FirstStop(c, lines, n, why) <==> AllPassed(c, lines[..n]) && Stops(c, lines, n, why);
  }

  lemma PassedBefore(c: Codec, lines: seq<Line>)
    requires lines != []
    ensures AllPassed(c, lines[..|lines| - 1]) <==> forall j :: 0 <= j < |lines| - 1 ==> Passed(c, lines, j)
  {
    hide Stops;
    var n := |lines| - 1;
    forall i | 0 <= i < n ensures Passed(c, lines, i) == Passed(c, lines[..n], i) {
      forall why ensures Stops(c, lines, i, why) == Stops(c, lines[..n], i, why) {
        StopsStays(c, lines, i, why);
      }
    }
  }

  lemma NoLinePassed(c: Codec)
    ensures AllPassed(c, []) && forall why :: !StopsFirst(c, [], why)
  {
  }

  // ── What is held of a file that was read ───────────────────────────────

  /** The header in force: the last one. */
  function LastHeader(lines: seq<Line>): Option<HeaderFields> {
    if lines == [] then None
    else if lines[|lines| - 1].HeaderLine? then Some(lines[|lines| - 1].header)
    else LastHeader(lines[..|lines| - 1])
  }

  /** The last checkpoint a header gave. */
  function LastCheckpoint(lines: seq<Line>): Option<Checkpoint> {
    if lines == [] then None
    else if lines[|lines| - 1].HeaderLine? && lines[|lines| - 1].header.checkpoint.Given?
    then Some(lines[|lines| - 1].header.checkpoint.value)
    else LastCheckpoint(lines[..|lines| - 1])
  }

  /** Record lines that carry a signature: what a restore cannot keep. */
  function SignedLines(lines: seq<Line>): nat {
    if lines == [] then 0
    else
      var last := lines[|lines| - 1];
      SignedLines(lines[..|lines| - 1]) + One(last.RecordLine? && last.record.signature.Some?)
  }

  /** A case line with every member a restore needs. */
  predicate Whole(line: Line) {
    line.CaseLine? && line.case_.case_.Some? && line.case_.deadlines.Some? && line.case_.blobs.Some? &&
    line.case_.hold.Given? && line.case_.erasure.Given?
  }

  function CasesRead(lines: seq<Line>): seq<RestoredCase> {
    if lines == [] then []
    else
      var last := lines[|lines| - 1];
      CasesRead(lines[..|lines| - 1]) +
      (if Whole(last)
       then [RestoredCase(last.case_.case_.value, last.case_.deadlines.value, last.case_.blobs.value,
                          last.case_.hold.value, last.case_.erasure.value)]
       else [])
  }

  ghost predicate Holds(s: Reader, lines: seq<Line>) {
    var p := s.parsed;
    p.version == (match LastHeader(lines) case Some(f) => f.version case None => None) &&
    p.canon == (match LastHeader(lines) case Some(f) => f.canon case None => None) &&
    p.checkpoint == (match LastCheckpoint(lines) case Some(cp) => cp case None => Checkpoint("", 0, ZERO)) &&
    (p.complete <==> LastTrailer(lines).Some?) && p.signed == SignedLines(lines) && p.cases == CasesRead(lines) &&
    s.runBlocks == RunLines(lines) && s.records == RecordLines(lines) &&
    (s.declared.Some? <==> LastTrailer(lines).Some?) &&
    (LastTrailer(lines).Some? ==>
       s.declared.value == (LastTrailer(lines).value.runsRequested, LastTrailer(lines).value.records))
  }

  lemma RecordKeeps(c: Codec, p: Parsed, f: RecordFields)
    requires RestoreRecord(c, p, f).Ok?
    ensures var q := RestoreRecord(c, p, f).value;
            q.cases == p.cases && q.signed == p.signed + One(f.signature.Some?)
  {
    hide Replayable;
  }

  lemma CaseReads(f: CaseFields)
    requires RestoreCase(f).Ok?
    ensures CasesRead([CaseLine(f)]) == (match RestoreCase(f).value case Some(found) => [found] case None => [])
  {
    assert CasesRead([CaseLine(f)][..0]) == [];
  }

  lemma CasesReadOfLast(lines: seq<Line>)
    requires lines != []
    ensures CasesRead(lines) == CasesRead(lines[..|lines| - 1]) + CasesRead([lines[|lines| - 1]])
  {
    assert CasesRead([lines[|lines| - 1]][..0]) == [];
  }

  lemma HoldsNext(c: Codec, s: Reader, lines: seq<Line>)
    requires lines != [] && Holds(s, lines[..|lines| - 1]) && ReadLine(c, s, lines[|lines| - 1]).Ok?
    ensures Holds(ReadLine(c, s, lines[|lines| - 1]).value, lines)
  {
    hide RestoreRecord, RestoreCase, CasesRead;
    var line := lines[|lines| - 1];
    CasesReadOfLast(lines);
    NoCaseRead(line);
    match line {
      case RecordLine(f) =>
        RecordKeepsTheHeader(c, s.parsed, f);
        RecordKeeps(c, s.parsed, f);
      case CaseLine(f) => CaseReads(f);
      case _ =>
    }
  }

  lemma NoCaseRead(line: Line)
    ensures !line.CaseLine? ==> CasesRead([line]) == []
  {
    assert CasesRead([line][..0]) == [];
  }

  lemma {:induction false} ReadHolds(c: Codec, lines: seq<Line>)
    requires ReadLines(c, lines).Ok?
    ensures Holds(ReadLines(c, lines).value, lines)
  {
    hide ReadLine;
    if lines != [] {
      ReadHolds(c, lines[..|lines| - 1]);
      hide Holds;
      HoldsNext(c, ReadLines(c, lines[..|lines| - 1]).value, lines);
    }
  }

  /** The trailer in force counts the run lines and the record lines. */
  predicate TrailerCounts(t: TrailerFields, lines: seq<Line>) {
    t.runsRequested == Some(RunLines(lines)) && t.records == Some(RecordLines(lines))
  }

  /** The file is taken if and only if every line passes and its trailer, if it has
      one, counts its lines; and otherwise the refusal is that of the first line
      that stops the reader or, past the last, of the trailer. */
  lemma {:induction false} ParseExactly(c: Codec, lines: seq<Line>)
    ensures Parse(c, lines).Ok? <==>
            AllPassed(c, lines) && (LastTrailer(lines).Some? ==> TrailerCounts(LastTrailer(lines).value, lines))
    ensures forall why :: Parse(c, lines) == Err(why) <==>
              StopsFirst(c, lines, why) ||
              (AllPassed(c, lines) && LastTrailer(lines).Some? &&
               var t := LastTrailer(lines).value;
               var counted := t.runsRequested.Some? && t.records.Some?;
               var runs := counted && t.runsRequested.value == RunLines(lines);
               (!counted && why.CountsMissing?) || (counted && !runs && why.RunsDiffer?) ||
               (runs && t.records.value != RecordLines(lines) && why.RecordsDiffer?))
  {
    hide ReadLines, AllPassed, StopsFirst, RunLines, RecordLines, LastTrailer, LastHeader, LastCheckpoint, SignedLines,
         CasesRead;
    ReadsToTheEnd(c, lines);
    if ReadLines(c, lines).Ok? {
      ReadHolds(c, lines);
    }
  }

  /** And what is held of a file that was taken: the header in force, whether it
      ends, its runs record by record, and its cases. */
  lemma {:induction false} ParsedExactly(c: Codec, lines: seq<Line>)
    requires Parse(c, lines).Ok?
    ensures var p, blocks := Parse(c, lines).value, BlocksOf(lines);
            p.version == (match LastHeader(lines) case Some(f) => f.version case None => None) &&
            p.canon == (match LastHeader(lines) case Some(f) => f.canon case None => None) &&
            p.checkpoint == (match LastCheckpoint(lines) case Some(cp) => cp case None => Checkpoint("", 0, ZERO)) &&
            (p.complete <==> LastTrailer(lines).Some?) && p.signed == SignedLines(lines) &&
            p.cases == CasesRead(lines) && |p.runs| == |blocks| &&
            forall i :: 0 <= i < |blocks| ==> TwoReaders.Reads(c, blocks[i], p.runs[i])
  {
    hide ReadLines, RunLines, RecordLines, LastTrailer, LastHeader, LastCheckpoint, SignedLines, CasesRead, Reads, Framed;
    ReadHolds(c, lines);
    ParseTracks(c, lines);
  }
}
