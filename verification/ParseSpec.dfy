/** What a restore reads in a file: the second reader of the same lines, as a
    fold, with every line it refuses. */
module ParseSpec {
  import opened Wrappers
  import opened Hashing
  import opened Wire

  /** The one reason a reader stopped for. */
  datatype Refusal =
    | LineNotJson | PackageRefused | HeaderUnreadable | BlockNamesNoRun | KindUnknown | NoBytes | NoHash | OutsideBlock
    | BytesNotCanonical | BytesNotCovered | VersionUnreached | BytesNotARecord | HoldUnreadable | ErasureUnreadable
    | CountsMissing | RunsDiffer | RecordsDiffer

  /** A run block as this reader keeps it. */
  datatype Restored = Restored(run: RunId, index: Option<nat>, outcome: Option<Outcome>, records: seq<Record>,
                               hashes: seq<Digest>, prev: Digest)

  datatype RestoredCase = RestoredCase(case_: Case, deadlines: Json, blobs: seq<Digest>, hold: Option<Json>,
                                       erasure: Option<Json>)

  datatype Parsed = Parsed(checkpoint: Checkpoint, version: Option<nat>, canon: Option<nat>, complete: bool,
                           runs: seq<Restored>, cases: seq<RestoredCase>, signed: nat)

  /** The reader between two lines. */
  datatype Reader = Reader(parsed: Parsed, declared: Option<(Option<nat>, Option<nat>)>, records: nat, runBlocks: nat)

  const Unread := Reader(Parsed(Checkpoint("", 0, ZERO), None, None, false, [], [], 0), None, 0, 0)

  /** The record a line's bytes hold after `prev`, or the first of three reasons
      they hold none. */
  function Replayable(c: Codec, raw: Bytes, prev: Digest, claimed: Digest): Result<Record, Refusal> {
    if Uncanonical(c, raw) then Err(BytesNotCanonical)
    else if Chain(c.hash, prev, raw) != claimed then Err(BytesNotCovered)
    else
      match c.read(raw)
      case Readable(body) => Ok(Record(body, prev, claimed, None, raw))
      case UnknownVersion => Err(VersionUnreached)
      case _ => Err(BytesNotARecord)
  }

  function Extend(r: Restored, record: Record): Restored {
    r.(prev := record.hash, records := r.records + [record], hashes := r.hashes + [record.hash],
       outcome := if record.body.kind.RunConcluded? then Some(record.body.kind.outcome) else r.outcome)
  }

  function RestoreRecord(c: Codec, p: Parsed, f: RecordFields): Result<Parsed, Refusal> {
    if f.raw.None? then Err(NoBytes)
    else if f.hash.None? then Err(NoHash)
    else if p.runs == [] then Err(OutsideBlock)
    else
      var n := |p.runs| - 1;
      match Replayable(c, f.raw.value, p.runs[n].prev, f.hash.value)
      case Err(e) => Err(e)
      case Ok(record) =>
        Ok(p.(signed := p.signed + (if f.signature.Some? then 1 else 0),
              runs := p.runs[..n] + [Extend(p.runs[n], record)]))
  }

  /** A case block either reads, is passed over, or refuses the file. */
  function RestoreCase(f: CaseFields): Result<Option<RestoredCase>, Refusal> {
    if f.case_.None? || f.deadlines.None? || f.blobs.None? then Ok(None)
    else if !f.hold.Given? then Err(HoldUnreadable)
    else if !f.erasure.Given? then Err(ErasureUnreadable)
    else Ok(Some(RestoredCase(f.case_.value, f.deadlines.value, f.blobs.value, f.hold.value, f.erasure.value)))
  }

  function IndexOf(f: RunFields): Option<nat> {
    if f.index.Given? then Some(f.index.value) else None
  }

  /** A header, wherever it stands: the last one read is the one in force. */
  function WithHeader(p: Parsed, f: HeaderFields): Parsed {
    p.(version := f.version, canon := f.canon,
       checkpoint := if f.checkpoint.Given? then f.checkpoint.value else p.checkpoint)
  }

  function WithRun(p: Parsed, run: RunId, index: Option<nat>): Parsed {
    p.(runs := p.runs + [Restored(run, index, None, [], [], ZERO)])
  }

  function WithTrailer(p: Parsed): Parsed {
    p.(complete := true)
  }

  function WithCase(p: Parsed, found: Option<RestoredCase>): Parsed {
    p.(cases := p.cases + (if found.Some? then [found.value] else []))
  }

  function TakeCase(s: Reader, restored: Result<Option<RestoredCase>, Refusal>): Result<Reader, Refusal> {
    match restored
    case Err(e) => Err(e)
    case Ok(found) => Ok(s.(parsed := WithCase(s.parsed, found)))
  }

  function ReadLine(c: Codec, s: Reader, line: Line): Result<Reader, Refusal> {
    match line
    case Blank => Ok(s)
    case NotJson => Err(LineNotJson)
    case HeaderLine(kind, f) =>
      if kind.DisclosurePackage? then Err(PackageRefused)
      else if f.checkpoint.Unreadable? then Err(HeaderUnreadable)
      else
        Ok(s.(parsed := WithHeader(s.parsed, f)))
    case RunLine(f) =>
      if f.run.None? then Err(BlockNamesNoRun)
      else
        Ok(s.(runBlocks := s.runBlocks + 1, parsed := WithRun(s.parsed, f.run.value, IndexOf(f))))
    case CaseLine(f) =>
      TakeCase(s, RestoreCase(f))
    case EndLine(f) => Ok(s.(parsed := WithTrailer(s.parsed), declared := Some((f.runsRequested, f.records))))
    case UnknownLine(f, _) => Err(KindUnknown)
    case RecordLine(f) =>
      (match RestoreRecord(c, s.parsed, f)
       case Err(e) => Err(e)
       case Ok(p) => Ok(s.(parsed := p, records := s.records + 1)))
  }

  function ReadLines(c: Codec, lines: seq<Line>): Result<Reader, Refusal> {
    if lines == [] then Ok(Unread)
    else ReadNext(c, ReadLines(c, lines[..|lines| - 1]), lines[|lines| - 1])
  }

  /** A refused file stays refused. */
  function ReadNext(c: Codec, read: Result<Reader, Refusal>, line: Line): Result<Reader, Refusal> {
    match read
    case Err(e) => Err(e)
    case Ok(s) => ReadLine(c, s, line)
  }

  lemma ReadLinesOfAppend(c: Codec, lines: seq<Line>, line: Line)
    ensures ReadLines(c, lines + [line]) == ReadNext(c, ReadLines(c, lines), line)
  {
    hide ReadLine;
    assert (lines + [line])[..|lines|] == lines;
  }

  /** What the trailer declares, held against what was read. */
  function HeldToTrailer(declared: (Option<nat>, Option<nat>), runBlocks: nat, records: nat): Option<Refusal> {
    if declared.0.None? || declared.1.None? then Some(CountsMissing)
    else if declared.0.value != runBlocks then Some(RunsDiffer)
    else if declared.1.value != records then Some(RecordsDiffer)
    else None
  }

  /** The trailer's accounting; a file with no trailer is left to the caller. */
  function Held(s: Reader): Result<Parsed, Refusal> {
    if s.declared.None? then Ok(s.parsed)
    else
      var why := HeldToTrailer(s.declared.value, s.runBlocks, s.records);
      if why.Some? then Err(why.value) else Ok(s.parsed)
  }

  function Parse(c: Codec, lines: seq<Line>): Result<Parsed, Refusal> {
    match ReadLines(c, lines)
    case Err(e) => Err(e)
    case Ok(s) => Held(s)
  }

  lemma {:induction false} RefusedStays(c: Codec, lines: seq<Line>, n: nat, why: Refusal)
    requires n <= |lines| && ReadLines(c, lines[..n]) == Err(why)
    ensures ReadLines(c, lines) == Err(why)
  {
    hide ReadLine;
    if n < |lines| {
      assert lines[..|lines| - 1][..n] == lines[..n];
      RefusedStays(c, lines[..|lines| - 1], n, why);
    } else {
      assert lines[..n] == lines;
    }
  }
}
