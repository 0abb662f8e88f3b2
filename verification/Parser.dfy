/** `parse`: the restore's one pass over a file, updating what it has read line
    by line. */
module Parser {
  import opened Wrappers
  import opened Hashing
  import opened Wire
  import opened ParseSpec

  class ParsedFile {
    var checkpoint: Checkpoint
    var version: Option<nat>
    var canon: Option<nat>
    var complete: bool
    var runs: seq<Restored>
    var cases: seq<RestoredCase>
    var signed: nat

    constructor ()
      ensures View() == Unread.parsed
    {
      checkpoint, version, canon, complete := Checkpoint("", 0, ZERO), None, None, false;
      runs, cases, signed := [], [], 0;
    }

    function View(): Parsed
      reads this
    {
      Parsed(checkpoint, version, canon, complete, runs, cases, signed)
    }

    method Header(kind: HeaderKind, f: HeaderFields) returns (refused: Option<Refusal>)
      modifies this`version, this`canon, this`checkpoint
      ensures refused == (if kind.DisclosurePackage? then Some(PackageRefused)
                          else if f.checkpoint.Unreadable? then Some(HeaderUnreadable) else None)
      ensures refused.None? ==>
                View() == old(View()).(version := f.version, canon := f.canon,
                                       checkpoint := if f.checkpoint.Given? then f.checkpoint.value else old(checkpoint))
    {
      if kind.DisclosurePackage? {
        return Some(PackageRefused);
      }
      version, canon := f.version, f.canon;
      match f.checkpoint {
        case Missing =>
        case Unreadable => return Some(HeaderUnreadable);
        case Given(cp) => checkpoint := cp;
      }
      return None;
    }

    /** Takes the fold's step for a record line, or stops at the fold's refusal. */
    method Record(c: Codec, f: RecordFields) returns (refused: Option<Refusal>)
      modifies this`signed, this`runs
      ensures match RestoreRecord(c, old(View()), f)
              case Err(e) => refused == Some(e)
              case Ok(p) => refused.None? && View() == p
    {
      if f.signature.Some? {
        signed := signed + 1;
      }
      if f.raw.None? {
        return Some(NoBytes);
      }
      if f.hash.None? {
        return Some(NoHash);
      }
      if runs == [] {
        return Some(OutsideBlock);
      }
      var n := |runs| - 1;
      var current := runs[n];
      var read := Replayable(c, f.raw.value, current.prev, f.hash.value);
      match read {
        case Err(e) => return Some(e);
        case Ok(record) =>
          current := current.(prev := f.hash.value);
          if record.body.kind.RunConcluded? {
            current := current.(outcome := Some(record.body.kind.outcome));
          }
          current := current.(records := current.records + [record], hashes := current.hashes + [f.hash.value]);
          runs := runs[..n] + [current];
          return None;
      }
    }

    method CaseBlock(f: CaseFields) returns (refused: Option<Refusal>)
      modifies this`cases
      ensures match RestoreCase(f)
              case Err(e) => refused == Some(e)
              case Ok(None) => refused.None? && View() == old(View())
              case Ok(Some(found)) => refused.None? && View() == old(View()).(cases := old(cases) + [found])
    {
      match RestoreCase(f) {
        case Err(e) => return Some(e);
        case Ok(None) => return None;
        case Ok(Some(found)) =>
          cases := cases + [found];
          return None;
      }
    }
  }

  /** What the pass keeps beside the file it has read. */
  datatype Tallies = Tallies(declared: Option<(Option<nat>, Option<nat>)>, records: nat, runBlocks: nat)

  function AsReader(p: Parsed, t: Tallies): Reader {
    Reader(p, t.declared, t.records, t.runBlocks)
  }

  method TakeLine(c: Codec, file: ParsedFile, before: Tallies, line: Line)
    returns (refused: Option<Refusal>, t: Tallies)
    modifies file
    ensures match ReadLine(c, AsReader(old(file.View()), before), line)
            case Err(e) => refused == Some(e)
            case Ok(s) => refused.None? && AsReader(file.View(), t) == s
  {
    hide Replayable, RestoreCase;
    t := before;
    refused := None;
    match line {
      case Blank =>
      case NotJson => refused := Some(LineNotJson);
      case HeaderLine(kind, f) => refused := file.Header(kind, f);
      case RunLine(f) =>
        t := t.(runBlocks := t.runBlocks + 1);
        if f.run.None? {
          return Some(BlockNamesNoRun), t;
        }
        file.runs := file.runs + [Restored(f.run.value, IndexOf(f), None, [], [], ZERO)];
      case CaseLine(f) => refused := file.CaseBlock(f);
      case EndLine(f) =>
        file.complete := true;
        t := t.(declared := Some((f.runsRequested, f.records)));
      case UnknownLine(f, _) => refused := Some(KindUnknown);
      case RecordLine(f) =>
        t := t.(records := t.records + 1);
        refused := file.Record(c, f);
    }
  }

  method ParseFile(c: Codec, lines: seq<Line>) returns (refused: Option<Refusal>, file: ParsedFile)
    ensures fresh(file)
    ensures match Parse(c, lines)
            case Err(e) => refused == Some(e)
            case Ok(p) => refused.None? && file.View() == p
  {
    hide ReadLine, ReadLines;
    file := new ParsedFile();
    var t := Tallies(None, 0, 0);
    NothingRead(c, lines);
    for i := 0 to |lines|
      invariant fresh(file) && ReadLines(c, lines[..i]) == Ok(AsReader(file.View(), t))
    {
      assert lines[..i + 1] == lines[..i] + [lines[i]];
      ReadLinesOfAppend(c, lines[..i], lines[i]);
      refused, t := TakeLine(c, file, t, lines[i]);
      if refused.Some? {
        RefusedStays(c, lines, i + 1, refused.value);
        return;
      }
    }
    assert lines[..|lines|] == lines;
    refused := None;
    if t.declared.Some? {
      refused := HeldToTrailer(t.declared.value, t.runBlocks, t.records);
    }
  }

  lemma NothingRead(c: Codec, lines: seq<Line>)
    ensures ReadLines(c, lines[..0]) == Ok(Unread)
  {
  }
}
