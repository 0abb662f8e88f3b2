/** Where the two readers part: a run block naming no run, with nothing under
    it, and a record line of a kind unknown are both sound to `verify` and
    refused by `parse`. */
module ReadersPart {
  import opened Wrappers
  import opened Hashing
  import opened Merkle
  import opened Wire
  import opened VerifySpec
  import opened SoundList
  import opened WriterSpec
  import opened ParseSpec
  import opened Acceptance

  const NAMELESS := RunLine(RunFields(None, Missing, Missing, None))

  /** An export of an empty log with one such block. */
  function Nameless(h: Hash): seq<Line> {
    [HeaderFor(Checkpoint("", 0, Root(h, [])), None), NAMELESS,
     EndLine(TrailerFields(Some(1), Some(0), Some(0), Some(0), []))]
  }

  lemma {:induction false} ThreeLines(c: Codec, a: Line, b: Line, d: Line)
    ensures Scanned(c, None, Start, [a, b, d]) == Step(c, None, Step(c, None, Step(c, None, Start, a), b), d)
    ensures ReadLines(c, [a, b, d]) == ReadNext(c, ReadNext(c, ReadNext(c, Ok(ParseSpec.Unread), a), b), d)
  {
    hide Step, ReadNext, Scanned, ReadLines;
    assert [] + [a] == [a] && [a] + [b] == [a, b] && [a, b] + [d] == [a, b, d];
    ScannedOfAppend(c, None, Start, [], a);
    ScannedOfAppend(c, None, Start, [a], b);
    ScannedOfAppend(c, None, Start, [a, b], d);
    ReadLinesOfAppend(c, [], a);
    ReadLinesOfAppend(c, [a], b);
    ReadLinesOfAppend(c, [a, b], d);
    NothingYet(c);
  }

  lemma {:induction false} NothingYet(c: Codec)
    ensures Scanned(c, None, Start, []) == Start && ReadLines(c, []) == Ok(ParseSpec.Unread)
  {
  }

  /** The scan after the header and the block. */
  function Opened(h: Hash): Scan {
    Start.(report := EmptyReport.(checkpoint := Checkpoint("", 0, Root(h, []))), headerSeen := true, first := false,
           runBlocks := 1)
  }

  lemma {:induction false} HeaderAndBlock(c: Codec)
    ensures Step(c, None, Step(c, None, Start, HeaderFor(Checkpoint("", 0, Root(c.hash, [])), None)), NAMELESS) ==
            Opened(c.hash)
  {
    hide Root;
    assert EmptyReport.(findings := []) == EmptyReport;
  }

  lemma {:induction false} TheReadersPart(c: Codec)
    ensures IsSound(Verify(c, None, [], Nameless(c.hash)))
    ensures Parse(c, Nameless(c.hash)) == Err(BlockNamesNoRun)
  {
    hide Root, Step, Scanned, ReadLines, Settled, Opened, HeaderFor, IsSound;
    var f := Nameless(c.hash);
    ThreeLines(c, f[0], f[1], f[2]);
    HeaderAndBlock(c);
    HeaderRead(c);
    Settles(c);
  }

  lemma HeaderRead(c: Codec)
    ensures ReadNext(c, Ok(ParseSpec.Unread), HeaderFor(Checkpoint("", 0, Root(c.hash, [])), None)).Ok?
  {
    hide Root;
  }

  lemma {:induction false} Settles(c: Codec)
    ensures var t := TrailerFields(Some(1), Some(0), Some(0), Some(0), []);
            var s := Step(c, None, Opened(c.hash), EndLine(t));
            s.pass.None? && !s.report.unverifiable && IsSound(Settled(c, s, []))
  {
    hide Root;
    assert Sorted([]) == [] && Hashes([]) == [];
  }

  // ── A record line of a kind unknown ────────────────────────────────────

  /** Line `i` under a kind no reader knows, a string or not. */
  function Retitled(lines: seq<Line>, i: nat, named: bool): seq<Line>
    requires i < |lines| && lines[i].RecordLine?
  {
    lines[i := UnknownLine(lines[i].record, named)]
  }

  lemma {:induction false} RetitledScans(c: Codec, keys: Option<SignatureCheck>, lines: seq<Line>, i: nat, named: bool)
    requires i < |lines| && lines[i].RecordLine?
    ensures Scanned(c, keys, Start, Retitled(lines, i, named)) == Scanned(c, keys, Start, lines)
  {
    hide Step;
    var n := |lines| - 1;
    var s := Scanned(c, keys, Start, lines[..n]);
    if i < n {
      RetitledScans(c, keys, lines[..n], i, named);
      assert Retitled(lines, i, named)[..n] == Retitled(lines[..n], i, named);
    } else {
      assert Retitled(lines, i, named)[..n] == lines[..n];
      OneStep(c, keys, s, lines[i].record, named);
    }
  }

  lemma {:induction false} OneStep(c: Codec, keys: Option<SignatureCheck>, s: Scan, f: RecordFields, named: bool)
    ensures Step(c, keys, s, UnknownLine(f, named)) == Step(c, keys, s, RecordLine(f))
  {
    hide ReadRecord;
  }

  /** Whatever kind a record line is filed under, `verify` reads it the same;
      a restore that took the file refuses it. */
  lemma {:induction false} RetitledParts(c: Codec, keys: Option<SignatureCheck>, anchors: seq<Anchor>, lines: seq<Line>,
                                         i: nat, named: bool)
    requires i < |lines| && lines[i].RecordLine?
    ensures Verify(c, keys, anchors, Retitled(lines, i, named)) == Verify(c, keys, anchors, lines)
    ensures Parse(c, lines).Ok? ==> Parse(c, Retitled(lines, i, named)) == Err(KindUnknown)
  {
    hide Settled, FinishRun, Scanned, ReadLines;
    RetitledScans(c, keys, lines, i, named);
    if Parse(c, lines).Ok? {
      var to := Retitled(lines, i, named);
      if ReadLines(c, lines[..i]).Err? {
        RefusedStays(c, lines, i, ReadLines(c, lines[..i]).error);
      }
      assert to[..i] == lines[..i] && to[..i + 1] == to[..i] + [to[i]];
      ReadLinesOfAppend(c, to[..i], to[i]);
      RefusedStays(c, to, i + 1, KindUnknown);
    }
  }

  const ONE_BODY := Body(1, 0, None, None, Forward, 0, None, OtherKind)

  /** An encoding under which every string is one record of run 0. */
  function OneReading(h: Hash): Codec {
    Codec(h, (raw: Bytes) => Readable(ONE_BODY), (raw: Bytes) => None, (j: Json) => [], (raw: Bytes) => Some(1))
  }

  function OneRecord(h: Hash): RecordFields {
    RecordFields(Some([]), Some(Chain(h, ZERO, [])), Some(Json("null")), Some(1), Some(ZERO), None)
  }

  /** An export of that run from an empty log. */
  function OneRunFile(h: Hash): seq<Line> {
    [HeaderFor(Checkpoint("", 0, Root(h, [])), None), RunLine(RunFields(Some(0), Missing, Missing, None)),
     RecordLine(OneRecord(h)),
     EndLine(TrailerFields(Some(1), Some(1), Some(1), Some(0), []))]
  }

  lemma {:induction false} FourLines(c: Codec, a: Line, b: Line, d: Line, e: Line)
    ensures Scanned(c, None, Start, [a, b, d, e]) ==
            Step(c, None, Step(c, None, Step(c, None, Step(c, None, Start, a), b), d), e)
  {
    hide Step, ReadNext, Scanned, ReadLines;
    ThreeLines(c, a, b, d);
    assert [a, b, d] + [e] == [a, b, d, e];
    ScannedOfAppend(c, None, Start, [a, b, d], e);
  }

  /** The scan once the run's block is open. */
  function BlockOpen(h: Hash): Scan {
    Opened(h).(pass := Some(OpenPass(RunFields(Some(0), Missing, Missing, None), 0)), blocksOf := {0})
  }

  lemma HeaderAndRun(c: Codec)
    ensures Step(c, None, Step(c, None, Start, HeaderFor(Checkpoint("", 0, Root(c.hash, [])), None)),
                 RunLine(RunFields(Some(0), Missing, Missing, None))) == BlockOpen(c.hash)
  {
    hide Root;
    assert EmptyReport.(findings := []) == EmptyReport;
  }

  lemma RecordIsQuiet(h: Hash)
    ensures var p := OpenPass(RunFields(Some(0), Missing, Missing, None), 0);
            var j := JudgeRecord(OneReading(h), OneRecord(h), p);
            j.found == [] && j.stamp.None? && j.pass.clean && j.pass.records == 1 && j.pass.declaredSeal.None?
  {
    hide Chain;
  }

  lemma {:induction false} RecordRead(h: Hash)
    ensures var s := Step(OneReading(h), None, BlockOpen(h), RecordLine(OneRecord(h)));
            var p := OpenPass(RunFields(Some(0), Missing, Missing, None), 0);
            s == BlockOpen(h).(pass := Some(JudgeRecord(OneReading(h), OneRecord(h), p).pass),
                               report := Opened(h).report.(records := 1))
  {
    hide Root, JudgeRecord, Chain;
    RecordIsQuiet(h);
  }

  lemma {:induction false} RunSettles(h: Hash, p: Pass)
    requires p.clean && p.records == 1 && p.declaredSeal.None?
    ensures var c := OneReading(h);
            var s := BlockOpen(h).(pass := Some(p), report := Opened(h).report.(records := 1));
            var e := FinishRun(c, None, Step(c, None, s, EndLine(TrailerFields(Some(1), Some(1), Some(1), Some(0), []))));
            !e.report.unverifiable && IsSound(Settled(c, e, []))
  {
    hide Root;
    assert Sorted([]) == [] && Hashes([]) == [];
  }

  lemma {:induction false} OneRunFileIsSound(h: Hash)
    ensures IsSound(Verify(OneReading(h), None, [], OneRunFile(h)))
  {
    hide Root, Step, Scanned, Settled, Opened, BlockOpen, HeaderFor, IsSound, OneReading, OneRecord, JudgeRecord,
         OpenPass, FinishRun;
    var c, f := OneReading(h), OneRunFile(h);
    HashOfReading(h);
    FourLines(c, f[0], f[1], f[2], f[3]);
    HeaderAndRun(c);
    RecordRead(h);
    RecordIsQuiet(h);
    RunSettles(h, JudgeRecord(c, OneRecord(h), OpenPass(RunFields(Some(0), Missing, Missing, None), 0)).pass);
    FinishKeepsTheRules(c, None, Scanned(c, None, Start, f));
  }

  lemma HashOfReading(h: Hash)
    ensures OneReading(h).hash == h
  {
  }

  /** A file sound to `verify` that a restore refuses for the kind of one line. */
  lemma {:induction false} TheReadersPartOnAKind(h: Hash)
    ensures IsSound(Verify(OneReading(h), None, [], Retitled(OneRunFile(h), 2, true)))
    ensures Parse(OneReading(h), Retitled(OneRunFile(h), 2, true)) == Err(KindUnknown)
  {
    hide Verify, Parse, OneReading, HeaderFor, Root, IsSound;
    OneRunFileIsSound(h);
    SoundParses(OneReading(h), None, [], OneRunFile(h));
    HeaderIsWhole(h);
    RetitledParts(OneReading(h), None, [], OneRunFile(h), 2, true);
  }

  lemma HeaderIsWhole(h: Hash)
    ensures Plain(HeaderFor(Checkpoint("", 0, Root(h, [])), None))
  {
    hide Root;
  }
}
