/** A file read plainly, as blocks of record lines, and what the pass makes of
    one block: the running head, and when a block comes out clean. */
module Blocks {
  import opened Wrappers
  import opened Hashing
  import opened Wire
  import opened VerifySpec

  /** A run block naming a run, and the record lines under it. */
  datatype Block = Block(header: RunFields, run: RunId, lines: seq<RecordFields>)

  datatype Frame = Frame(done: seq<Block>, current: Option<Block>, halted: bool)

  function FrameStep(f: Frame, line: Line): Frame {
    if f.halted then f
    else
      match line
      case NotJson => f.(halted := true)
      case RunLine(h) =>
        f.(done := All(f), current := match h.run case Some(run) => Some(Block(h, run, [])) case None => None)
      case RecordLine(r) => Under(f, r)
      case UnknownLine(r, _) => Under(f, r)
      case _ => f
  }

  function Under(f: Frame, r: RecordFields): Frame {
    match f.current
    case Some(b) => f.(current := Some(b.(lines := b.lines + [r])))
    case None => f
  }

  function All(f: Frame): seq<Block> {
    f.done + (match f.current case Some(b) => [b] case None => [])
  }

  function Framed(lines: seq<Line>): Frame {
    if lines == [] then Frame([], None, false) else FrameStep(Framed(lines[..|lines| - 1]), lines[|lines| - 1])
  }

  /** The blocks of a file, in order.  Nothing past a line that is not JSON
      belongs to one. */
  function BlocksOf(lines: seq<Line>): seq<Block> {
    All(Framed(lines))
  }

  // ── What the pass makes of one block ───────────────────────────────────

  function PassAfter(c: Codec, entered: Pass, lines: seq<RecordFields>): Pass {
    if lines == [] then entered
    else JudgeRecord(c, lines[|lines| - 1], PassAfter(c, entered, lines[..|lines| - 1])).pass
  }

  function ReadBlock(c: Codec, b: Block): Pass {
    PassAfter(c, OpenPass(b.header, b.run), b.lines)
  }

  predicate Carries(f: RecordFields) {
    f.raw.Some? && f.hash.Some?
  }

  /** The bytes on the lines that carry both bytes and a hash, in order. */
  function CarriedRaws(lines: seq<RecordFields>): seq<Bytes> {
    if lines == [] then []
    else
      var last := lines[|lines| - 1];
      CarriedRaws(lines[..|lines| - 1]) + (if Carries(last) then [last.raw.value] else [])
  }

  lemma CarriedOfAppend(lines: seq<RecordFields>, f: RecordFields)
    ensures CarriedRaws(lines + [f]) == CarriedRaws(lines) + (if Carries(f) then [f.raw.value] else [])
  {
    assert (lines + [f])[..|lines|] == lines;
  }

  lemma {:induction false} CarriedLength(lines: seq<RecordFields>)
    requires forall i :: 0 <= i < |lines| ==> Carries(lines[i])
    ensures |CarriedRaws(lines)| == |lines|
    ensures forall i :: 0 <= i < |lines| ==> lines[i].raw == Some(CarriedRaws(lines)[i])
    ensures forall i :: 0 <= i <= |lines| ==> CarriedRaws(lines)[..i] == CarriedRaws(lines[..i])
  {
    if lines != [] {
      var n := |lines| - 1;
      CarriedLength(lines[..n]);
      forall i | 0 <= i <= |lines| ensures CarriedRaws(lines)[..i] == CarriedRaws(lines[..i]) {
        if i <= n {
          assert lines[..n][..i] == lines[..i];
          assert CarriedRaws(lines)[..i] == CarriedRaws(lines[..n])[..i];
        } else {
          assert lines[..i] == lines;
        }
      }
    }
  }

  lemma JudgeMovesTheHead(c: Codec, f: RecordFields, p: Pass)
    ensures JudgeRecord(c, f, p).pass.prev ==
            if Carries(f) then Chain(c.hash, p.prev, f.raw.value) else p.prev
    ensures JudgeRecord(c, f, p).pass.records == p.records + 1
  {
    hide Disagreements, Uncanonical, Chain;
  }

  /** Whatever mix of good, edited, uncanonical and unreadable lines a block
      holds, the running head is the chain over exactly the bytes on its
      hash-carrying lines. */
  lemma {:induction false} HeadInvariant(c: Codec, entered: Pass, lines: seq<RecordFields>)
    requires entered.prev == ZERO
    ensures PassAfter(c, entered, lines).prev == Head(c.hash, CarriedRaws(lines))
    ensures PassAfter(c, entered, lines).records == entered.records + |lines|
  {
    hide JudgeRecord, Head;
    if lines == [] {
      HeadOfNone(c.hash);
    } else {
      var n := |lines| - 1;
      HeadInvariant(c, entered, lines[..n]);
      JudgeMovesTheHead(c, lines[n], PassAfter(c, entered, lines[..n]));
      if Carries(lines[n]) {
        HeadOfAppend(c.hash, CarriedRaws(lines[..n]), lines[n].raw.value);
      } else {
        assert CarriedRaws(lines) == CarriedRaws(lines[..n]);
      }
    }
  }

  lemma HeadOfNone(h: Hash)
    ensures Head(h, []) == ZERO
  {
  }

  lemma DisagreementsIgnoreClean(c: Codec, f: RecordFields, p: Pass, flag: bool, raw: Bytes, body: Body)
    ensures Disagreements(c, f, p.(clean := flag), raw, body) == Disagreements(c, f, p, raw, body)
  {
    hide When, WireJson;
  }

  lemma ReadIgnoresClean(c: Codec, f: RecordFields, p: Pass, flag: bool, raw: Bytes, claimed: Digest, body: Body)
    ensures var j, j' := JudgeRead(c, f, p, raw, claimed, body), JudgeRead(c, f, p.(clean := flag), raw, claimed, body);
            j'.found == j.found && j'.stamp == j.stamp && j'.pass == j.pass.(clean := flag && j.found == []) &&
            j.pass.clean == (p.clean && j.found == [])
  {
    hide Disagreements;
    DisagreementsIgnoreClean(c, f, p, flag, raw, body);
  }

  lemma UnreadIgnoresClean(c: Codec, p: Pass, flag: bool, raw: Bytes)
    ensures JudgeUnread(c, p.(clean := flag), raw) == JudgeUnread(c, p, raw)
    ensures !JudgeUnread(c, p, raw).pass.clean && JudgeUnread(c, p, raw).found != []
  {
    hide Chain;
  }

  /** `clean` is a flag the walk carries and never consults. */
  lemma {:induction false} CleanIsOnlyAFlag(c: Codec, f: RecordFields, p: Pass, flag: bool)
    ensures JudgeRecord(c, f, p.(clean := flag)).found == JudgeRecord(c, f, p).found
    ensures JudgeRecord(c, f, p.(clean := flag)).stamp == JudgeRecord(c, f, p).stamp
    ensures JudgeRecord(c, f, p.(clean := flag)).pass ==
            JudgeRecord(c, f, p).pass.(clean := flag && JudgeRecord(c, f, p).found == [])
    ensures JudgeRecord(c, f, p).pass.clean == (p.clean && JudgeRecord(c, f, p).found == [])
  {
    hide Chain, Uncanonical, SeqOr, JudgeRead, JudgeUnread;
    var q := p.(records := p.records + 1);
    if Carries(f) {
      UnreadIgnoresClean(c, q, flag, f.raw.value);
      if c.read(f.raw.value).Readable? {
        ReadIgnoresClean(c, f, q, flag, f.raw.value, f.hash.value, c.read(f.raw.value).body);
      }
    }
  }

  // ── When a block comes out clean ───────────────────────────────────────

  /** Line `i` of a block holds: its bytes and the head before it recompute its
      hash, they are canonical and read as the record of this run at `i + 1`, a
      conclusion names the head it sits on, and the line's copies agree. */
  ghost predicate LineHolds(c: Codec, run: RunId, lines: seq<RecordFields>, i: nat)
    requires i < |lines|
  {
    var f := lines[i];
    var before := Head(c.hash, CarriedRaws(lines[..i]));
    Carries(f) && f.hash.value == Chain(c.hash, before, f.raw.value) && !Uncanonical(c, f.raw.value) &&
    c.read(f.raw.value).Readable? &&
    var body := c.read(f.raw.value).body;
    body.seq_ == i + 1 && body.run == run &&
    (body.kind.RunConcluded? ==> body.kind.chainHead == before) &&
    f.prevHash == Some(before) && f.seq_ == Some(body.seq_) && f.body == Some(WireJson(c, f.raw.value))
  }

  ghost predicate Recomputes(c: Codec, run: RunId, lines: seq<RecordFields>) {
    forall i :: 0 <= i < |lines| ==> LineHolds(c, run, lines, i)
  }

  /** The record a line that holds stands for. */
  function RecordOf(c: Codec, lines: seq<RecordFields>): Record
    requires lines != []
    requires Carries(lines[|lines| - 1]) && c.read(lines[|lines| - 1].raw.value).Readable?
  {
    var f := lines[|lines| - 1];
    Record(c.read(f.raw.value).body, Head(c.hash, CarriedRaws(lines[..|lines| - 1])), f.hash.value, f.signature,
           f.raw.value)
  }

  /** The records under a block, as the pass recomputed them. */
  ghost predicate Recomputed(c: Codec, lines: seq<RecordFields>, records: seq<Record>) {
    |records| == |lines| &&
    forall i :: 0 <= i < |lines| ==>
      Carries(lines[i]) && c.read(lines[i].raw.value).Readable? && records[i] == RecordOf(c, lines[..i + 1])
  }

  lemma RecomputesOfAppend(c: Codec, run: RunId, lines: seq<RecordFields>)
    requires lines != []
    ensures var n := |lines| - 1;
            Recomputes(c, run, lines) <==> Recomputes(c, run, lines[..n]) && LineHolds(c, run, lines, n)
  {
    var n := |lines| - 1;
    forall i | 0 <= i < n ensures LineHolds(c, run, lines, i) == LineHolds(c, run, lines[..n], i) {
      assert lines[..n][..i] == lines[..i];
    }
  }

  /** One line, judged at the head and sequence a clean block has reached. */
  lemma {:induction false} JudgeIsLineHolds(c: Codec, lines: seq<RecordFields>, p: Pass)
    requires lines != []
    requires p.prev == Head(c.hash, CarriedRaws(lines[..|lines| - 1])) && p.lastSeq == |lines| - 1
    ensures var j := JudgeRecord(c, lines[|lines| - 1], p);
            (j.found == [] <==> LineHolds(c, p.run, lines, |lines| - 1)) &&
            j.pass.run == p.run &&
            (j.found == [] ==> Carries(lines[|lines| - 1]) &&
                               c.read(lines[|lines| - 1].raw.value).Readable? &&
                               j.pass.lastSeq == |lines| &&
                               j.pass.resealed == p.resealed + [RecordOf(c, lines)] &&
                               j.stamp == c.read(lines[|lines| - 1].raw.value).body.case_)
  {
    hide Head, Chain, Uncanonical, CarriedRaws;
  }

  /** A block comes out clean exactly when every line of it holds; the records
      it was read as are then the ones its bytes hold, in order. */
  lemma {:induction false} CleanMeansRecomputes(c: Codec, entered: Pass, lines: seq<RecordFields>)
    requires entered.prev == ZERO && entered.lastSeq == 0 && entered.resealed == [] && entered.clean
    ensures var p := PassAfter(c, entered, lines);
            p.run == entered.run &&
            (p.clean <==> Recomputes(c, entered.run, lines)) &&
            (p.clean ==> p.lastSeq == |lines| && Recomputed(c, lines, p.resealed))
  {
    hide JudgeRecord, LineHolds, RecordOf;
    if lines != [] {
      var n := |lines| - 1;
      var p := PassAfter(c, entered, lines[..n]);
      CleanMeansRecomputes(c, entered, lines[..n]);
      HeadInvariant(c, entered, lines[..n]);
      RecomputesOfAppend(c, entered.run, lines);
      JudgeKeepsTheRun(c, lines[n], p);
      CleanIsOnlyAFlag(c, lines[n], p, p.clean);
      if p.clean {
        JudgeIsLineHolds(c, lines, p);
        if PassAfter(c, entered, lines).clean {
          RecomputedOfAppend(c, lines, p.resealed);
        }
      }
    }
  }

  lemma JudgeKeepsTheRun(c: Codec, f: RecordFields, p: Pass)
    ensures var q := JudgeRecord(c, f, p).pass;
            q.run == p.run && q.declaredSeal == p.declaredSeal && q.sealed == p.sealed && q.index == p.index &&
            q.proof == p.proof
  {
    hide Disagreements, Uncanonical, Chain;
  }

  lemma {:induction false} RecomputedOfAppend(c: Codec, lines: seq<RecordFields>, records: seq<Record>)
    requires lines != [] && Recomputed(c, lines[..|lines| - 1], records)
    requires Carries(lines[|lines| - 1]) && c.read(lines[|lines| - 1].raw.value).Readable?
    ensures Recomputed(c, lines, records + [RecordOf(c, lines)])
  {
    hide RecordOf;
    var n := |lines| - 1;
    var grown := records + [RecordOf(c, lines)];
    forall i | 0 <= i < |lines|
      ensures Carries(lines[i]) && c.read(lines[i].raw.value).Readable? && grown[i] == RecordOf(c, lines[..i + 1])
    {
      if i < n {
        assert lines[..n][i] == lines[i];
        assert lines[..n][..i + 1] == lines[..i + 1];
      } else {
        assert lines[..i + 1] == lines;
      }
    }
  }

  lemma {:induction false} ReadBlockKeepsItsHeader(c: Codec, entered: Pass, lines: seq<RecordFields>)
    ensures var p := PassAfter(c, entered, lines);
            p.run == entered.run && p.declaredSeal == entered.declaredSeal && p.sealed == entered.sealed &&
            p.index == entered.index && p.proof == entered.proof
  {
    hide JudgeRecord;
    if lines != [] {
      ReadBlockKeepsItsHeader(c, entered, lines[..|lines| - 1]);
      JudgeKeepsTheRun(c, lines[|lines| - 1], PassAfter(c, entered, lines[..|lines| - 1]));
    }
  }

  // ── No cascade ─────────────────────────────────────────────────────────

  /** The findings a block's lines raise, in order. */
  function BlockFindings(c: Codec, entered: Pass, lines: seq<RecordFields>): seq<Finding> {
    if lines == [] then []
    else
      var n := |lines| - 1;
      BlockFindings(c, entered, lines[..n]) + JudgeRecord(c, lines[n], PassAfter(c, entered, lines[..n])).found
  }

  /** A line nobody touched, which this reader cannot read: its bytes hash to
      their claim, they are canonical, and their own JSON names the record's
      place. */
  ghost predicate Unreached(c: Codec, lines: seq<RecordFields>, i: nat)
    requires i < |lines|
  {
    var f := lines[i];
    Carries(f) && f.hash.value == Chain(c.hash, Head(c.hash, CarriedRaws(lines[..i])), f.raw.value) &&
    !Uncanonical(c, f.raw.value) && !c.read(f.raw.value).Readable? && c.seqOf(f.raw.value) == Some(i + 1)
  }

  ghost predicate Untouched(c: Codec, run: RunId, lines: seq<RecordFields>) {
    forall i :: 0 <= i < |lines| ==> LineHolds(c, run, lines, i) || Unreached(c, lines, i)
  }

  /** How many lines of a block this reader cannot read. */
  function UnreadLines(c: Codec, lines: seq<RecordFields>): nat {
    if lines == [] then 0
    else
      var f := lines[|lines| - 1];
      UnreadLines(c, lines[..|lines| - 1]) + (if Carries(f) && !c.read(f.raw.value).Readable? then 1 else 0)
  }

  lemma JudgeOfUnreached(c: Codec, lines: seq<RecordFields>, p: Pass)
    requires lines != [] && Unreached(c, lines, |lines| - 1)
    requires p.prev == Head(c.hash, CarriedRaws(lines[..|lines| - 1]))
    ensures var j := JudgeRecord(c, lines[|lines| - 1], p);
            |j.found| == 1 && j.pass.lastSeq == |lines| && j.pass.resealed == p.resealed
  {
    hide Head, Chain, Uncanonical, CarriedRaws;
  }

  /** In an otherwise untouched block, each record this reader cannot read is
      one finding, and no other line is blamed for it.  What closing the block
      adds is `Cascade.ClosesExactly`. */
  lemma {:induction false} NoCascade(c: Codec, entered: Pass, lines: seq<RecordFields>)
    requires entered.prev == ZERO && entered.lastSeq == 0
    requires Untouched(c, entered.run, lines)
    ensures |BlockFindings(c, entered, lines)| == UnreadLines(c, lines)
    ensures PassAfter(c, entered, lines).lastSeq == |lines| && PassAfter(c, entered, lines).run == entered.run
  {
    hide JudgeRecord, LineHolds, Unreached;
    if lines != [] {
      var n := |lines| - 1;
      UntouchedPrefix(c, entered.run, lines);
      NoCascade(c, entered, lines[..n]);
      HeadInvariant(c, entered, lines[..n]);
      var p := PassAfter(c, entered, lines[..n]);
      JudgeKeepsTheRun(c, lines[n], p);
      UntouchedReads(c, entered.run, lines);
      JudgeIsLineHolds(c, lines, p);
      if !LineHolds(c, entered.run, lines, n) {
        JudgeOfUnreached(c, lines, p);
      }
    }
  }

  lemma UntouchedPrefix(c: Codec, run: RunId, lines: seq<RecordFields>)
    requires lines != [] && Untouched(c, run, lines)
    ensures Untouched(c, run, lines[..|lines| - 1])
  {
    var n := |lines| - 1;
    forall i | 0 <= i < n ensures LineHolds(c, run, lines[..n], i) || Unreached(c, lines[..n], i) {
      assert lines[..n][..i] == lines[..i];
      assert LineHolds(c, run, lines, i) || Unreached(c, lines, i);
    }
  }

  lemma UntouchedReads(c: Codec, run: RunId, lines: seq<RecordFields>)
    requires lines != [] && Untouched(c, run, lines)
    ensures var f := lines[|lines| - 1];
            Carries(f) && (c.read(f.raw.value).Readable? <==> LineHolds(c, run, lines, |lines| - 1))
  {
    assert LineHolds(c, run, lines, |lines| - 1) || Unreached(c, lines, |lines| - 1);
  }
}
