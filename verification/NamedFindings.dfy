/** What a report's findings mean: for every file, sound or not, exactly which
    findings `verify` names, in terms of the lines. */
module NamedFindings {
  import opened Wrappers
  import opened Hashing
  import opened Merkle
  import opened Wire
  import opened VerifySpec
  import opened Blocks
  import opened SoundList
  import opened QuietFiles
  import opened Binding
  import opened SoundFile

  // ── What one line earns ────────────────────────────────────────────────

  predicate HeaderEarns(kind: HeaderKind, f: HeaderFields, x: Finding) {
    match x
    case WrongVersion => f.version != Some(FORMAT_VERSION)
    case UnreadableCheckpoint => f.checkpoint.Unreadable?
    case NoCheckpoint => f.checkpoint.Missing?
    case EmptySelection =>
      kind.DisclosurePackage? && (f.selection.Some? ==> f.selection.value == Selection([], []))
    case _ => false
  }

  predicate CaseEarns(f: CaseFields, x: Finding) {
    match x
    case MalformedCase => f.case_.None?
    case MalformedDeadlines => f.deadlines.None?
    case MalformedHold => !f.hold.Given?
    case MalformedErasure => !f.erasure.Given?
    case _ => false
  }

  /** A run line under which blocks `before` stand already. */
  predicate OpeningEarns(h: RunFields, before: seq<Block>, x: Finding) {
    h.run.Some? &&
    match x
    case HalfPlaced(run) => run == h.run.value && ClaimsPlace(h) && Placed(h).None?
    case RunTwice(run) => run == h.run.value && exists i :: 0 <= i < |before| && before[i].run == run
    case PositionTwice(at) =>
      Placed(h).Some? && Placed(h).value.0 == at &&
      exists i :: 0 <= i < |before| && Placed(before[i].header).Some? && Placed(before[i].header).value.0 == at
    case _ => false
  }

  /** The sequence number a walk over a block's lines has reached: that of the last
      line that reads, and past one that does not, the one its own JSON names. */
  function SeqAfter(c: Codec, lines: seq<RecordFields>): nat {
    if lines == [] then 0
    else
      var f, last := lines[|lines| - 1], SeqAfter(c, lines[..|lines| - 1]);
      if !Carries(f) then last
      else if !Reached(c, lines) then SeqOr(c, f.raw.value, last + 1)
      else
        match c.read(f.raw.value)
        case Readable(body) => body.seq_
        case _ => SeqOr(c, f.raw.value, last)
  }

  /** The last line's bytes are the chain's and in their one spelling. */
  predicate Reached(c: Codec, lines: seq<RecordFields>)
    requires lines != []
  {
    var f := lines[|lines| - 1];
    Carries(f) && Chained(c, lines) && !Uncanonical(c, f.raw.value)
  }

  predicate Chained(c: Codec, lines: seq<RecordFields>)
    requires lines != [] && Carries(lines[|lines| - 1])
  {
    var f := lines[|lines| - 1];
    f.hash.value == Chain(c.hash, Head(c.hash, CarriedRaws(lines[..|lines| - 1])), f.raw.value)
  }

  /** The records of a block that were reached and read, in order. */
  function ReadsBack(c: Codec, lines: seq<RecordFields>): seq<Record> {
    if lines == [] then []
    else
      ReadsBack(c, lines[..|lines| - 1]) +
      if Reached(c, lines) && c.read(lines[|lines| - 1].raw.value).Readable? then [RecordOf(c, lines)] else []
  }

  /** A record line that is the last of `lines` under the block of `run`. */
  predicate RecordEarns(c: Codec, run: RunId, lines: seq<RecordFields>, x: Finding)
    requires lines != []
  {
    var f, last := lines[|lines| - 1], SeqAfter(c, lines[..|lines| - 1]);
    if !Carries(f) then x == NoWireBytes(run)
    else
      var raw := f.raw.value;
      if !Chained(c, lines) then x == Edited(run, SeqOr(c, raw, last + 1))
      else if Uncanonical(c, raw) then x == NotCanonical(run, SeqOr(c, raw, last + 1))
      else
        match c.read(raw)
        case UnknownVersion => x == VersionSkew(run, SeqOr(c, raw, last + 1))
        case UnreadableShape => x == ShapeSkew(run)
        case NotARecord => x == MalformedRecord(run)
        case Readable(body) =>
          DisagreementEarns(c, run, f, Head(c.hash, CarriedRaws(lines[..|lines| - 1])), last, raw, body, x)
  }

  /** A line that reads, over the head `before` and the sequence `last`. */
  predicate DisagreementEarns(c: Codec, run: RunId, f: RecordFields, before: Digest, last: nat, raw: Bytes, body: Body,
                              x: Finding)
  {
    match x
    case DisplayEdited(of, at) => of == run && at == body.seq_ && f.body != Some(WireJson(c, raw))
    case CopyEdited(of, at) => of == run && at == body.seq_ && !(f.prevHash == Some(before) && f.seq_ == Some(at))
    case Relabelled(of, owner) => of == run && owner == body.run && owner != run
    case SeqGap(of, at, after) => of == run && at == body.seq_ && after == last && at != after + 1
    case ForeignHead(of) => of == run && body.kind.RunConcluded? && body.kind.chainHead != before
    case _ => false
  }

  /** A record line, given the block it stands under. */
  predicate UnderEarns(c: Codec, under: Option<Block>, f: RecordFields, x: Finding) {
    match under
    case None => x == OrphanRecord
    case Some(b) => RecordEarns(c, b.run, b.lines + [f], x)
  }

  predicate TrailerEarns(t: TrailerFields, before: nat, x: Finding) {
    x.CaseCount? && t.cases == Some(x.declared) && x.carried == before && x.declared != x.carried
  }

  /** What line `i` earns by itself. */
  predicate LineEarns(c: Codec, lines: seq<Line>, i: nat, x: Finding)
    requires i < |lines|
  {
    match lines[i]
    case HeaderLine(kind, f) => if Leads(lines, i) then HeaderEarns(kind, f, x) else x == LateHeader
    case RunLine(h) => OpeningEarns(h, BlocksOf(lines[..i]), x)
    case RecordLine(f) => UnderEarns(c, Framed(lines[..i]).current, f, x)
    case UnknownLine(f, _) => UnderEarns(c, Framed(lines[..i]).current, f, x)
    case CaseLine(f) => CaseEarns(f, x)
    case EndLine(t) => TrailerEarns(t, CaseLines(lines[..i]), x)
    case _ => false
  }

  // ── What a block and the whole file earn ───────────────────────────────

  predicate IsPackage(lines: seq<Line>) {
    Headed(lines) && Lead(lines).value.kind.DisclosurePackage?
  }

  /** A block that carries records, once it is whole. */
  predicate ClosingEarns(c: Codec, keys: Option<SignatureCheck>, package: bool, cp: Checkpoint, b: Block, x: Finding) {
    var placed, records := Placed(b.header), ReadsBack(c, b.lines);
    b.lines != [] &&
    match x
    case LeafNotHead(run) => run == b.run && placed.Some? && placed.value.1 != Head(c.hash, CarriedRaws(b.lines))
    case StrippedLeaf(run) => run == b.run && package && placed.None? && HasSealingConclusion(records)
    case PathNotProved(run) =>
      run == b.run && package && placed.Some? &&
      !LeafIsProved(c.hash, placed.value.1, Some(placed.value.0), b.header.proof, cp)
    case NotSigned(run) => run == b.run && keys.Some? && !SignedHistory(c.hash, keys.value, records)
    case _ => false
  }

  /** An outside checkpoint, held to the file's own. */
  ghost predicate AnchorEarns(h: Hash, package: bool, leaves: seq<Leaf>, cp: Checkpoint, anchor: Anchor, x: Finding) {
    var given := anchor.checkpoint;
    match x
    case OtherHistory(from) =>
      from == anchor.obtainedFrom && (given.origin != cp.origin || (!package && given.size > cp.size))
    case SecondHistory(from) =>
      from == anchor.obtainedFrom && given.origin == cp.origin && given.size == cp.size && given.root != cp.root
    case PrefixDiffers(from) =>
      from == anchor.obtainedFrom && given.origin == cp.origin && given.size < cp.size && !package &&
      !PrefixIs(h, leaves, given.size, given.root)
    case _ => false
  }

  /** The tree of a whole export. */
  predicate TreeEarns(h: Hash, leaves: seq<Leaf>, cp: Checkpoint, x: Finding) {
    match x
    case LeafCount(carried, committed) => carried == |leaves| && committed == cp.size && carried != committed
    case PositionsNotContiguous => |leaves| == cp.size && !Contiguous(leaves)
    case RootDiffers => |leaves| == cp.size && Contiguous(leaves) && Root(h, Hashes(leaves)) != cp.root
    case _ => false
  }

  /** The trailer in force, held to the lines. */
  predicate CountEarns(lines: seq<Line>, x: Finding) {
    LastTrailer(lines).Some? &&
    var t := LastTrailer(lines).value;
    if t.runsRequested.None? || t.runsExported.None? || t.records.None? then x == MissingCounts
    else
      match x
      case RunCount(declared, carried) =>
        Some(declared) == t.runsRequested && carried == RunLines(lines) && declared != carried
      case ExportedCount(declared, carried) =>
        Some(declared) == t.runsExported && carried == Filled(BlocksOf(lines)) && declared != carried
      case RecordCount(declared, carried) =>
        Some(declared) == t.records && carried == RecordLines(lines) && declared != carried
      case _ => false
  }

  /** A record that was reached and read is stamped with the case. */
  predicate Stamps(c: Codec, b: Block, id: CaseId) {
    exists j :: 0 <= j < |ReadsBack(c, b.lines)| && ReadsBack(c, b.lines)[j].body.case_ == Some(id)
  }

  /** What the lines leave out. */
  ghost predicate AbsenceEarns(c: Codec, lines: seq<Line>, x: Finding) {
    match x
    case NoHeader => !Headed(lines)
    case NoTrailer => LastTrailer(lines).None?
    case EmptyBlock(run) =>
      !DeclaredUnread(lines, run) &&
      exists i :: 0 <= i < |BlocksOf(lines)| && BlocksOf(lines)[i].lines == [] && BlocksOf(lines)[i].run == run
    case CaseMissing(id) =>
      !HasCaseLine(lines, id) && exists i :: 0 <= i < |BlocksOf(lines)| && Stamps(c, BlocksOf(lines)[i], id)
    case SelectedCaseMissing(id) =>
      !HasCaseLine(lines, id) && IsPackage(lines) && Lead(lines).value.header.selection.Some? &&
      id in Lead(lines).value.header.selection.value.cases
    case _ => false
  }

  ghost predicate SomeLineEarns(c: Codec, lines: seq<Line>, x: Finding) {
    exists i: nat :: i < |lines| && LineEarns(c, lines, i, x)
  }

  ghost predicate SomeBlockEarns(c: Codec, keys: Option<SignatureCheck>, lines: seq<Line>, x: Finding) {
    exists b :: b in BlocksOf(lines) && ClosingEarns(c, keys, IsPackage(lines), CheckpointIn(lines), b, x)
  }

  /** What a file without a break earns: some line, some block, some outside
      checkpoint or the file as a whole. */
  ghost predicate Earns(c: Codec, keys: Option<SignatureCheck>, anchors: seq<Anchor>, lines: seq<Line>, x: Finding) {
    var leaves, cp, package := FileLeaves(c.hash, BlocksOf(lines)), CheckpointIn(lines), IsPackage(lines);
    SomeLineEarns(c, lines, x) || SomeBlockEarns(c, keys, lines, x) ||
    (exists i :: 0 <= i < |anchors| && Headed(lines) && AnchorEarns(c.hash, package, leaves, cp, anchors[i], x)) ||
    (!package && TreeEarns(c.hash, leaves, cp, x)) ||
    CountEarns(lines, x) || AbsenceEarns(c, lines, x)
  }

  /** The lines before the first that is not JSON. */
  function HeardOf(lines: seq<Line>): (heard: seq<Line>)
    ensures heard <= lines
  {
    if lines == [] then []
    else
      var n := |lines| - 1;
      var before := HeardOf(lines[..n]);
      if before != lines[..n] || lines[n].NotJson? then before else lines
  }

  // ── Membership ─────────────────────────────────────────────────────────

  lemma WhenHolds(b: bool, f: Finding, x: Finding)
    ensures x in When(b, f) <==> b && x == f
  {
  }

  // ── One block ──────────────────────────────────────────────────────────

  /** What the walk over a block's lines carries, in terms of the lines. */
  lemma {:induction false} WalkReads(c: Codec, entered: Pass, lines: seq<RecordFields>)
    requires entered.prev == ZERO && entered.lastSeq == 0 && entered.resealed == []
    ensures var p := PassAfter(c, entered, lines);
            p.run == entered.run && p.prev == Head(c.hash, CarriedRaws(lines)) && p.lastSeq == SeqAfter(c, lines) &&
            p.resealed == ReadsBack(c, lines)
  {
    hide JudgeRecord, Head, CarriedRaws, Chain, Uncanonical, RecordOf;
    HeadInvariant(c, entered, lines);
    if lines != [] {
      WalkReads(c, entered, lines[..|lines| - 1]);
      JudgeReads(c, PassAfter(c, entered, lines[..|lines| - 1]), lines);
    }
  }

  lemma {:induction false} JudgeReads(c: Codec, p: Pass, lines: seq<RecordFields>)
    requires lines != []
    requires p.prev == Head(c.hash, CarriedRaws(lines[..|lines| - 1])) && p.lastSeq == SeqAfter(c, lines[..|lines| - 1])
    requires p.resealed == ReadsBack(c, lines[..|lines| - 1])
    ensures var j := JudgeRecord(c, lines[|lines| - 1], p).pass;
            j.run == p.run && j.lastSeq == SeqAfter(c, lines) && j.resealed == ReadsBack(c, lines)
  {
    hide Disagreements, Head, CarriedRaws, Chain, Uncanonical;
  }

  /** What one line under a block is blamed for. */
  lemma {:induction false} JudgeEarns(c: Codec, p: Pass, lines: seq<RecordFields>, x: Finding)
    requires lines != []
    requires p.prev == Head(c.hash, CarriedRaws(lines[..|lines| - 1])) && p.lastSeq == SeqAfter(c, lines[..|lines| - 1])
    ensures x in JudgeRecord(c, lines[|lines| - 1], p).found <==> RecordEarns(c, p.run, lines, x)
  {
    hide Disagreements, Head, CarriedRaws, Chain, Uncanonical, SeqAfter, SeqOr, DisagreementEarns;
    var f := lines[|lines| - 1];
    if Carries(f) && c.read(f.raw.value).Readable? {
      DisagreementsMean(c, f, p.(records := p.records + 1), f.raw.value, c.read(f.raw.value).body, x);
    }
  }

  lemma AnyOfFive(a: seq<Finding>, b: seq<Finding>, d: seq<Finding>, e: seq<Finding>, g: seq<Finding>, x: Finding)
    ensures x in a + b + d + e + g <==> x in a || x in b || x in d || x in e || x in g
  {
  }

  lemma {:induction false} DisagreementsAre(c: Codec, f: RecordFields, p: Pass, raw: Bytes, body: Body, x: Finding)
    ensures var copies, place := f.prevHash != Some(p.prev) || f.seq_ != Some(body.seq_), body.seq_ != p.lastSeq + 1;
            var head := body.kind.RunConcluded? && body.kind.chainHead != p.prev;
            x in Disagreements(c, f, p, raw, body) <==>
            x in When(f.body != Some(WireJson(c, raw)), DisplayEdited(p.run, body.seq_)) ||
            x in When(copies, CopyEdited(p.run, body.seq_)) ||
            x in When(body.run != p.run, Relabelled(p.run, body.run)) ||
            x in When(place, SeqGap(p.run, body.seq_, p.lastSeq)) || x in When(head, ForeignHead(p.run))
  {
    hide WireJson, When;
    AnyOfFive(When(f.body != Some(WireJson(c, raw)), DisplayEdited(p.run, body.seq_)),
              When(f.prevHash != Some(p.prev) || f.seq_ != Some(body.seq_), CopyEdited(p.run, body.seq_)),
              When(body.run != p.run, Relabelled(p.run, body.run)),
              When(body.seq_ != p.lastSeq + 1, SeqGap(p.run, body.seq_, p.lastSeq)),
              When(body.kind.RunConcluded? && body.kind.chainHead != p.prev, ForeignHead(p.run)), x);
  }

  lemma {:induction false} DisagreementsMean(c: Codec, f: RecordFields, p: Pass, raw: Bytes, body: Body, x: Finding)
    ensures x in Disagreements(c, f, p, raw, body) <==> DisagreementEarns(c, p.run, f, p.prev, p.lastSeq, raw, body, x)
  {
    hide WireJson, Disagreements;
    DisagreementsAre(c, f, p, raw, body, x);
  }

  predicate PassEarns(c: Codec, keys: Option<SignatureCheck>, package: bool, cp: Checkpoint, p: Pass, x: Finding) {
    (x == LeafNotHead(p.run) && p.declaredSeal.Some? && p.declaredSeal.value != p.prev) ||
    (x == StrippedLeaf(p.run) && package && !p.sealed && HasSealingConclusion(p.resealed)) ||
    (x == PathNotProved(p.run) && package && p.declaredSeal.Some? &&
     !LeafIsProved(c.hash, p.declaredSeal.value, p.index, p.proof, cp)) ||
    (x == NotSigned(p.run) && keys.Some? && !SignedHistory(c.hash, keys.value, p.resealed))
  }

  lemma {:induction false} ClosingParts(c: Codec, keys: Option<SignatureCheck>, package: bool, cp: Checkpoint, p: Pass,
                                        x: Finding)
    ensures x in ClosingFindings(c, keys, package, cp, p) <==> PassEarns(c, keys, package, cp, p, x)
  {
    hide SignedHistory, LeafIsProved, HasSealingConclusion, When;
    WhenHolds(p.declaredSeal.Some? && p.declaredSeal.value != p.prev, LeafNotHead(p.run), x);
    WhenHolds(package && !p.sealed && HasSealingConclusion(p.resealed), StrippedLeaf(p.run), x);
    WhenHolds(package && p.declaredSeal.Some? && !LeafIsProved(c.hash, p.declaredSeal.value, p.index, p.proof, cp),
              PathNotProved(p.run), x);
    WhenHolds(keys.Some? && !SignedHistory(c.hash, keys.value, p.resealed), NotSigned(p.run), x);
  }

  /** What closing a block finds. */
  lemma {:induction false} ClosingMeans(c: Codec, keys: Option<SignatureCheck>, package: bool, cp: Checkpoint, b: Block,
                                        p: Pass, x: Finding)
    requires p == ReadBlock(c, b).(clean := p.clean)
    ensures p.records > 0 && x in ClosingFindings(c, keys, package, cp, p) <==> ClosingEarns(c, keys, package, cp, b, x)
  {
    hide PassAfter, SignedHistory, LeafIsProved, HasSealingConclusion, Head, CarriedRaws, Recomputes, Recomputed,
         ReadsBack, SeqAfter, ClosingFindings;
    BlockReads(c, b);
    WalkReads(c, OpenPass(b.header, b.run), b.lines);
    ClosingParts(c, keys, package, cp, p, x);
  }

  // ── One line of the scan ───────────────────────────────────────────────

  ghost predicate ClosingFinds(c: Codec, keys: Option<SignatureCheck>, s: Scan, x: Finding) {
    s.pass.Some? && s.pass.value.records > 0 &&
    x in ClosingFindings(c, keys, s.report.selection.Some?, s.report.checkpoint, s.pass.value)
  }

  predicate OpeningFinds(s: Scan, h: RunFields, x: Finding) {
    h.run.Some? &&
    match x
    case HalfPlaced(run) => run == h.run.value && ClaimsPlace(h) && Placed(h).None?
    case RunTwice(run) => run == h.run.value && run in s.blocksOf
    case PositionTwice(at) => Placed(h).Some? && Placed(h).value.0 == at && at in s.positions
    case _ => false
  }

  predicate RecordFinds(c: Codec, s: Scan, f: RecordFields, x: Finding) {
    if s.pass.Some? then x in JudgeRecord(c, f, s.pass.value).found else x == OrphanRecord
  }

  /** What one line adds to a scan that has not halted. */
  ghost predicate Finds(c: Codec, keys: Option<SignatureCheck>, s: Scan, line: Line, x: Finding) {
    match line
    case Blank => false
    case NotJson => x == NotJsonLine
    case HeaderLine(kind, f) => if s.first then HeaderEarns(kind, f, x) else x == LateHeader
    case RunLine(h) => ClosingFinds(c, keys, s, x) || OpeningFinds(s, h, x)
    case RecordLine(f) => RecordFinds(c, s, f, x)
    case UnknownLine(f, _) => RecordFinds(c, s, f, x)
    case CaseLine(f) => CaseEarns(f, x)
    case EndLine(t) => TrailerEarns(t, s.report.cases, x)
  }

  lemma HeaderFinds(r: Report, kind: HeaderKind, f: HeaderFields, x: Finding)
    requires f.canon == Some(CANON_VERSION)
    ensures x in HeaderReport(r, kind, f).findings <==> x in r.findings || HeaderEarns(kind, f, x)
  {
    hide When;
    HeaderHolds(r, kind, f, x);
    WhenHolds(!(f.selection.Some? && !(f.selection.value.cases == [] && f.selection.value.runs == [])),
              EmptySelection, x);
  }

  lemma HeaderHolds(r: Report, kind: HeaderKind, f: HeaderFields, x: Finding)
    ensures x in When(f.version != Some(FORMAT_VERSION), WrongVersion) +
                 When(f.checkpoint.Unreadable?, UnreadableCheckpoint) + When(f.checkpoint.Missing?, NoCheckpoint) <==>
            HeaderEarns(kind, f, x) && x != EmptySelection
  {
    hide When;
    WhenHolds(f.version != Some(FORMAT_VERSION), WrongVersion, x);
    WhenHolds(f.checkpoint.Unreadable?, UnreadableCheckpoint, x);
    WhenHolds(f.checkpoint.Missing?, NoCheckpoint, x);
  }

  lemma CaseFinds(r: Report, f: CaseFields, x: Finding)
    ensures x in CaseReport(r, f).findings <==> x in r.findings || CaseEarns(f, x)
  {
    hide When, CaseEarns;
    CaseHolds(f, x);
  }

  lemma CaseHolds(f: CaseFields, x: Finding)
    ensures x in When(f.case_.None?, MalformedCase) + When(f.deadlines.None?, MalformedDeadlines) +
                 When(!f.hold.Given?, MalformedHold) + When(!f.erasure.Given?, MalformedErasure) <==>
            CaseEarns(f, x)
  {
    hide When;
    WhenHolds(f.case_.None?, MalformedCase, x);
    WhenHolds(f.deadlines.None?, MalformedDeadlines, x);
    WhenHolds(!f.hold.Given?, MalformedHold, x);
    WhenHolds(!f.erasure.Given?, MalformedErasure, x);
  }

  lemma FinishAdds(c: Codec, keys: Option<SignatureCheck>, s: Scan)
    ensures FinishRun(c, keys, s).report.findings ==
            s.report.findings +
            if s.pass.Some? && s.pass.value.records > 0 then
              ClosingFindings(c, keys, s.report.selection.Some?, s.report.checkpoint, s.pass.value)
            else []
  {
    hide ClosingFindings;
  }

  lemma FinishFinds(c: Codec, keys: Option<SignatureCheck>, s: Scan, x: Finding)
    ensures x in FinishRun(c, keys, s).report.findings <==> x in s.report.findings || ClosingFinds(c, keys, s, x)
  {
    hide ClosingFindings, FinishRun;
    FinishAdds(c, keys, s);
  }

  lemma OpenAdds(c: Codec, s: Scan, h: RunFields)
    ensures var t := OpenRunBlock(c, s, h);
            t.report.findings ==
            s.report.findings +
            (if h.run.Some? then When(ClaimsPlace(h) && Placed(h).None?, HalfPlaced(h.run.value)) else []) &&
            (h.run.Some? ==> t.pass == Some(OpenPass(h, h.run.value))) && (h.run.None? ==> t.pass.None?) &&
            t.blocksOf == s.blocksOf && t.positions == s.positions
  {
    hide When, OpenPass;
  }

  lemma ClaimAdds(s: Scan)
    ensures ClaimOnce(s).report.findings ==
            s.report.findings +
            if s.pass.None? then []
            else
              var p := s.pass.value;
              When(p.run in s.blocksOf, RunTwice(p.run)) +
              When(p.sealed && p.index.Some? && p.index.value in s.positions,
                   PositionTwice(if p.index.Some? then p.index.value else 0))
  {
    hide When, Without;
  }

  lemma OpenFinds(c: Codec, s: Scan, h: RunFields, x: Finding)
    ensures x in ClaimOnce(OpenRunBlock(c, s, h)).report.findings <==> x in s.report.findings || OpeningFinds(s, h, x)
  {
    hide ClaimOnce, OpenRunBlock, When;
    OpenAdds(c, s, h);
    var t := OpenRunBlock(c, s, h);
    ClaimAdds(t);
    if h.run.Some? {
      var p := OpenPass(h, h.run.value);
      WhenHolds(ClaimsPlace(h) && Placed(h).None?, HalfPlaced(h.run.value), x);
      WhenHolds(p.run in t.blocksOf, RunTwice(p.run), x);
      WhenHolds(p.sealed && p.index.Some? && p.index.value in t.positions,
                PositionTwice(if p.index.Some? then p.index.value else 0), x);
    }
  }

  lemma {:induction false} StepFinds(c: Codec, keys: Option<SignatureCheck>, s: Scan, line: Line, x: Finding)
    requires !s.halted && !Step(c, keys, s, line).report.unverifiable
    ensures x in Step(c, keys, s, line).report.findings <==> x in s.report.findings || Finds(c, keys, s, line, x)
  {
    hide ReadRun, ReadRecord, HeaderReport, CaseReport, HeaderEarns, CaseEarns, ClosingFindings,
         JudgeRecord;
    var u := s.(first := false);
    match line {
      case HeaderLine(kind, f) =>
        if s.first {
          HeaderRule(s.report, kind, f);
          HeaderFinds(s.report, kind, f, x);
        }
      case RunLine(h) => RunFinds(c, keys, u, h, x);
      case RecordLine(f) => ReadRecordFinds(c, u, f, x);
      case UnknownLine(f, _) => ReadRecordFinds(c, u, f, x);
      case CaseLine(f) => CaseFinds(s.report, f, x);
      case _ =>
    }
  }

  lemma HeaderRule(r: Report, kind: HeaderKind, f: HeaderFields)
    ensures HeaderReport(r, kind, f).unverifiable <==> f.canon != Some(CANON_VERSION)
  {
    hide When;
  }

  lemma {:induction false} RunFinds(c: Codec, keys: Option<SignatureCheck>, s: Scan, h: RunFields, x: Finding)
    ensures x in ReadRun(c, keys, s, h).report.findings <==>
            x in s.report.findings || ClosingFinds(c, keys, s, x) || OpeningFinds(s, h, x)
  {
    hide FinishRun, OpenRunBlock, ClaimOnce, ClosingFindings;
    var counted := s.(runBlocks := s.runBlocks + 1);
    FinishFinds(c, keys, counted, x);
    FinishedHasNoPass(c, keys, counted);
    FinishKeepsClaims(c, keys, counted);
    OpenFinds(c, FinishRun(c, keys, counted), h, x);
  }

  lemma FinishKeepsClaims(c: Codec, keys: Option<SignatureCheck>, s: Scan)
    ensures var t := FinishRun(c, keys, s); t.blocksOf == s.blocksOf && t.positions == s.positions
  {
    hide ClosingFindings;
  }

  lemma ReadRecordFinds(c: Codec, s: Scan, f: RecordFields, x: Finding)
    ensures x in ReadRecord(c, s, f).report.findings <==> x in s.report.findings || RecordFinds(c, s, f, x)
  {
    hide JudgeRecord;
  }

  // ── What a scan knows ──────────────────────────────────────────────────

  predicate AllJson(lines: seq<Line>) {
    forall i :: 0 <= i < |lines| ==> !lines[i].NotJson?
  }

  predicate PackageKind(line: Option<Line>) {
    line.Some? && line.value.HeaderLine? && line.value.kind.DisclosurePackage?
  }

  /** What a scan that can answer has counted and taken up. */
  ghost predicate Knows(s: Scan, lines: seq<Line>) {
    !s.report.unverifiable && AllJson(lines) ==>
      !s.halted && s.runBlocks == RunLines(lines) && s.report.records == RecordLines(lines) &&
      s.report.cases == CaseLines(lines) && (s.report.complete <==> LastTrailer(lines).Some?) &&
      (LastTrailer(lines).Some? ==>
         var t := LastTrailer(lines).value;
         s.claims.runsRequested == t.runsRequested && s.claims.runsExported == t.runsExported &&
         s.claims.records == t.records) &&
      (s.first <==> Lead(lines).None?) && (s.first ==> s.report == EmptyReport) && (s.headerSeen <==> Headed(lines)) &&
      s.report.checkpoint == CheckpointIn(lines) && (s.report.selection.Some? <==> IsPackage(lines)) &&
      (IsPackage(lines) ==> SelectionRead(Lead(lines).value.header, s.report.selection.value))
  }

  /** The selection a package is held to names the cases its header names. */
  predicate SelectionRead(f: HeaderFields, sel: Selection) {
    sel == if f.selection.Some? then f.selection.value else Selection([], [])
  }

  lemma {:induction false} StepKnows(c: Codec, keys: Option<SignatureCheck>, s: Scan, lines: seq<Line>, line: Line)
    requires Knows(s, lines) && (s.report.unverifiable ==> s.halted)
    ensures Knows(Step(c, keys, s, line), lines + [line])
  {
    hide ReadRun, ReadRecord, When, HeaderReport;
    var grown := lines + [line];
    assert grown[..|lines|] == lines && grown[|lines|] == line;
    UnverifiableHalts(c, keys, s, line);
    var u := s.(first := false);
    if AllJson(grown) {
      assert AllJson(lines) by {
        assert forall i :: 0 <= i < |lines| ==> grown[i] == lines[i];
      }
      assert !grown[|lines|].NotJson?;
      match line {
        case RunLine(h) => RunKeepsTheRules(c, keys, u, h);
        case RecordLine(f) => RecordKeepsTheRules(c, u, f);
        case UnknownLine(f, _) => RecordKeepsTheRules(c, u, f);
        case HeaderLine(kind, f) =>
          if s.first && !s.report.unverifiable {
            HeaderKnows(s.report, kind, f);
          }
        case _ =>
      }
    }
  }

  lemma HeaderKnows(r: Report, kind: HeaderKind, f: HeaderFields)
    requires r == EmptyReport
    ensures var t := HeaderReport(r, kind, f);
            (t.unverifiable <==> f.canon != Some(CANON_VERSION)) && t.records == 0 && t.cases == 0 && !t.complete &&
            t.checkpoint == (if f.checkpoint.Given? then f.checkpoint.value else Checkpoint("", 0, ZERO)) &&
            (!t.unverifiable ==> (t.selection.Some? <==> kind.DisclosurePackage?)) &&
            (t.selection.Some? ==> SelectionRead(f, t.selection.value))
  {
    hide When;
  }

  lemma {:induction false} ScanKnows(c: Codec, keys: Option<SignatureCheck>, lines: seq<Line>)
    ensures var s := Scanned(c, keys, Start, lines); Knows(s, lines) && (s.report.unverifiable ==> s.halted)
  {
    hide Step;
    if lines != [] {
      var n := |lines| - 1;
      ScanKnows(c, keys, lines[..n]);
      hide Knows;
      StepKnows(c, keys, Scanned(c, keys, Start, lines[..n]), lines[..n], lines[n]);
      UnverifiableHalts(c, keys, Scanned(c, keys, Start, lines[..n]), lines[n]);
      assert lines[..n] + [lines[n]] == lines;
    }
  }

  // ── The scan, line by line ─────────────────────────────────────────────

  /** Line `i`, read where the scan stands, adds `x`. */
  ghost predicate FindsAt(c: Codec, keys: Option<SignatureCheck>, lines: seq<Line>, i: nat, x: Finding)
    requires i < |lines|
  {
    Finds(c, keys, Scanned(c, keys, Start, lines[..i]), lines[i], x)
  }

  ghost predicate Answerable(c: Codec, keys: Option<SignatureCheck>, lines: seq<Line>) {
    AllJson(lines) && !Scanned(c, keys, Start, lines).report.unverifiable
  }

  lemma {:induction false} AnswerableBefore(c: Codec, keys: Option<SignatureCheck>, lines: seq<Line>, i: nat)
    requires Answerable(c, keys, lines) && i <= |lines|
    ensures Answerable(c, keys, lines[..i])
    decreases |lines|
  {
    hide Step;
    if i < |lines| {
      var n := |lines| - 1;
      ScannedTracks(c, keys, lines[..n]);
      UnverifiableHalts(c, keys, Scanned(c, keys, Start, lines[..n]), lines[n]);
      assert forall j :: 0 <= j < n ==> lines[..n][j] == lines[j];
      AnswerableBefore(c, keys, lines[..n], i);
      assert lines[..n][..i] == lines[..i];
    } else {
      assert lines[..i] == lines;
    }
  }

  /** Everything a scan has found, some line of it added. */
  lemma {:induction false} FoundWhere(c: Codec, keys: Option<SignatureCheck>, lines: seq<Line>, x: Finding)
    requires Answerable(c, keys, lines)
    ensures x in Scanned(c, keys, Start, lines).report.findings <==>
            exists i: nat :: i < |lines| && FindsAt(c, keys, lines, i, x)
  {
    hide Step, Finds, Answerable, Knows;
    if lines != [] {
      var n := |lines| - 1;
      var s := Scanned(c, keys, Start, lines[..n]);
      AnswerableBefore(c, keys, lines, n);
      FoundWhere(c, keys, lines[..n], x);
      GoesOn(c, keys, lines);
      StepFinds(c, keys, s, lines[n], x);
      forall i: nat | i < n ensures FindsAt(c, keys, lines[..n], i, x) == FindsAt(c, keys, lines, i, x) {
        assert lines[..n][..i] == lines[..i];
      }
      if x in s.report.findings {
        var i: nat :| i < n && FindsAt(c, keys, lines[..n], i, x);
        assert FindsAt(c, keys, lines, i, x);
      }
      if Finds(c, keys, s, lines[n], x) {
        assert FindsAt(c, keys, lines, n, x);
      }
    }
  }

  lemma GoesOn(c: Codec, keys: Option<SignatureCheck>, lines: seq<Line>)
    requires Answerable(c, keys, lines) && lines != []
    ensures var s := Scanned(c, keys, Start, lines[..|lines| - 1]);
            !s.halted && !s.report.unverifiable && !Step(c, keys, s, lines[|lines| - 1]).report.unverifiable
  {
    hide Step, Lead;
    AnswerableBefore(c, keys, lines, |lines| - 1);
    ScanKnows(c, keys, lines[..|lines| - 1]);
  }

  lemma {:induction false} LeadStays(lines: seq<Line>, i: nat)
    requires i <= |lines| && Lead(lines[..i]).Some?
    ensures Lead(lines) == Lead(lines[..i])
    decreases |lines|
  {
    if i < |lines| {
      assert lines[..|lines| - 1][..i] == lines[..i];
      LeadStays(lines[..|lines| - 1], i);
    } else {
      assert lines[..i] == lines;
    }
  }

  /** The open pass of a scan is the walk over the lines of the current block. */
  lemma {:induction false} OpenPassReads(c: Codec, keys: Option<SignatureCheck>, lines: seq<Line>)
    requires Answerable(c, keys, lines)
    ensures var s, f := Scanned(c, keys, Start, lines), Framed(lines);
            (s.pass.Some? <==> f.current.Some?) && s.blocksOf == RunsIn(BlocksOf(lines)) &&
            s.positions == PlacesIn(BlocksOf(lines)) &&
            (s.pass.Some? ==>
               s.pass.value == ReadBlock(c, f.current.value).(clean := s.pass.value.clean) &&
               s.pass.value.run == f.current.value.run && s.pass.value.resealed == ReadsBack(c, f.current.value.lines) &&
               s.pass.value.prev == Head(c.hash, CarriedRaws(f.current.value.lines)) &&
               s.pass.value.lastSeq == SeqAfter(c, f.current.value.lines))
  {
    hide Scanned, Framed, ListsExactly, PassAfter, RunsIn, PlacesIn, LeavesOf, Head, CarriedRaws, SeqAfter, ReadsBack,
         Fresh;
    ScannedTracks(c, keys, lines);
    var s, f := Scanned(c, keys, Start, lines), Framed(lines);
    if s.pass.Some? {
      var b, n := f.current.value, |f.done|;
      assert All(f)[n] == b && Passes(s)[n] == s.pass.value;
      WalkReads(c, OpenPass(b.header, b.run), b.lines);
    }
  }

  lemma OpeningIsKnown(s: Scan, h: RunFields, before: seq<Block>, x: Finding)
    requires s.blocksOf == RunsIn(before) && s.positions == PlacesIn(before)
    ensures OpeningFinds(s, h, x) <==> OpeningEarns(h, before, x)
  {
    hide Placed, ClaimsPlace;
    forall i | 0 <= i < |before|
      ensures before[i].run in s.blocksOf
      ensures Placed(before[i].header).Some? ==> Placed(before[i].header).value.0 in s.positions
    {
      assert before[i] in before;
    }
    if x.RunTwice? && x.run in s.blocksOf {
      var b :| b in before && b.run == x.run;
    }
    if x.PositionTwice? && x.index in s.positions {
      var b :| b in before && Placed(b.header).Some? && Placed(b.header).value.0 == x.index;
    }
  }

  lemma StandsAt(c: Codec, keys: Option<SignatureCheck>, lines: seq<Line>, i: nat)
    requires Answerable(c, keys, lines) && i < |lines|
    ensures var s := Scanned(c, keys, Start, lines[..i]);
            !lines[i].NotJson? && s.report.cases == CaseLines(lines[..i]) &&
            (lines[i].Blank? || (s.first <==> Leads(lines, i)))
  {
    hide Scanned, RunLines, RecordLines, LastTrailer, Lead, CaseLines, SelectionRead;
    AnswerableBefore(c, keys, lines, i);
    ScanKnows(c, keys, lines[..i]);
    LeadIsFirst(lines[..i]);
    assert forall j :: 0 <= j < i ==> lines[..i][j] == lines[j];
  }

  lemma OpeningAt(c: Codec, keys: Option<SignatureCheck>, lines: seq<Line>, i: nat, h: RunFields, x: Finding)
    requires Answerable(c, keys, lines) && i <= |lines|
    ensures OpeningFinds(Scanned(c, keys, Start, lines[..i]), h, x) <==> OpeningEarns(h, BlocksOf(lines[..i]), x)
  {
    hide Scanned, RunsIn, PlacesIn, OpeningFinds, OpeningEarns, BlocksOf, Answerable, ReadBlock;
    AnswerableBefore(c, keys, lines, i);
    OpenPassReads(c, keys, lines[..i]);
    OpeningIsKnown(Scanned(c, keys, Start, lines[..i]), h, BlocksOf(lines[..i]), x);
  }

  lemma RecordAt(c: Codec, keys: Option<SignatureCheck>, lines: seq<Line>, i: nat, f: RecordFields, x: Finding)
    requires Answerable(c, keys, lines) && i <= |lines|
    ensures RecordFinds(c, Scanned(c, keys, Start, lines[..i]), f, x) <==>
            UnderEarns(c, Framed(lines[..i]).current, f, x)
  {
    hide Scanned, Framed, RecordFinds, UnderEarns, BlocksOf, Answerable, ReadBlock, Head, CarriedRaws, SeqAfter;
    AnswerableBefore(c, keys, lines, i);
    OpenPassReads(c, keys, lines[..i]);
    UnderFinds(c, Scanned(c, keys, Start, lines[..i]), Framed(lines[..i]).current, f, x);
  }

  /** What a line adds is what it earns, and what closing the block before it
      finds. */
  lemma {:induction false} LineFinds(c: Codec, keys: Option<SignatureCheck>, lines: seq<Line>, i: nat, x: Finding)
    requires Answerable(c, keys, lines) && i < |lines|
    ensures FindsAt(c, keys, lines, i, x) <==>
            LineEarns(c, lines, i, x) ||
            (lines[i].RunLine? && ClosingFinds(c, keys, Scanned(c, keys, Start, lines[..i]), x))
  {
    hide Scanned, Framed, ClosingFinds, RecordFinds, UnderEarns, OpeningFinds, OpeningEarns, HeaderEarns, CaseEarns,
         TrailerEarns, CaseLines, BlocksOf, Answerable, Leads;
    StandsAt(c, keys, lines, i);
    match lines[i] {
      case RunLine(h) => OpeningAt(c, keys, lines, i, h, x);
      case RecordLine(f) => RecordAt(c, keys, lines, i, f, x);
      case UnknownLine(f, _) => RecordAt(c, keys, lines, i, f, x);
      case _ =>
    }
  }

  lemma UnderFinds(c: Codec, s: Scan, under: Option<Block>, f: RecordFields, x: Finding)
    requires s.pass.Some? <==> under.Some?
    requires under.Some? ==>
               s.pass.value.run == under.value.run && s.pass.value.lastSeq == SeqAfter(c, under.value.lines) &&
               s.pass.value.prev == Head(c.hash, CarriedRaws(under.value.lines))
    ensures RecordFinds(c, s, f, x) <==> UnderEarns(c, under, f, x)
  {
    hide JudgeRecord, RecordEarns, Head, CarriedRaws, SeqAfter;
    if s.pass.Some? {
      var grown := under.value.lines + [f];
      assert grown[..|grown| - 1] == under.value.lines && grown[|grown| - 1] == f;
      JudgeEarns(c, s.pass.value, grown, x);
    }
  }

  // ── Blocks, closed ─────────────────────────────────────────────────────

  /** `b` is a block the scan closes at a run line. */
  predicate ClosedAt(lines: seq<Line>, i: nat, b: Block) {
    i < |lines| && lines[i].RunLine? && Framed(lines[..i]).current == Some(b)
  }

  lemma {:induction false} ClosedSomewhere(lines: seq<Line>, b: Block)
    requires AllJson(lines)
    ensures !Framed(lines).halted
    ensures b in Framed(lines).done <==> exists i: nat :: ClosedAt(lines, i, b)
  {
    if lines != [] {
      var n := |lines| - 1;
      assert forall j :: 0 <= j < n ==> lines[..n][j] == lines[j];
      ClosedSomewhere(lines[..n], b);
      assert !lines[n].NotJson?;
      forall i: nat | i < n ensures ClosedAt(lines, i, b) == ClosedAt(lines[..n], i, b) {
        assert lines[..n][..i] == lines[..i];
      }
      DoneGrows(Framed(lines[..n]), lines[n], b);
      if b in Framed(lines).done {
        if b in Framed(lines[..n]).done {
          var i: nat :| ClosedAt(lines[..n], i, b);
          assert ClosedAt(lines, i, b);
        } else {
          assert ClosedAt(lines, n, b);
        }
      }
      if i: nat :| ClosedAt(lines, i, b) {
        assert i < n ==> ClosedAt(lines[..n], i, b);
      }
    }
  }

  lemma DoneGrows(f: Frame, line: Line, b: Block)
    requires !f.halted && !line.NotJson?
    ensures !FrameStep(f, line).halted
    ensures b in FrameStep(f, line).done <==> b in f.done || (line.RunLine? && f.current == Some(b))
  {
  }

  /** Closing the open block finds what the block earns. */
  lemma {:induction false} ClosingIsEarned(c: Codec, keys: Option<SignatureCheck>, lines: seq<Line>, i: nat, x: Finding)
    requires Answerable(c, keys, lines) && i <= |lines|
    ensures var f := Framed(lines[..i]);
            ClosingFinds(c, keys, Scanned(c, keys, Start, lines[..i]), x) <==>
            f.current.Some? && ClosingEarns(c, keys, IsPackage(lines), CheckpointIn(lines), f.current.value, x)
  {
    hide Scanned, Framed, ClosingEarns, ClosingFindings, ReadBlock, Head, CarriedRaws, SeqAfter, ReadsBack, RunsIn,
         PlacesIn, BlocksOf, CaseLines, RunLines, RecordLines, LastTrailer, Lead, SelectionRead;
    var s := Scanned(c, keys, Start, lines[..i]);
    AnswerableBefore(c, keys, lines, i);
    ScanKnows(c, keys, lines[..i]);
    OpenPassReads(c, keys, lines[..i]);
    if s.pass.Some? {
      FirstIsClear(c, keys, lines[..i]);
      LeadStays(lines, i);
      ClosingMeans(c, keys, IsPackage(lines), CheckpointIn(lines), Framed(lines[..i]).current.value, s.pass.value, x);
    }
  }

  /** The whole pass before the settlement. */
  lemma {:induction false} PassFinds(c: Codec, keys: Option<SignatureCheck>, lines: seq<Line>, x: Finding)
    requires Answerable(c, keys, lines)
    ensures var s := Scanned(c, keys, Start, lines);
            x in s.report.findings || ClosingFinds(c, keys, s, x) <==>
            SomeLineEarns(c, lines, x) || SomeBlockEarns(c, keys, lines, x)
  {
    hide Scanned, LineEarns, ClosingEarns, ClosingFinds, FindsAt, Answerable, CheckpointIn, IsPackage, Framed;
    var s := Scanned(c, keys, Start, lines);
    var package, cp := IsPackage(lines), CheckpointIn(lines);
    FoundWhere(c, keys, lines, x);
    assert lines[..|lines|] == lines;
    ClosingIsEarned(c, keys, lines, |lines|, x);
    if i: nat :| i < |lines| && FindsAt(c, keys, lines, i, x) {
      LineFinds(c, keys, lines, i, x);
      if !LineEarns(c, lines, i, x) {
        ClosingIsEarned(c, keys, lines, i, x);
        var b := Framed(lines[..i]).current.value;
        AnswerableIsJson(c, keys, lines);
        ClosedSomewhere(lines, b);
        assert ClosedAt(lines, i, b);
        assert b in BlocksOf(lines);
      }
    }
    if i: nat :| i < |lines| && LineEarns(c, lines, i, x) {
      LineFinds(c, keys, lines, i, x);
    }
    if b :| b in BlocksOf(lines) && ClosingEarns(c, keys, package, cp, b, x) {
      AnswerableIsJson(c, keys, lines);
      ClosedSomewhere(lines, b);
      if b in Framed(lines).done {
        var i: nat :| ClosedAt(lines, i, b);
        ClosingIsEarned(c, keys, lines, i, x);
        LineFinds(c, keys, lines, i, x);
      }
    }
  }

  lemma AnswerableIsJson(c: Codec, keys: Option<SignatureCheck>, lines: seq<Line>)
    requires Answerable(c, keys, lines)
    ensures AllJson(lines)
  {
  }

  // ── The settlement ─────────────────────────────────────────────────────

  lemma ComparedEarns(h: Hash, leaves: seq<Leaf>, cp: Checkpoint, anchor: Anchor, x: Finding)
    ensures x in CompareAnchor(h, cp, anchor, leaves) <==> AnchorEarns(h, false, leaves, cp, anchor, x)
    ensures x in ComparePackageAnchor(cp, anchor) <==> AnchorEarns(h, true, leaves, cp, anchor, x)
  {
    hide Root, Hashes, Contiguous;
  }

  lemma {:induction false} AnchorsEarn(h: Hash, leaves: seq<Leaf>, cp: Checkpoint, anchors: seq<Anchor>, x: Finding)
    ensures x in CompareAnchors(h, cp, anchors, leaves) <==>
            exists i :: 0 <= i < |anchors| && AnchorEarns(h, false, leaves, cp, anchors[i], x)
    ensures x in ComparePackageAnchors(cp, anchors) <==>
            exists i :: 0 <= i < |anchors| && AnchorEarns(h, true, leaves, cp, anchors[i], x)
  {
    hide AnchorEarns, CompareAnchor, ComparePackageAnchor;
    if anchors != [] {
      var n := |anchors| - 1;
      AnchorsEarn(h, leaves, cp, anchors[..n], x);
      ComparedEarns(h, leaves, cp, anchors[n], x);
      assert forall i :: 0 <= i < n ==> anchors[..n][i] == anchors[i];
    }
  }

  lemma {:induction false} EmptiesEarn(empty: seq<RunId>, declared: seq<RunId>, x: Finding)
    ensures x in UndeclaredEmpty(empty, declared) <==> x.EmptyBlock? && x.run in empty && x.run !in declared
  {
    if empty != [] {
      var n := |empty| - 1;
      EmptiesEarn(empty[..n], declared, x);
      assert forall run :: run in empty <==> run in empty[..n] || run == empty[n];
    }
  }

  lemma {:induction false} MissingEarn(ids: set<CaseId>, x: Finding)
    ensures x in CasesMissing(ids) <==> x.CaseMissing? && x.case_ in ids
    decreases ids
  {
    if ids != {} {
      MissingEarn(ids - {Least(ids)}, x);
    }
  }

  lemma {:induction false} SelectedEarn(selected: seq<CaseId>, carried: set<CaseId>, x: Finding)
    ensures x in SelectedMissing(selected, carried) <==>
            x.SelectedCaseMissing? && x.selected in selected && x.selected !in carried
  {
    if selected != [] {
      var n := |selected| - 1;
      SelectedEarn(selected[..n], carried, x);
      assert forall id :: id in selected <==> id in selected[..n] || id == selected[n];
    }
  }

  /** What the scan hands the settlement, in terms of the lines. */
  ghost predicate Summed(c: Codec, e: Scan, lines: seq<Line>) {
    e.runBlocks == RunLines(lines) && e.report.records == RecordLines(lines) && e.readRuns == Filled(BlocksOf(lines)) &&
    (e.report.complete <==> LastTrailer(lines).Some?) &&
    (LastTrailer(lines).Some? ==>
       var t := LastTrailer(lines).value;
       e.claims.runsRequested == t.runsRequested && e.claims.runsExported == t.runsExported &&
       e.claims.records == t.records) &&
    (e.headerSeen <==> Headed(lines)) && e.report.checkpoint == CheckpointIn(lines) &&
    (e.report.selection.Some? <==> IsPackage(lines)) &&
    (IsPackage(lines) ==> SelectionRead(Lead(lines).value.header, e.report.selection.value)) &&
    Sorted(e.leaves) == FileLeaves(c.hash, BlocksOf(lines)) &&
    (forall run :: run in e.claims.unreadable <==> DeclaredUnread(lines, run)) &&
    (forall id :: id in e.carried <==> HasCaseLine(lines, id)) &&
    (forall run :: run in e.emptyBlocks <==>
       exists i :: 0 <= i < |BlocksOf(lines)| && BlocksOf(lines)[i].lines == [] && BlocksOf(lines)[i].run == run) &&
    (forall id :: id in e.stamped <==> exists i :: 0 <= i < |BlocksOf(lines)| && Stamps(c, BlocksOf(lines)[i], id))
  }

  lemma CountsEarn(c: Codec, e: Scan, lines: seq<Line>, x: Finding)
    requires Summed(c, e, lines)
    ensures x in HeldCounts(e) <==> CountEarns(lines, x)
  {
    hide RunLines, RecordLines, LastTrailer, BlocksOf, Filled, HasCaseLine, DeclaredUnread, Stamps, Sorted, FileLeaves,
         SelectionRead, IsPackage, CheckpointIn, Headed;
  }

  lemma TreeIsEarned(h: Hash, leaves: seq<Leaf>, cp: Checkpoint, x: Finding)
    ensures x in RebuiltTree(h, leaves, cp) <==> TreeEarns(h, leaves, cp, x)
  {
    hide Root, Hashes, Contiguous;
  }

  /** The shape-specific half of the settlement. */
  lemma {:induction false} ShapeEarns(c: Codec, e: Scan, anchors: seq<Anchor>, lines: seq<Line>, x: Finding)
    requires Summed(c, e, lines)
    ensures var leaves, cp, package := FileLeaves(c.hash, BlocksOf(lines)), CheckpointIn(lines), IsPackage(lines);
            x in (if package then SettlePackage(e, anchors) else SettleWhole(c.hash, e, anchors)) <==>
            (exists i ::
               0 <= i < |anchors| && Headed(lines) && AnchorEarns(c.hash, package, leaves, cp, anchors[i], x)) ||
            (!package && TreeEarns(c.hash, leaves, cp, x)) || (x == NoHeader && !Headed(lines)) ||
            (x == NoTrailer && LastTrailer(lines).None?)
  {
    hide RunLines, RecordLines, LastTrailer, BlocksOf, Filled, HasCaseLine, DeclaredUnread, Stamps, Sorted, FileLeaves,
         SelectionRead, CheckpointIn, AnchorEarns, TreeEarns, CompareAnchors, ComparePackageAnchors, RebuiltTree, Headed;
    var leaves, cp := FileLeaves(c.hash, BlocksOf(lines)), CheckpointIn(lines);
    AnchorsEarn(c.hash, leaves, cp, anchors, x);
    TreeIsEarned(c.hash, leaves, cp, x);
  }

  /** The rest of it. */
  lemma {:induction false} RestEarns(c: Codec, e: Scan, lines: seq<Line>, x: Finding)
    requires Summed(c, e, lines)
    ensures x in SettleTrailer(e) + SettleCases(e) <==>
            CountEarns(lines, x) || (AbsenceEarns(c, lines, x) && x != NoHeader && x != NoTrailer)
  {
    hide RunLines, RecordLines, LastTrailer, BlocksOf, Filled, HasCaseLine, DeclaredUnread, Stamps, Sorted, FileLeaves,
         CheckpointIn, Headed, HeldCounts, CountEarns, UndeclaredEmpty, CasesMissing, SelectedMissing, Lead;
    CountsEarn(c, e, lines, x);
    EmptiesEarn(e.emptyBlocks, e.claims.unreadable, x);
    MissingEarn(e.stamped - e.carried, x);
    if e.report.selection.Some? {
      SelectedEarn(e.report.selection.value.cases, e.carried, x);
    }
  }

  /** What the settlement adds. */
  lemma {:induction false} SettledFinds(c: Codec, e: Scan, anchors: seq<Anchor>, lines: seq<Line>, x: Finding)
    requires Summed(c, e, lines)
    ensures var leaves, cp, package := FileLeaves(c.hash, BlocksOf(lines)), CheckpointIn(lines), IsPackage(lines);
            x in Settled(c, e, anchors).findings <==>
            x in e.report.findings ||
            (exists i ::
               0 <= i < |anchors| && Headed(lines) && AnchorEarns(c.hash, package, leaves, cp, anchors[i], x)) ||
            (!package && TreeEarns(c.hash, leaves, cp, x)) || CountEarns(lines, x) || AbsenceEarns(c, lines, x)
  {
    hide RunLines, RecordLines, LastTrailer, BlocksOf, Filled, HasCaseLine, DeclaredUnread, Stamps, Sorted, FileLeaves,
         SelectionRead, CheckpointIn, AnchorEarns, TreeEarns, SettlePackage, SettleWhole, SettleTrailer, SettleCases,
         CountEarns, Headed, IsPackage, Lead;
    ShapeEarns(c, e, anchors, lines, x);
    RestEarns(c, e, lines, x);
  }

  /** `t` is `s` but for where it stands and what it has found. */
  ghost predicate LikeScan(s: Scan, t: Scan) {
    t == s.(first := t.first, halted := t.halted, report := s.report.(findings := t.report.findings))
  }

  lemma FinishKeepsLeaves(c: Codec, keys: Option<SignatureCheck>, s: Scan)
    ensures var t := FinishRun(c, keys, s); t.leaves == s.leaves && t.pass.None? && t.closed == Passes(s)
  {
    hide ClosingFindings;
  }

  lemma StampsAreRead(c: Codec, blocks: seq<Block>, passes: seq<Pass>, id: CaseId)
    requires |passes| == |blocks| && forall i :: 0 <= i < |blocks| ==> passes[i] == PassAt(c, blocks, i)
    ensures StampedIn(passes, id) <==> exists i :: 0 <= i < |blocks| && Stamps(c, blocks[i], id)
  {
    hide ReadsBack, Head, CarriedRaws, PassAfter, Fresh, SeqAfter;
    forall i | 0 <= i < |blocks| ensures PassStamps(passes[i], id) <==> Stamps(c, blocks[i], id) {
      WalkReads(c, OpenPass(blocks[i].header, blocks[i].run), blocks[i].lines);
    }
  }

  lemma {:induction false} Sums(c: Codec, keys: Option<SignatureCheck>, lines: seq<Line>, t: Scan)
    requires Answerable(c, keys, lines) && LikeScan(Scanned(c, keys, Start, lines), t)
    ensures var e := FinishRun(c, keys, t); Summed(c, e, lines) && !e.report.unverifiable
  {
    hide Scanned, FinishRun, RunLines, RecordLines, CaseLines, LastTrailer, Lead, Framed, PassAt, LeavesOf, Sorted,
         StampedIn, EmptyIn, FullOf, Filled, Stamps, DeclaredUnread, HasCaseLine, SelectionRead, ListsExactly, RunsIn,
         PlacesIn;
    var s, e := Scanned(c, keys, Start, lines), FinishRun(c, keys, t);
    var blocks := BlocksOf(lines);
    ScanKnows(c, keys, lines);
    ScannedTracks(c, keys, lines);
    ScannedClaims(c, keys, lines);
    ScannedLedger(c, keys, lines);
    SameLedger(s, t);
    FinishLedger(c, keys, t);
    FinishKeepsTheRules(c, keys, t);
    FinishKeepsLeaves(c, keys, t);
    assert Passes(t) == Passes(s) == Passes(e) == e.closed;
    EmptiesMean(c, blocks, e.closed, 0);
    forall run
      ensures run in e.emptyBlocks <==> exists i :: 0 <= i < |blocks| && blocks[i].lines == [] && blocks[i].run == run
    {
      EmptiesMean(c, blocks, e.closed, run);
    }
    forall id ensures id in e.stamped <==> exists i :: 0 <= i < |blocks| && Stamps(c, blocks[i], id) {
      StampsAreRead(c, blocks, e.closed, id);
    }
  }

  // ── A file with a break in it ──────────────────────────────────────────

  lemma {:induction false} HeardIsJson(lines: seq<Line>)
    ensures AllJson(HeardOf(lines))
    ensures |HeardOf(lines)| < |lines| ==> lines[|HeardOf(lines)|].NotJson?
  {
    if lines != [] {
      HeardIsJson(lines[..|lines| - 1]);
    }
  }

  /** Nothing past the break is read. */
  lemma {:induction false} BreakHalts(c: Codec, keys: Option<SignatureCheck>, lines: seq<Line>)
    ensures var heard := HeardOf(lines);
            var s, t := Scanned(c, keys, Start, heard), Scanned(c, keys, Start, lines);
            (heard == lines || s.report.unverifiable ==> t == s) &&
            (heard != lines && !s.report.unverifiable ==>
               LikeScan(s, t) && t.halted && t.report.findings == s.report.findings + [NotJsonLine])
  {
    hide ReadRun, ReadRecord, ReadHeader, ReadCase, ReadTrailer;
    var heard := HeardOf(lines);
    if lines != [] && heard != lines {
      var n := |lines| - 1;
      var s := Scanned(c, keys, Start, lines[..n]);
      BreakHalts(c, keys, lines[..n]);
      HeardIsJson(lines);
      ScanKnowsRules(c, keys, heard);
    }
  }

  lemma ScanKnowsRules(c: Codec, keys: Option<SignatureCheck>, lines: seq<Line>)
    requires AllJson(lines)
    ensures var s := Scanned(c, keys, Start, lines); s.report.unverifiable <==> s.halted
  {
    hide Scanned, RunLines, RecordLines, CaseLines, LastTrailer, Lead, SelectionRead;
    ScanKnows(c, keys, lines);
  }

  /** For every file the reader can answer for, sound or not: the findings of a
      report are exactly those the file earns, up to its break, and the break. */
  lemma {:induction false} FindingsExactly(c: Codec, keys: Option<SignatureCheck>, anchors: seq<Anchor>,
                                           lines: seq<Line>, x: Finding)
    requires !Verify(c, keys, anchors, lines).unverifiable
    ensures x in Verify(c, keys, anchors, lines).findings <==>
            Earns(c, keys, anchors, HeardOf(lines), x) || (x == NotJsonLine && HeardOf(lines) != lines)
  {
    hide Scanned, FinishRun, Settled, SomeLineEarns, SomeBlockEarns, TreeEarns, AnchorEarns, CountEarns, AbsenceEarns,
         FileLeaves, BlocksOf, CheckpointIn, IsPackage, Headed, Summed, LikeScan, ClosingFinds;
    var heard := HeardOf(lines);
    var s, t := Scanned(c, keys, Start, heard), Scanned(c, keys, Start, lines);
    var e := FinishRun(c, keys, t);
    HeardIsJson(lines);
    BreakHalts(c, keys, lines);
    EndOf(c, keys, anchors, lines);
    SelfLike(s);
    Sums(c, keys, heard, t);
    SettledFinds(c, e, anchors, heard, x);
    FinishFinds(c, keys, t, x);
    LikeCloses(c, keys, s, t, x);
    PassFinds(c, keys, heard, x);
  }

  lemma SelfLike(s: Scan)
    ensures LikeScan(s, s)
  {
  }

  lemma LikeCloses(c: Codec, keys: Option<SignatureCheck>, s: Scan, t: Scan, x: Finding)
    requires LikeScan(s, t)
    ensures ClosingFinds(c, keys, s, x) == ClosingFinds(c, keys, t, x) && s.report.unverifiable == t.report.unverifiable
  {
    hide ClosingFindings;
  }

  lemma EndOf(c: Codec, keys: Option<SignatureCheck>, anchors: seq<Anchor>, lines: seq<Line>)
    requires !Verify(c, keys, anchors, lines).unverifiable
    ensures var t := Scanned(c, keys, Start, lines);
            !t.report.unverifiable && Verify(c, keys, anchors, lines) == Settled(c, FinishRun(c, keys, t), anchors)
  {
    hide Scanned, FinishRun, Settled;
    FinishKeepsTheRules(c, keys, Scanned(c, keys, Start, lines));
    SettledKeeps(c, FinishRun(c, keys, Scanned(c, keys, Start, lines)), anchors);
  }

  // ── A file the reader cannot answer for ────────────────────────────────

  /** The file is under a rule the reader does not know, which is all it reads. */
  predicate UnknownRule(lines: seq<Line>) {
    Headed(lines) && Lead(lines).value.header.canon != Some(CANON_VERSION)
  }

  lemma {:induction false} RuleIsRead(c: Codec, keys: Option<SignatureCheck>, lines: seq<Line>)
    ensures var s := Scanned(c, keys, Start, lines);
            (s.report.unverifiable <==> UnknownRule(lines)) && (s.report.unverifiable ==> s.halted) &&
            (s.first <==> Lead(lines).None?) && (s.first ==> s == Start) &&
            (UnknownRule(lines) ==>
               s.report == HeaderReport(EmptyReport, Lead(lines).value.kind, Lead(lines).value.header))
  {
    hide ReadRun, ReadRecord, When, HeaderReport;
    if lines != [] {
      var n := |lines| - 1;
      var s, line := Scanned(c, keys, Start, lines[..n]), lines[n];
      RuleIsRead(c, keys, lines[..n]);
      UnverifiableHalts(c, keys, s, line);
      var u := s.(first := false);
      match line {
        case RunLine(h) => RunKeepsTheRules(c, keys, u, h);
        case RecordLine(f) => RecordKeepsTheRules(c, u, f);
        case UnknownLine(f, _) => RecordKeepsTheRules(c, u, f);
        case HeaderLine(kind, f) => HeaderRule(s.report, kind, f);
        case _ =>
      }
    }
  }

  /** A file cannot be answered for exactly when its header names a rule the reader
      does not know; what is found then is what the header earns. */
  lemma {:induction false} UnanswerableExactly(c: Codec, keys: Option<SignatureCheck>, anchors: seq<Anchor>,
                                               lines: seq<Line>, x: Finding)
    ensures Verify(c, keys, anchors, lines).unverifiable <==> UnknownRule(lines)
    ensures UnknownRule(lines) ==>
              (x in Verify(c, keys, anchors, lines).findings <==>
               x != EmptySelection && HeaderEarns(Lead(lines).value.kind, Lead(lines).value.header, x))
  {
    hide Scanned, FinishRun, Settled, HeaderReport, HeaderEarns, Lead;
    RuleIsRead(c, keys, lines);
    if !UnknownRule(lines) {
      FinishKeepsTheRules(c, keys, Scanned(c, keys, Start, lines));
      SettledKeeps(c, FinishRun(c, keys, Scanned(c, keys, Start, lines)), anchors);
    } else {
      UnknownRuleFinds(Lead(lines).value.kind, Lead(lines).value.header, x);
    }
  }

  lemma UnknownRuleFinds(kind: HeaderKind, f: HeaderFields, x: Finding)
    requires f.canon != Some(CANON_VERSION)
    ensures x in HeaderReport(EmptyReport, kind, f).findings <==> x != EmptySelection && HeaderEarns(kind, f, x)
  {
    hide When;
    HeaderHolds(EmptyReport, kind, f, x);
  }

  // ── Emptied blocks ─────────────────────────────────────────────────────

  lemma {:induction false} BreakEndsBlocks(lines: seq<Line>)
    ensures BlocksOf(HeardOf(lines)) == BlocksOf(lines)
    ensures Framed(lines).halted <==> HeardOf(lines) != lines
  {
    if lines != [] {
      BreakEndsBlocks(lines[..|lines| - 1]);
    }
  }

  lemma {:induction false} BreakEndsTrailers(lines: seq<Line>, run: RunId)
    ensures DeclaredUnread(HeardOf(lines), run) <==> DeclaredUnread(lines, run)
  {
    var heard := HeardOf(lines);
    HeardIsJson(lines);
    if k: nat :| k < |lines| && Heard(lines, k) && lines[k].EndLine? && run in lines[k].trailer.unreadable {
      assert k < |heard|;
      assert Heard(heard, k) && heard[k] == lines[k];
    }
    if k: nat :| k < |heard| && Heard(heard, k) && heard[k].EndLine? && run in heard[k].trailer.unreadable {
      assert forall j :: 0 <= j < k ==> heard[j] == lines[j];
      assert Heard(lines, k) && heard[k] == lines[k];
    }
  }

  lemma OnlyAbsenceEarnsEmpty(c: Codec, keys: Option<SignatureCheck>, anchors: seq<Anchor>, lines: seq<Line>,
                              run: RunId)
    ensures Earns(c, keys, anchors, lines, EmptyBlock(run)) <==> AbsenceEarns(c, lines, EmptyBlock(run))
  {
    hide AbsenceEarns, BlocksOf, Framed, Head, CarriedRaws, SeqAfter, SeqOr, Chained, CheckpointIn, IsPackage, Headed,
         FileLeaves, ReadsBack, LastTrailer, CaseLines;
  }

  /** A run is filed for an empty block if and only if it has a block without
      records and no trailer the reader got to declares it unreadable. */
  lemma {:induction false} EmptyExactly(c: Codec, keys: Option<SignatureCheck>, anchors: seq<Anchor>, lines: seq<Line>,
                                        run: RunId)
    requires !Verify(c, keys, anchors, lines).unverifiable
    ensures EmptyBlock(run) in Verify(c, keys, anchors, lines).findings <==>
            (exists i :: 0 <= i < |BlocksOf(lines)| && BlocksOf(lines)[i].lines == [] && BlocksOf(lines)[i].run == run) &&
            !DeclaredUnread(lines, run)
  {
    hide Verify, DeclaredUnread, BlocksOf, Earns;
    FindingsExactly(c, keys, anchors, lines, EmptyBlock(run));
    OnlyAbsenceEarnsEmpty(c, keys, anchors, HeardOf(lines), run);
    BreakEndsBlocks(lines);
    BreakEndsTrailers(lines, run);
  }
}
