/** What one verification pass over a file computes, as a fold over its lines:
    the specification the pass in Verifier.dfy is proved against, and the
    function every result about `verify` is a result about. */
module VerifySpec {
  import opened Wrappers
  import opened Hashing
  import opened Merkle
  import opened Wire

  datatype Finding =
    | NotJsonLine | LateHeader | WrongVersion | NoCheckpoint | UnreadableCheckpoint | EmptySelection
    | OrphanRecord | HalfPlaced(run: RunId) | RunTwice(run: RunId) | PositionTwice(index: nat)
    | NoWireBytes(run: RunId) | Edited(run: RunId, at: nat) | NotCanonical(run: RunId, at: nat)
    | VersionSkew(run: RunId, at: nat) | ShapeSkew(run: RunId) | MalformedRecord(run: RunId)
    | DisplayEdited(run: RunId, at: nat) | CopyEdited(run: RunId, at: nat) | Relabelled(run: RunId, owner: RunId)
    | SeqGap(run: RunId, at: nat, after: nat) | ForeignHead(run: RunId)
    | LeafNotHead(run: RunId) | StrippedLeaf(run: RunId) | PathNotProved(run: RunId) | NotSigned(run: RunId)
    | CaseCount(declared: nat, carried: nat) | MalformedCase | MalformedDeadlines | MalformedHold | MalformedErasure
    | OtherHistory(obtainedFrom: string) | SecondHistory(obtainedFrom: string) | PrefixDiffers(obtainedFrom: string)
    | NoHeader | RootDiffers | PositionsNotContiguous | LeafCount(carried: nat, committed: nat) | NoTrailer
    | EmptyBlock(run: RunId) | RunCount(declared: nat, carried: nat) | ExportedCount(declared: nat, carried: nat)
    | RecordCount(declared: nat, carried: nat) | MissingCounts
    | CaseMissing(case_: CaseId) | SelectedCaseMissing(selected: CaseId)

  datatype Report = Report(checkpoint: Checkpoint, sound: seq<RunId>, findings: seq<Finding>, records: nat, cases: nat,
                           complete: bool, unverifiable: bool, selection: Option<Selection>)

  predicate IsSound(r: Report) {
    r.findings == [] && r.complete && !r.unverifiable
  }

  function File(r: Report, found: seq<Finding>): Report {
    r.(findings := r.findings + found)
  }

  /** The evidence gathered about the run block being read. */
  datatype Pass = Pass(run: RunId, declaredSeal: Option<Digest>, sealed: bool, index: Option<nat>,
                       proof: Option<seq<Digest>>, prev: Digest, lastSeq: nat, records: nat,
                       resealed: seq<Record>, clean: bool)

  datatype TrailerClaims = TrailerClaims(runsRequested: Option<nat>, runsExported: Option<nat>, records: Option<nat>,
                                         unreadable: seq<RunId>)

  /** One leaf as the file claims it: a log position and the hashed seal. */
  type Leaf = (nat, LeafHash)

  /** The pass between two lines.  `closed` is what the observer was handed, in
      order; `halted` is set once nothing further is read. */
  datatype Scan = Scan(report: Report, headerSeen: bool, first: bool, halted: bool, leaves: seq<Leaf>,
                       pass: Option<Pass>, runBlocks: nat, readRuns: nat, emptyBlocks: seq<RunId>,
                       claims: TrailerClaims, stamped: set<CaseId>, carried: set<CaseId>,
                       blocksOf: set<RunId>, positions: set<nat>, closed: seq<Pass>)

  const EmptyReport := Report(Checkpoint("", 0, ZERO), [], [], 0, 0, false, false, None)

  const Start := Scan(EmptyReport, false, true, false, [], None, 0, 0, [], TrailerClaims(None, None, None, []),
                      {}, {}, {}, {}, [])

  function When(b: bool, f: Finding): (found: seq<Finding>)
    ensures found == [] <==> !b
    ensures |found| <= 1
  {
    if b then [f] else []
  }

  // ── A record line ──────────────────────────────────────────────────────

  datatype Judged = Judged(pass: Pass, found: seq<Finding>, stamp: Option<CaseId>)

  /** Carry the head and the sequence forward over the bytes present. */
  function WalkOver(c: Codec, p: Pass, raw: Bytes, at: nat): Pass {
    p.(clean := false, prev := Chain(c.hash, p.prev, raw), lastSeq := at)
  }

  function SeqOr(c: Codec, raw: Bytes, otherwise: nat): nat {
    match c.seqOf(raw) case Some(n) => n case None => otherwise
  }

  /** What the line's copies say against the bytes the hash covers. */
  function WireJson(c: Codec, raw: Bytes): Json {
    match c.json(raw) case Some(j) => j case None => Json("null")
  }

  /** A line's copies, run, sequence and conclusion, once its bytes are known to
      be the chain's and to read. */
  function Disagreements(c: Codec, f: RecordFields, p: Pass, raw: Bytes, body: Body): seq<Finding> {
    When(f.body != Some(WireJson(c, raw)), DisplayEdited(p.run, body.seq_)) +
    When(f.prevHash != Some(p.prev) || f.seq_ != Some(body.seq_), CopyEdited(p.run, body.seq_)) +
    When(body.run != p.run, Relabelled(p.run, body.run)) +
    When(body.seq_ != p.lastSeq + 1, SeqGap(p.run, body.seq_, p.lastSeq)) +
    When(body.kind.RunConcluded? && body.kind.chainHead != p.prev, ForeignHead(p.run))
  }

  function JudgeUnread(c: Codec, p: Pass, raw: Bytes): Judged {
    var at := c.seqOf(raw);
    var finding :=
      match c.read(raw)
      case UnknownVersion => VersionSkew(p.run, SeqOr(c, raw, p.lastSeq + 1))
      case UnreadableShape => ShapeSkew(p.run)
      case _ => MalformedRecord(p.run);
    Judged(WalkOver(c, p, raw, SeqOr(c, raw, p.lastSeq)), [finding], None)
  }

  function JudgeRead(c: Codec, f: RecordFields, p: Pass, raw: Bytes, claimed: Digest, body: Body): Judged {
    var found := Disagreements(c, f, p, raw, body);
    Judged(p.(lastSeq := body.seq_, clean := p.clean && found == [], prev := claimed,
              resealed := p.resealed + [Record(body, p.prev, claimed, f.signature, raw)]),
           found, body.case_)
  }

  /** The four exits of `read_record`. */
  function JudgeRecord(c: Codec, f: RecordFields, entered: Pass): Judged {
    var p := entered.(records := entered.records + 1);
    if f.raw.None? || f.hash.None? then
      Judged(p.(clean := false), [NoWireBytes(p.run)], None)
    else
      var raw, claimed := f.raw.value, f.hash.value;
      var at := SeqOr(c, raw, p.lastSeq + 1);
      if Chain(c.hash, p.prev, raw) != claimed then
        Judged(WalkOver(c, p, raw, at), [Edited(p.run, at)], None)
      else if Uncanonical(c, raw) then
        Judged(WalkOver(c, p, raw, at), [NotCanonical(p.run, at)], None)
      else
        match c.read(raw)
        case Readable(body) => JudgeRead(c, f, p, raw, claimed, body)
        case _ => JudgeUnread(c, p, raw)
  }

  function ReadRecord(c: Codec, s: Scan, f: RecordFields): Scan {
    var counted := s.report.(records := s.report.records + 1);
    match s.pass
    case None => s.(report := File(counted, [OrphanRecord]))
    case Some(p) =>
      var j := JudgeRecord(c, f, p);
      s.(report := File(counted, j.found), pass := Some(j.pass),
         stamped := s.stamped + (match j.stamp case Some(id) => {id} case None => {}))
  }

  // ── A run block ────────────────────────────────────────────────────────

  /** The position and seal a block carries, when it carries both. */
  function Placed(f: RunFields): Option<(nat, Digest)> {
    if f.index.Given? && f.seal.Given? then Some((f.index.value, f.seal.value)) else None
  }

  predicate ClaimsPlace(f: RunFields) {
    !f.index.Missing? || !f.seal.Missing?
  }

  function OpenPass(f: RunFields, run: RunId): Pass {
    var placed := Placed(f);
    Pass(run, (match placed case Some(at) => Some(at.1) case None => None), placed.Some?,
         (if f.index.Given? then Some(f.index.value) else None), f.proof, ZERO, 0, 0, [],
         !(ClaimsPlace(f) && placed.None?))
  }

  function OpenRunBlock(c: Codec, s: Scan, f: RunFields): Scan {
    match f.run
    case None => s.(pass := None)
    case Some(run) =>
      var placed := Placed(f);
      s.(pass := Some(OpenPass(f, run)),
         leaves := s.leaves + (match placed case Some(at) => [(at.0, LeafHashOf(c.hash, at.1))] case None => []),
         report := File(s.report, When(ClaimsPlace(f) && placed.None?, HalfPlaced(run))))
  }

  /** Every element of `runs` but `run`, in order. */
  function Without(runs: seq<RunId>, run: RunId): seq<RunId> {
    if runs == [] then []
    else Without(runs[..|runs| - 1], run) + (if runs[|runs| - 1] == run then [] else [runs[|runs| - 1]])
  }

  function ClaimOnce(s: Scan): Scan {
    match s.pass
    case None => s
    case Some(p) =>
      var again := p.run in s.blocksOf;
      var taken := p.sealed && p.index.Some? && p.index.value in s.positions;
      s.(report := File(if again then s.report.(sound := Without(s.report.sound, p.run)) else s.report,
                        When(again, RunTwice(p.run)) +
                        When(taken, PositionTwice(if p.index.Some? then p.index.value else 0))),
         pass := Some(p.(clean := p.clean && !again && !taken)),
         blocksOf := s.blocksOf + {p.run},
         positions := s.positions + (if p.sealed && p.index.Some? then {p.index.value} else {}))
  }

  /** Record `i` links to the one before it, or to `from`, with no gap. */
  predicate LinksBack(h: Hash, records: seq<Record>, from: Digest, i: nat)
    requires i < |records|
  {
    var prev := if i == 0 then from else records[i - 1].hash;
    records[i].body.seq_ == records[0].body.seq_ + i &&
    records[i].prev == prev && records[i].hash == Chain(h, prev, records[i].raw)
  }

  /** Every record links to the one before it, from `from`, with no gap. */
  predicate ChainVerifies(h: Hash, records: seq<Record>, from: Digest) {
    forall i :: 0 <= i < |records| ==> LinksBack(h, records, from, i)
  }

  predicate SignedHistory(h: Hash, check: SignatureCheck, records: seq<Record>) {
    ChainVerifies(h, records, ZERO) &&
    forall i :: 0 <= i < |records| ==>
      records[i].signature.Some? && check(records[i].hash, records[i].signature.value)
  }

  predicate LeafIsProved(h: Hash, seal: Digest, index: Option<nat>, proof: Option<seq<Digest>>, against: Checkpoint) {
    index.Some? && proof.Some? &&
    Included(h, LeafHashOf(h, seal), index.value, against.size, proof.value, against.root)
  }

  /** What closing a block that carried records finds. */
  function ClosingFindings(c: Codec, keys: Option<SignatureCheck>, package: bool, against: Checkpoint, p: Pass)
    : seq<Finding>
  {
    When(p.declaredSeal.Some? && p.declaredSeal.value != p.prev, LeafNotHead(p.run)) +
    When(package && !p.sealed && HasSealingConclusion(p.resealed), StrippedLeaf(p.run)) +
    When(package && p.declaredSeal.Some? && !LeafIsProved(c.hash, p.declaredSeal.value, p.index, p.proof, against),
         PathNotProved(p.run)) +
    When(keys.Some? && !SignedHistory(c.hash, keys.value, p.resealed), NotSigned(p.run))
  }

  function FinishRun(c: Codec, keys: Option<SignatureCheck>, s: Scan): Scan {
    match s.pass
    case None => s
    case Some(p) =>
      if p.records == 0 then
        s.(pass := None, emptyBlocks := s.emptyBlocks + [p.run], closed := s.closed + [p])
      else
        var found := ClosingFindings(c, keys, s.report.selection.Some?, s.report.checkpoint, p);
        var filed := File(s.report, found);
        s.(pass := None, readRuns := s.readRuns + 1, closed := s.closed + [p],
           report := if p.clean && found == [] then filed.(sound := filed.sound + [p.run]) else filed)
  }

  // ── The other lines ────────────────────────────────────────────────────

  function HeaderReport(r: Report, kind: HeaderKind, f: HeaderFields): Report {
    var found :=
      When(f.version != Some(FORMAT_VERSION), WrongVersion) +
      When(f.checkpoint.Unreadable?, UnreadableCheckpoint) +
      When(f.checkpoint.Missing?, NoCheckpoint);
    var read := File(r, found).(
      unverifiable := f.canon != Some(CANON_VERSION),
      checkpoint := if f.checkpoint.Given? then f.checkpoint.value else r.checkpoint);
    if read.unverifiable || kind.WholeExport? then read else ReadSelection(read, f)
  }

  function ReadSelection(r: Report, f: HeaderFields): Report {
    var named := f.selection.Some? && !(f.selection.value.cases == [] && f.selection.value.runs == []);
    File(r, When(!named, EmptySelection)).(
      selection := Some(if named then f.selection.value else Selection([], [])))
  }

  function ReadHeader(s: Scan, kind: HeaderKind, f: HeaderFields): Scan {
    var report := HeaderReport(s.report, kind, f);
    s.(headerSeen := true, report := report, halted := s.halted || report.unverifiable)
  }

  function CaseReport(r: Report, f: CaseFields): Report {
    File(r.(cases := r.cases + 1),
         When(f.case_.None?, MalformedCase) + When(f.deadlines.None?, MalformedDeadlines) +
         When(!f.hold.Given?, MalformedHold) + When(!f.erasure.Given?, MalformedErasure))
  }

  function ReadCase(s: Scan, f: CaseFields): Scan {
    s.(report := CaseReport(s.report, f),
       carried := s.carried + (match f.case_ case Some(k) => {k.id} case None => {}))
  }

  function TrailerReport(r: Report, f: TrailerFields): Report {
    File(r.(complete := true),
         When(f.cases.Some? && f.cases.value != r.cases, CaseCount(if f.cases.Some? then f.cases.value else 0, r.cases)))
  }

  function ReadTrailer(s: Scan, f: TrailerFields): Scan {
    s.(report := TrailerReport(s.report, f),
       claims := TrailerClaims(f.runsRequested, f.runsExported, f.records, s.claims.unreadable + f.unreadable))
  }

  function ReadRun(c: Codec, keys: Option<SignatureCheck>, s: Scan, f: RunFields): Scan {
    ClaimOnce(OpenRunBlock(c, FinishRun(c, keys, s.(runBlocks := s.runBlocks + 1)), f))
  }

  function Step(c: Codec, keys: Option<SignatureCheck>, s: Scan, line: Line): Scan {
    if s.halted || line.Blank? then s
    else
      var t := s.(first := false);
      match line
      case NotJson => t.(report := File(s.report, [NotJsonLine]), halted := true)
      case HeaderLine(kind, f) => if s.first then ReadHeader(t, kind, f) else t.(report := File(s.report, [LateHeader]))
      case RunLine(f) => ReadRun(c, keys, t, f)
      case RecordLine(f) => ReadRecord(c, t, f)
      case UnknownLine(f, _) => ReadRecord(c, t, f)
      case CaseLine(f) => ReadCase(t, f)
      case EndLine(f) => ReadTrailer(t, f)
      case Blank => t
  }

  /** The pass over `lines`, from `s`. */
  function Scanned(c: Codec, keys: Option<SignatureCheck>, s: Scan, lines: seq<Line>): Scan {
    if lines == [] then s else Step(c, keys, Scanned(c, keys, s, lines[..|lines| - 1]), lines[|lines| - 1])
  }

  lemma {:induction false} ScannedOfConcat(c: Codec, keys: Option<SignatureCheck>, s: Scan, a: seq<Line>, b: seq<Line>)
    ensures Scanned(c, keys, s, a + b) == Scanned(c, keys, Scanned(c, keys, s, a), b)
    decreases |b|
  {
    hide Step;
    if b == [] {
      assert a + b == a;
    } else {
      var n := |b| - 1;
      assert (a + b)[..|a + b| - 1] == a + b[..n] && (a + b)[|a + b| - 1] == b[n];
      ScannedOfConcat(c, keys, s, a, b[..n]);
    }
  }

  lemma ScannedOfAppend(c: Codec, keys: Option<SignatureCheck>, s: Scan, lines: seq<Line>, line: Line)
    ensures Scanned(c, keys, s, lines + [line]) == Step(c, keys, Scanned(c, keys, s, lines), line)
  {
    hide Step;
    assert (lines + [line])[..|lines|] == lines;
  }

  // ── The settlement ─────────────────────────────────────────────────────

  /** One leaf put in its place, after every leaf of the same position. */
  function Insert(leaves: seq<Leaf>, x: Leaf): seq<Leaf> {
    if leaves == [] || leaves[|leaves| - 1].0 <= x.0 then leaves + [x]
    else Insert(leaves[..|leaves| - 1], x) + [leaves[|leaves| - 1]]
  }

  /** The leaves in log order; leaves claiming one position keep their order. */
  function Sorted(leaves: seq<Leaf>): seq<Leaf> {
    if leaves == [] then [] else Insert(Sorted(leaves[..|leaves| - 1]), leaves[|leaves| - 1])
  }

  predicate Contiguous(leaves: seq<Leaf>) {
    forall at :: 0 <= at < |leaves| ==> leaves[at].0 == at
  }

  function Hashes(leaves: seq<Leaf>): (hashes: seq<LeafHash>)
    ensures |hashes| == |leaves|
    ensures forall i :: 0 <= i < |leaves| ==> hashes[i] == leaves[i].1
  {
    if leaves == [] then [] else Hashes(leaves[..|leaves| - 1]) + [leaves[|leaves| - 1].1]
  }

  /** The root over a file's first `size` leaves, when it carries exactly the
      positions below `size` among them. */
  function PrefixRoot(h: Hash, leaves: seq<Leaf>, size: nat): Option<Digest> {
    if size <= |leaves| && Contiguous(leaves[..size]) then Some(Root(h, Hashes(leaves[..size]))) else None
  }

  /** What one outside checkpoint says about a whole export. */
  function CompareAnchor(h: Hash, header: Checkpoint, anchor: Anchor, leaves: seq<Leaf>): seq<Finding> {
    var given := anchor.checkpoint;
    if given.origin != header.origin || given.size > header.size then [OtherHistory(anchor.obtainedFrom)]
    else if given.size == header.size then When(given.root != header.root, SecondHistory(anchor.obtainedFrom))
    else When(PrefixRoot(h, leaves, given.size) != Some(given.root), PrefixDiffers(anchor.obtainedFrom))
  }

  function CompareAnchors(h: Hash, header: Checkpoint, anchors: seq<Anchor>, leaves: seq<Leaf>): seq<Finding> {
    if anchors == [] then []
    else CompareAnchors(h, header, anchors[..|anchors| - 1], leaves) +
         CompareAnchor(h, header, anchors[|anchors| - 1], leaves)
  }

  /** The tree rebuilt in log order and held to a checkpoint. */
  function RebuiltTree(h: Hash, leaves: seq<Leaf>, against: Checkpoint): seq<Finding> {
    if |leaves| != against.size then [LeafCount(|leaves|, against.size)]
    else if !Contiguous(leaves) then [PositionsNotContiguous]
    else When(Root(h, Hashes(leaves)) != against.root, RootDiffers)
  }

  function WholeFindings(h: Hash, headerSeen: bool, unsorted: seq<Leaf>, anchors: seq<Anchor>,
                         r: Report): seq<Finding> {
    var leaves := Sorted(unsorted);
    (if headerSeen then CompareAnchors(h, r.checkpoint, anchors, leaves) else []) +
    When(!headerSeen, NoHeader) +
    RebuiltTree(h, leaves, r.checkpoint) +
    When(!r.complete, NoTrailer)
  }

  function SettleWhole(h: Hash, s: Scan, anchors: seq<Anchor>): seq<Finding> {
    WholeFindings(h, s.headerSeen, s.leaves, anchors, s.report)
  }

  /** What one outside checkpoint says about a package: one of another size is
      not compared. */
  function ComparePackageAnchor(header: Checkpoint, anchor: Anchor): seq<Finding> {
    var given := anchor.checkpoint;
    if given.origin != header.origin then [OtherHistory(anchor.obtainedFrom)]
    else When(given.size == header.size && given.root != header.root, SecondHistory(anchor.obtainedFrom))
  }

  function ComparePackageAnchors(header: Checkpoint, anchors: seq<Anchor>): seq<Finding> {
    if anchors == [] then []
    else ComparePackageAnchors(header, anchors[..|anchors| - 1]) +
         ComparePackageAnchor(header, anchors[|anchors| - 1])
  }

  function PackageFindings(headerSeen: bool, anchors: seq<Anchor>, r: Report): seq<Finding> {
    When(!headerSeen, NoHeader) + ComparePackageAnchors(r.checkpoint, anchors) + When(!r.complete, NoTrailer)
  }

  function SettlePackage(s: Scan, anchors: seq<Anchor>): seq<Finding> {
    PackageFindings(s.headerSeen, anchors, s.report)
  }

  /** Blocks that carried nothing and that the trailer does not declare. */
  function UndeclaredEmpty(empty: seq<RunId>, declared: seq<RunId>): seq<Finding> {
    if empty == [] then []
    else UndeclaredEmpty(empty[..|empty| - 1], declared) +
         When(empty[|empty| - 1] !in declared, EmptyBlock(empty[|empty| - 1]))
  }

  function CountFindings(claims: TrailerClaims, runBlocks: nat, readRuns: nat, r: Report): seq<Finding> {
    if !r.complete then []
    else if claims.runsRequested.None? || claims.runsExported.None? || claims.records.None? then [MissingCounts]
    else When(claims.runsRequested.value != runBlocks, RunCount(claims.runsRequested.value, runBlocks)) +
         When(claims.runsExported.value != readRuns, ExportedCount(claims.runsExported.value, readRuns)) +
         When(claims.records.value != r.records, RecordCount(claims.records.value, r.records))
  }

  function HeldCounts(s: Scan): seq<Finding> {
    CountFindings(s.claims, s.runBlocks, s.readRuns, s.report)
  }

  function SettleTrailer(s: Scan): seq<Finding> {
    UndeclaredEmpty(s.emptyBlocks, s.claims.unreadable) + HeldCounts(s)
  }

  function SelectedMissing(selected: seq<CaseId>, carried: set<CaseId>): seq<Finding> {
    if selected == [] then []
    else SelectedMissing(selected[..|selected| - 1], carried) +
         When(selected[|selected| - 1] !in carried, SelectedCaseMissing(selected[|selected| - 1]))
  }

  predicate IsLeast(ids: set<CaseId>, id: CaseId) {
    id in ids && forall other :: other in ids ==> id <= other
  }

  /** The least element of a set of ids: sets of ids are walked in order. */
  function Least(ids: set<CaseId>): (least: CaseId)
    requires ids != {}
    ensures least in ids && forall id :: id in ids ==> least <= id
  {
    LeastExists(ids);
    var least :| IsLeast(ids, least);
    least
  }

  lemma LeastExists(ids: set<CaseId>)
    requires ids != {}
    ensures exists least :: IsLeast(ids, least)
  {
    hide IsLeast;
    var least := FindLeast(ids);
  }

  lemma {:induction false} FindLeast(ids: set<CaseId>) returns (least: CaseId)
    requires ids != {}
    ensures IsLeast(ids, least)
  {
    var some :| some in ids;
    var rest := ids - {some};
    assert forall id :: id in ids ==> id == some || id in rest;
    if rest == {} {
      least := some;
    } else {
      least := FindLeast(rest);
      if some < least {
        least := some;
      }
    }
  }

  function CasesMissing(ids: set<CaseId>): seq<Finding> {
    if ids == {} then [] else [CaseMissing(Least(ids))] + CasesMissing(ids - {Least(ids)})
  }

  function CaseFindings(stamped: set<CaseId>, carried: set<CaseId>, selection: Option<Selection>): seq<Finding> {
    CasesMissing(stamped - carried) +
    (match selection case Some(sel) => SelectedMissing(sel.cases, carried) case None => [])
  }

  function SettleCases(s: Scan): seq<Finding> {
    CaseFindings(s.stamped, s.carried, s.report.selection)
  }

  function Settled(c: Codec, s: Scan, anchors: seq<Anchor>): Report {
    File(s.report,
         (if s.report.selection.Some? then SettlePackage(s, anchors) else SettleWhole(c.hash, s, anchors)) +
         SettleTrailer(s) + SettleCases(s))
  }

  /** The whole pass: the last block closed and everything settled, or the
      report as it stood when the header's rule turned out to be unknown. */
  function ScanAll(c: Codec, keys: Option<SignatureCheck>, lines: seq<Line>): Scan {
    var s := Scanned(c, keys, Start, lines);
    if s.report.unverifiable then s else FinishRun(c, keys, s)
  }

  function Verify(c: Codec, keys: Option<SignatureCheck>, anchors: seq<Anchor>, lines: seq<Line>): Report {
    var s := ScanAll(c, keys, lines);
    if s.report.unverifiable then s.report else Settled(c, s, anchors)
  }
}
