/** The verification pass as src/export.rs runs it: a report and a run block's
    evidence updated in place, line by line.  Each method is held to the
    function of VerifySpec that says what it computes. */
module Verifier {
  import opened Wrappers
  import opened Hashing
  import opened Merkle
  import opened Wire
  import opened VerifySpec

  class VerifyReport {
    var checkpoint: Checkpoint
    var sound: seq<RunId>
    var findings: seq<Finding>
    var records: nat
    var cases: nat
    var complete: bool
    var unverifiable: bool
    var selection: Option<Selection>

    constructor ()
      ensures View() == EmptyReport
    {
      checkpoint := Checkpoint("", 0, ZERO);
      sound, findings := [], [];
      records, cases, complete, unverifiable := 0, 0, false, false;
      selection := None;
    }

    function View(): Report
      reads this
    {
      Report(checkpoint, sound, findings, records, cases, complete, unverifiable, selection)
    }

    method Push(f: Finding)
      modifies this`findings
      ensures findings == old(findings) + [f]
    {
      findings := findings + [f];
    }

    method PushWhen(b: bool, f: Finding)
      modifies this`findings
      ensures findings == old(findings) + When(b, f)
    {
      if b {
        findings := findings + [f];
      }
    }
  }

  /** The evidence about one run block.  A new block replaces all of it. */
  class RunPass {
    const run: RunId
    const declaredSeal: Option<Digest>
    const sealed: bool
    const index: Option<nat>
    const proof: Option<seq<Digest>>
    var prev: Digest
    var lastSeq: nat
    var records: nat
    var resealed: seq<Record>
    var clean: bool

    constructor (f: RunFields, named: RunId)
      ensures View() == OpenPass(f, named)
    {
      var placed := Placed(f);
      run := named;
      declaredSeal := match placed case Some(at) => Some(at.1) case None => None;
      sealed := placed.Some?;
      index := if f.index.Given? then Some(f.index.value) else None;
      proof := f.proof;
      prev, lastSeq, records, resealed := ZERO, 0, 0, [];
      clean := !(ClaimsPlace(f) && placed.None?);
    }

    function View(): Pass
      reads this
    {
      Pass(run, declaredSeal, sealed, index, proof, prev, lastSeq, records, resealed, clean)
    }

    /** Carry the head and the sequence forward over the bytes present. */
    method Advance(c: Codec, raw: Bytes, at: nat)
      modifies this
      ensures View() == WalkOver(c, old(View()), raw, at)
    {
      clean := false;
      prev := Chain(c.hash, prev, raw);
      lastSeq := at;
    }
  }

  // ── A record line ──────────────────────────────────────────────────────

  method EditedRecord(c: Codec, raw: Bytes, pass: RunPass, report: VerifyReport)
    modifies pass, report`findings
    ensures var at := SeqOr(c, raw, old(pass.lastSeq) + 1);
            pass.View() == WalkOver(c, old(pass.View()), raw, at) &&
            report.findings == old(report.findings) + [Edited(pass.run, at)]
  {
    hide Chain, SeqOr;
    var at := SeqOr(c, raw, pass.lastSeq + 1);
    report.Push(Edited(pass.run, at));
    pass.Advance(c, raw, at);
  }

  method UncanonicalRecord(c: Codec, raw: Bytes, pass: RunPass, report: VerifyReport)
    modifies pass, report`findings
    ensures var at := SeqOr(c, raw, old(pass.lastSeq) + 1);
            pass.View() == WalkOver(c, old(pass.View()), raw, at) &&
            report.findings == old(report.findings) + [NotCanonical(pass.run, at)]
  {
    hide Chain, SeqOr;
    var at := SeqOr(c, raw, pass.lastSeq + 1);
    report.Push(NotCanonical(pass.run, at));
    pass.Advance(c, raw, at);
  }

  method UnreadRecord(c: Codec, raw: Bytes, pass: RunPass, report: VerifyReport)
    requires !c.read(raw).Readable?
    modifies pass, report`findings
    ensures pass.View() == JudgeUnread(c, old(pass.View()), raw).pass
    ensures report.findings == old(report.findings) + JudgeUnread(c, old(pass.View()), raw).found
  {
    hide Chain;
    if c.read(raw).UnknownVersion? {
      report.Push(VersionSkew(pass.run, SeqOr(c, raw, pass.lastSeq + 1)));
    } else if c.read(raw).UnreadableShape? {
      report.Push(ShapeSkew(pass.run));
    } else {
      report.Push(MalformedRecord(pass.run));
    }
    pass.clean := false;
    pass.prev := Chain(c.hash, pass.prev, raw);
    var at := c.seqOf(raw);
    if at.Some? {
      pass.lastSeq := at.value;
    }
  }

  lemma Regroup(a: seq<Finding>, b: seq<Finding>, d: seq<Finding>)
    ensures a + b + d == a + (b + d)
  {
  }

  lemma DisagreementsAre(c: Codec, f: RecordFields, p: Pass, raw: Bytes, body: Body)
    ensures Disagreements(c, f, p, raw, body) ==
            When(f.body != Some(WireJson(c, raw)), DisplayEdited(p.run, body.seq_)) +
            When(f.prevHash != Some(p.prev) || f.seq_ != Some(body.seq_), CopyEdited(p.run, body.seq_)) +
            When(body.run != p.run, Relabelled(p.run, body.run)) +
            When(body.seq_ != p.lastSeq + 1, SeqGap(p.run, body.seq_, p.lastSeq)) +
            When(body.kind.RunConcluded? && body.kind.chainHead != p.prev, ForeignHead(p.run))
  {
    hide When, WireJson;
  }

  /** Everything the line's copies, the run's name, the sequence and a sealing
      claim say against the bytes, filed one by one. */
  method FileDisagreements(c: Codec, f: RecordFields, raw: Bytes, body: Body, pass: RunPass, report: VerifyReport)
    modifies report`findings
    ensures report.findings == old(report.findings) + Disagreements(c, f, pass.View(), raw, body)
  {
    hide When, WireJson, Disagreements;
    DisagreementsAre(c, f, pass.View(), raw, body);
    var shown, copied := f.body != Some(WireJson(c, raw)), f.prevHash != Some(pass.prev) || f.seq_ != Some(body.seq_);
    var moved, gap := body.run != pass.run, body.seq_ != pass.lastSeq + 1;
    var foreign := body.kind.RunConcluded? && body.kind.chainHead != pass.prev;
    ghost var d1, d2 := When(shown, DisplayEdited(pass.run, body.seq_)), When(copied, CopyEdited(pass.run, body.seq_));
    ghost var d3, d4 := When(moved, Relabelled(pass.run, body.run)), When(gap, SeqGap(pass.run, body.seq_, pass.lastSeq));
    ghost var d5 := When(foreign, ForeignHead(pass.run));
    ghost var before := report.findings;
    report.PushWhen(shown, DisplayEdited(pass.run, body.seq_));
    report.PushWhen(copied, CopyEdited(pass.run, body.seq_));
    Regroup(before, d1, d2);
    report.PushWhen(moved, Relabelled(pass.run, body.run));
    Regroup(before, d1 + d2, d3);
    report.PushWhen(gap, SeqGap(pass.run, body.seq_, pass.lastSeq));
    Regroup(before, d1 + d2 + d3, d4);
    report.PushWhen(foreign, ForeignHead(pass.run));
    Regroup(before, d1 + d2 + d3 + d4, d5);
  }

  /** Rehash one record's bytes and hold everything beside them to the bytes. */
  method JudgeLine(c: Codec, f: RecordFields, pass: RunPass, report: VerifyReport, stamped: set<CaseId>)
    returns (stamped': set<CaseId>)
    modifies pass, report`findings
    ensures pass.View() == JudgeRecord(c, f, old(pass.View())).pass
    ensures report.findings == old(report.findings) + JudgeRecord(c, f, old(pass.View())).found
    ensures stamped' == stamped + (match JudgeRecord(c, f, old(pass.View())).stamp case Some(id) => {id} case None => {})
  {
    hide Disagreements, Uncanonical, Chain, JudgeUnread, JudgeRead, SeqOr, WalkOver;
    stamped' := stamped;
    pass.records := pass.records + 1;
    if f.raw.None? || f.hash.None? {
      report.Push(NoWireBytes(pass.run));
      pass.clean := false;
    } else if Chain(c.hash, pass.prev, f.raw.value) != f.hash.value {
      EditedRecord(c, f.raw.value, pass, report);
    } else if Uncanonical(c, f.raw.value) {
      UncanonicalRecord(c, f.raw.value, pass, report);
    } else if !c.read(f.raw.value).Readable? {
      UnreadRecord(c, f.raw.value, pass, report);
      UnreadStampsNothing(c, f.raw.value);
    } else {
      stamped' := TakeRecord(c, f, f.raw.value, f.hash.value, pass, report, stamped);
    }
  }

  lemma UnreadStampsNothing(c: Codec, raw: Bytes)
    ensures forall p: Pass :: JudgeUnread(c, p, raw).stamp.None?
  {
  }

  /** The record's bytes hash, are canonical and read: file what disagrees with
      them, and move on to the next. */
  method TakeRecord(c: Codec, f: RecordFields, raw: Bytes, claimed: Digest, pass: RunPass, report: VerifyReport,
                    stamped: set<CaseId>)
    returns (stamped': set<CaseId>)
    requires c.read(raw).Readable?
    modifies pass, report`findings
    ensures var j := JudgeRead(c, f, old(pass.View()), raw, claimed, c.read(raw).body);
            pass.View() == j.pass && report.findings == old(report.findings) + j.found &&
            stamped' == stamped + (match j.stamp case Some(id) => {id} case None => {})
  {
    hide Disagreements, Chain;
    stamped' := stamped;
    var body := c.read(raw).body;
    var before := |report.findings|;
    FileDisagreements(c, f, raw, body, pass, report);
    if |report.findings| > before {
      pass.clean := false;
    }
    if body.case_.Some? {
      stamped' := stamped' + {body.case_.value};
    }
    pass.lastSeq := body.seq_;
    pass.resealed := pass.resealed + [Record(body, pass.prev, claimed, f.signature, raw)];
    pass.prev := claimed;
  }

  // ── A run block ────────────────────────────────────────────────────────

  method FileClosing(c: Codec, keys: Option<SignatureCheck>, pass: RunPass, report: VerifyReport)
    modifies report`findings
    ensures report.findings ==
            old(report.findings) + ClosingFindings(c, keys, report.selection.Some?, report.checkpoint, pass.View())
  {
    var package := report.selection.Some?;
    var foreign := pass.declaredSeal.Some? && pass.declaredSeal.value != pass.prev;
    var stripped := package && !pass.sealed && HasSealingConclusion(pass.resealed);
    var unproved := package && pass.declaredSeal.Some? &&
                    !LeafIsProved(c.hash, pass.declaredSeal.value, pass.index, pass.proof, report.checkpoint);
    var unsigned := keys.Some? && !SignedHistory(c.hash, keys.value, pass.resealed);
    ghost var d1, d2 := When(foreign, LeafNotHead(pass.run)), When(stripped, StrippedLeaf(pass.run));
    ghost var d3, d4 := When(unproved, PathNotProved(pass.run)), When(unsigned, NotSigned(pass.run));
    ghost var before := report.findings;
    assert ClosingFindings(c, keys, package, report.checkpoint, pass.View()) == d1 + d2 + d3 + d4;
    hide When, LeafIsProved, SignedHistory, HasSealingConclusion, ClosingFindings;
    report.PushWhen(foreign, LeafNotHead(pass.run));
    report.PushWhen(stripped, StrippedLeaf(pass.run));
    Regroup(before, d1, d2);
    report.PushWhen(unproved, PathNotProved(pass.run));
    Regroup(before, d1 + d2, d3);
    report.PushWhen(unsigned, NotSigned(pass.run));
    Regroup(before, d1 + d2 + d3, d4);
  }

  /** Close a run block.  A block with no records is not judged here: the
      trailer, which may not have been read yet, says what its absence means. */
  method CloseRun(c: Codec, keys: Option<SignatureCheck>, pass: RunPass, report: VerifyReport, readRuns: nat,
                  emptyBlocks: seq<RunId>)
    returns (readRuns': nat, emptyBlocks': seq<RunId>)
    modifies report`findings, report`sound
    ensures var p := pass.View();
            var found := ClosingFindings(c, keys, report.selection.Some?, report.checkpoint, p);
            if p.records == 0 then
              readRuns' == readRuns && emptyBlocks' == emptyBlocks + [p.run] &&
              report.findings == old(report.findings) && report.sound == old(report.sound)
            else
              readRuns' == readRuns + 1 && emptyBlocks' == emptyBlocks &&
              report.findings == old(report.findings) + found &&
              report.sound == old(report.sound) + (if p.clean && found == [] then [p.run] else [])
  {
    hide ClosingFindings;
    readRuns', emptyBlocks' := readRuns, emptyBlocks;
    if pass.records == 0 {
      emptyBlocks' := emptyBlocks + [pass.run];
      return;
    }
    readRuns' := readRuns + 1;
    var before := |report.findings|;
    FileClosing(c, keys, pass, report);
    if pass.clean && |report.findings| == before {
      report.sound := report.sound + [pass.run];
    }
  }

  /** `ClaimOnce`'s findings, and what it adds to both sets. */
  method ClaimPlace(pass: RunPass, blocksOf: set<RunId>, positions: set<nat>, report: VerifyReport)
    returns (blocksOf': set<RunId>, positions': set<nat>)
    modifies pass`clean, report`findings, report`sound
    ensures var p := old(pass.View());
            var again := p.run in blocksOf;
            var taken := p.sealed && p.index.Some? && p.index.value in positions;
            pass.View() == p.(clean := p.clean && !again && !taken) &&
            report.sound == (if again then Without(old(report.sound), p.run) else old(report.sound)) &&
            report.findings == old(report.findings) + (When(again, RunTwice(p.run)) +
              When(taken, PositionTwice(if p.index.Some? then p.index.value else 0))) &&
            blocksOf' == blocksOf + {p.run} &&
            positions' == positions + (if p.sealed && p.index.Some? then {p.index.value} else {})
  {
    hide Without;
    blocksOf', positions' := blocksOf + {pass.run}, positions;
    if pass.run in blocksOf {
      report.Push(RunTwice(pass.run));
      report.sound := Without(report.sound, pass.run);
      pass.clean := false;
    }
    if pass.sealed && pass.index.Some? {
      if pass.index.value in positions {
        report.Push(PositionTwice(pass.index.value));
        pass.clean := false;
      }
      positions' := positions + {pass.index.value};
    }
  }

  // ── Header, case and trailer lines ─────────────────────────────────────

  method TakeHeader(kind: HeaderKind, f: HeaderFields, report: VerifyReport)
    modifies report
    ensures report.View() == HeaderReport(old(report.View()), kind, f)
  {
    report.PushWhen(f.version != Some(FORMAT_VERSION), WrongVersion);
    report.unverifiable := f.canon != Some(CANON_VERSION);
    match f.checkpoint {
      case Given(cp) => report.checkpoint := cp;
      case Unreadable => report.Push(UnreadableCheckpoint);
      case Missing => report.Push(NoCheckpoint);
    }
    if !report.unverifiable && kind.DisclosurePackage? {
      TakeSelection(f, report);
    }
  }

  method TakeSelection(f: HeaderFields, report: VerifyReport)
    modifies report
    ensures report.View() == ReadSelection(old(report.View()), f)
  {
    var named := f.selection.Some? && !(f.selection.value.cases == [] && f.selection.value.runs == []);
    report.PushWhen(!named, EmptySelection);
    report.selection := Some(if named then f.selection.value else Selection([], []));
  }

  method ReadCaseBlock(f: CaseFields, report: VerifyReport, carried: set<CaseId>) returns (carried': set<CaseId>)
    modifies report
    ensures report.View() == CaseReport(old(report.View()), f)
    ensures carried' == carried + (match f.case_ case Some(k) => {k.id} case None => {})
  {
    report.cases := report.cases + 1;
    carried' := carried;
    if f.case_.Some? {
      carried' := carried + {f.case_.value.id};
    }
    ghost var d1, d2 := When(f.case_.None?, MalformedCase), When(f.deadlines.None?, MalformedDeadlines);
    ghost var d3, d4 := When(!f.hold.Given?, MalformedHold), When(!f.erasure.Given?, MalformedErasure);
    ghost var before := report.findings;
    hide When;
    report.PushWhen(f.case_.None?, MalformedCase);
    report.PushWhen(f.deadlines.None?, MalformedDeadlines);
    Regroup(before, d1, d2);
    report.PushWhen(!f.hold.Given?, MalformedHold);
    Regroup(before, d1 + d2, d3);
    report.PushWhen(!f.erasure.Given?, MalformedErasure);
    Regroup(before, d1 + d2 + d3, d4);
  }

  method TakeTrailer(f: TrailerFields, report: VerifyReport, claims: TrailerClaims) returns (claims': TrailerClaims)
    modifies report
    ensures report.View() == TrailerReport(old(report.View()), f)
    ensures claims' == TrailerClaims(f.runsRequested, f.runsExported, f.records, claims.unreadable + f.unreadable)
  {
    report.complete := true;
    if f.cases.Some? && f.cases.value != report.cases {
      report.Push(CaseCount(f.cases.value, report.cases));
    }
    claims' := TrailerClaims(f.runsRequested, f.runsExported, f.records, claims.unreadable + f.unreadable);
  }

  // ── The settlement ─────────────────────────────────────────────────────

  method HoldToAnchors(h: Hash, anchors: seq<Anchor>, leaves: seq<Leaf>, report: VerifyReport)
    modifies report`findings
    ensures report.findings == old(report.findings) + CompareAnchors(h, report.checkpoint, anchors, leaves)
  {
    hide PrefixRoot, When;
    for i := 0 to |anchors|
      invariant report.findings ==
                old(report.findings) + CompareAnchors(h, report.checkpoint, anchors[..i], leaves)
    {
      HoldToAnchor(h, anchors[i], leaves, report);
      assert anchors[..i + 1][..i] == anchors[..i];
    }
    assert anchors[..|anchors|] == anchors;
  }

  method HoldToAnchor(h: Hash, anchor: Anchor, leaves: seq<Leaf>, report: VerifyReport)
    modifies report`findings
    ensures report.findings == old(report.findings) + CompareAnchor(h, report.checkpoint, anchor, leaves)
  {
    hide PrefixRoot;
    var given := anchor.checkpoint;
    if given.origin != report.checkpoint.origin || given.size > report.checkpoint.size {
      report.Push(OtherHistory(anchor.obtainedFrom));
    } else if given.size == report.checkpoint.size {
      report.PushWhen(given.root != report.checkpoint.root, SecondHistory(anchor.obtainedFrom));
    } else {
      report.PushWhen(PrefixRoot(h, leaves, given.size) != Some(given.root), PrefixDiffers(anchor.obtainedFrom));
    }
  }

  method RebuildTree(h: Hash, leaves: seq<Leaf>, report: VerifyReport)
    modifies report`findings
    ensures report.findings == old(report.findings) + RebuiltTree(h, leaves, report.checkpoint)
  {
    hide Hashes, Root, Contiguous;
    if |leaves| == report.checkpoint.size {
      if Contiguous(leaves) {
        report.PushWhen(Root(h, Hashes(leaves)) != report.checkpoint.root, RootDiffers);
      } else {
        report.Push(PositionsNotContiguous);
      }
    } else {
      report.Push(LeafCount(|leaves|, report.checkpoint.size));
    }
  }

  method Settle(h: Hash, headerSeen: bool, unsorted: seq<Leaf>, anchors: seq<Anchor>, report: VerifyReport)
    modifies report`findings
    ensures report.findings == old(report.findings) + WholeFindings(h, headerSeen, unsorted, anchors, old(report.View()))
  {
    var leaves := Sorted(unsorted);
    ghost var d1 := if headerSeen then CompareAnchors(h, report.checkpoint, anchors, leaves) else [];
    ghost var d2, d3 := When(!headerSeen, NoHeader), RebuiltTree(h, leaves, report.checkpoint);
    ghost var d4 := When(!report.complete, NoTrailer);
    ghost var before := report.findings;
    assert WholeFindings(h, headerSeen, unsorted, anchors, report.View()) == d1 + d2 + d3 + d4;
    hide CompareAnchors, Sorted, RebuiltTree, When, WholeFindings;
    if headerSeen {
      HoldToAnchors(h, anchors, leaves, report);
    }
    assert report.findings == before + d1;
    report.PushWhen(!headerSeen, NoHeader);
    Regroup(before, d1, d2);
    RebuildTree(h, leaves, report);
    Regroup(before, d1 + d2, d3);
    report.PushWhen(!report.complete, NoTrailer);
    Regroup(before, d1 + d2 + d3, d4);
  }

  method SettlePackageFile(headerSeen: bool, anchors: seq<Anchor>, report: VerifyReport)
    modifies report`findings
    ensures report.findings == old(report.findings) + PackageFindings(headerSeen, anchors, old(report.View()))
  {
    ghost var d1, d2 := When(!headerSeen, NoHeader), ComparePackageAnchors(report.checkpoint, anchors);
    ghost var d3 := When(!report.complete, NoTrailer);
    ghost var before := report.findings;
    assert PackageFindings(headerSeen, anchors, report.View()) == d1 + d2 + d3;
    hide When, PackageFindings, ComparePackageAnchor;
    report.PushWhen(!headerSeen, NoHeader);
    for i := 0 to |anchors|
      invariant report.findings == before + d1 + ComparePackageAnchors(report.checkpoint, anchors[..i])
    {
      HoldPackageToAnchor(anchors[i], report);
      assert anchors[..i + 1][..i] == anchors[..i];
    }
    assert anchors[..|anchors|] == anchors;
    Regroup(before, d1, d2);
    report.PushWhen(!report.complete, NoTrailer);
    Regroup(before, d1 + d2, d3);
  }

  method HoldPackageToAnchor(anchor: Anchor, report: VerifyReport)
    modifies report`findings
    ensures report.findings == old(report.findings) + ComparePackageAnchor(report.checkpoint, anchor)
  {
    var given := anchor.checkpoint;
    if given.origin != report.checkpoint.origin {
      report.Push(OtherHistory(anchor.obtainedFrom));
    } else if given.size == report.checkpoint.size && given.root != report.checkpoint.root {
      report.Push(SecondHistory(anchor.obtainedFrom));
    }
  }

  method SettleCounts(claims: TrailerClaims, runBlocks: nat, readRuns: nat, emptyBlocks: seq<RunId>,
                      report: VerifyReport)
    modifies report`findings
    ensures report.findings == old(report.findings) +
              (UndeclaredEmpty(emptyBlocks, claims.unreadable) +
                  CountFindings(claims, runBlocks, readRuns, old(report.View())))
  {
    hide When, CountFindings;
    for i := 0 to |emptyBlocks|
      invariant report.findings == old(report.findings) + UndeclaredEmpty(emptyBlocks[..i], claims.unreadable)
    {
      report.PushWhen(emptyBlocks[i] !in claims.unreadable, EmptyBlock(emptyBlocks[i]));
      assert emptyBlocks[..i + 1][..i] == emptyBlocks[..i];
    }
    assert emptyBlocks[..|emptyBlocks|] == emptyBlocks;
    HoldCounts(claims, runBlocks, readRuns, report);
    CountsIgnoreFindings(claims, runBlocks, readRuns, report.View(), old(report.View()));
  }

  lemma CountsIgnoreFindings(claims: TrailerClaims, runBlocks: nat, readRuns: nat, r: Report, t: Report)
    requires r.complete == t.complete && r.records == t.records
    ensures CountFindings(claims, runBlocks, readRuns, r) == CountFindings(claims, runBlocks, readRuns, t)
  {
  }

  method HoldCounts(claims: TrailerClaims, runBlocks: nat, readRuns: nat, report: VerifyReport)
    modifies report`findings
    ensures report.findings == old(report.findings) + CountFindings(claims, runBlocks, readRuns, report.View())
  {
    if !report.complete {
      return;
    }
    if claims.runsRequested.None? || claims.runsExported.None? || claims.records.None? {
      report.Push(MissingCounts);
      return;
    }
    var requested, exported, records := claims.runsRequested.value, claims.runsExported.value, claims.records.value;
    report.PushWhen(requested != runBlocks, RunCount(requested, runBlocks));
    report.PushWhen(exported != readRuns, ExportedCount(exported, readRuns));
    report.PushWhen(records != report.records, RecordCount(records, report.records));
  }

  method SettleCaseLayer(stamped: set<CaseId>, carried: set<CaseId>, report: VerifyReport)
    modifies report`findings
    ensures report.findings == old(report.findings) + CaseFindings(stamped, carried, report.selection)
  {
    hide Least, When;
    var missing := stamped - carried;
    while missing != {}
      invariant report.findings + CasesMissing(missing) == old(report.findings) + CasesMissing(stamped - carried)
      decreases |missing|
    {
      missing := FileLeast(missing, report);
    }
    assert report.findings == old(report.findings) + CasesMissing(stamped - carried);
    if report.selection.Some? {
      var selected := report.selection.value.cases;
      for i := 0 to |selected|
        invariant report.findings ==
                  old(report.findings) + CasesMissing(stamped - carried) + SelectedMissing(selected[..i], carried)
      {
        report.PushWhen(selected[i] !in carried, SelectedCaseMissing(selected[i]));
        assert selected[..i + 1][..i] == selected[..i];
      }
      assert selected[..|selected|] == selected;
    }
  }

  method FileLeast(missing: set<CaseId>, report: VerifyReport) returns (rest: set<CaseId>)
    requires missing != {}
    modifies report`findings
    ensures |rest| < |missing|
    ensures report.findings + CasesMissing(rest) == old(report.findings) + CasesMissing(missing)
  {
    hide Least;
    var id := Least(missing);
    report.Push(CaseMissing(id));
    rest := missing - {id};
    assert CasesMissing(missing) == [CaseMissing(id)] + CasesMissing(rest);
  }

  // ── The pass ───────────────────────────────────────────────────────────

  /** A pass that reads nothing further stays as it is. */
  lemma {:induction false} HaltedStays(c: Codec, keys: Option<SignatureCheck>, s: Scan, lines: seq<Line>)
    requires s.halted
    ensures Scanned(c, keys, s, lines) == s
  {
    hide ReadRun, ReadRecord, ReadHeader;
    if lines != [] {
      HaltedStays(c, keys, s, lines[..|lines| - 1]);
    }
  }

  lemma {:induction false} ScannedThrough(c: Codec, keys: Option<SignatureCheck>, lines: seq<Line>, i: nat)
    requires i < |lines|
    ensures Scanned(c, keys, Start, lines[..i + 1]) == Step(c, keys, Scanned(c, keys, Start, lines[..i]), lines[i])
    ensures Scanned(c, keys, Start, lines[..i + 1]).halted ==>
              Scanned(c, keys, Start, lines) == Scanned(c, keys, Start, lines[..i + 1])
  {
    hide Step, Scanned;
    assert lines[..i + 1] == lines[..i] + [lines[i]];
    ScannedOfAppend(c, keys, Start, lines[..i], lines[i]);
    if Scanned(c, keys, Start, lines[..i + 1]).halted {
      assert lines == lines[..i + 1] + lines[i + 1..];
      ScannedOfConcat(c, keys, Start, lines[..i + 1], lines[i + 1..]);
      HaltedStays(c, keys, Scanned(c, keys, Start, lines[..i + 1]), lines[i + 1..]);
    }
  }

  lemma FinishScan(c: Codec, keys: Option<SignatureCheck>, s: Scan)
    ensures var t := FinishRun(c, keys, s);
            match s.pass
            case None => t == s
            case Some(p) =>
              var found := ClosingFindings(c, keys, s.report.selection.Some?, s.report.checkpoint, p);
              if p.records == 0 then
                t == s.(pass := None, emptyBlocks := s.emptyBlocks + [p.run], closed := s.closed + [p])
              else
                t == s.(pass := None, readRuns := s.readRuns + 1, closed := s.closed + [p],
                        report := s.report.(findings := s.report.findings + found,
                                            sound := s.report.sound + (if p.clean && found == [] then [p.run] else [])))
  {
    hide ClosingFindings;
  }

  /** What a pass holds between two lines, and how each kind of line moves it. */
  class VerifyPass {
    const c: Codec
    const keys: Option<SignatureCheck>
    const report: VerifyReport
    var pass: RunPass?
    var headerSeen: bool
    var first: bool
    var halted: bool
    var leaves: seq<Leaf>
    var runBlocks: nat
    var readRuns: nat
    var emptyBlocks: seq<RunId>
    var claims: TrailerClaims
    var stamped: set<CaseId>
    var carried: set<CaseId>
    var blocksOf: set<RunId>
    var positions: set<nat>
    var observed: seq<Pass>

    constructor (codec: Codec, check: Option<SignatureCheck>)
      ensures c == codec && keys == check && fresh(report) && pass == null
      ensures View() == Start
    {
      report := new VerifyReport();
      c, keys, pass := codec, check, null;
      headerSeen, first, halted, leaves, runBlocks, readRuns := false, true, false, [], 0, 0;
      emptyBlocks, claims, stamped, carried := [], TrailerClaims(None, None, None, []), {}, {};
      blocksOf, positions, observed := {}, {}, [];
    }

    function Open(): Option<Pass>
      reads this, pass
    {
      if pass == null then None else Some(pass.View())
    }

    function View(): Scan
      reads this, report, pass
    {
      Scan(report.View(), headerSeen, first, halted, leaves, Open(), runBlocks, readRuns, emptyBlocks, claims,
           stamped, carried, blocksOf, positions, observed)
    }

    /** Close the open block. */
    method CloseBlock()
      modifies this, report
      ensures pass == null && View() == FinishRun(c, keys, old(View()))
    {
      hide ClosingFindings, FinishRun;
      FinishScan(c, keys, View());
      if pass != null {
        observed := observed + [pass.View()];
        readRuns, emptyBlocks := CloseRun(c, keys, pass, report, readRuns, emptyBlocks);
        pass := null;
      }
    }

    /** Open a block for the run it names, its leaf collected for the tree. */
    method OpenBlock(f: RunFields)
      requires pass == null
      modifies this, report
      ensures pass == null || fresh(pass)
      ensures View() == OpenRunBlock(c, old(View()), f)
    {
      hide OpenPass, LeafHashOf;
      if f.run.Some? {
        var placed := Placed(f);
        report.PushWhen(ClaimsPlace(f) && placed.None?, HalfPlaced(f.run.value));
        if placed.Some? {
          leaves := leaves + [(placed.value.0, LeafHashOf(c.hash, placed.value.1))];
        }
        pass := new RunPass(f, f.run.value);
      }
    }

    /** `ClaimOnce`, for the block just opened. */
    method Claim()
      modifies this, report, pass
      ensures pass == old(pass) && View() == ClaimOnce(old(View()))
    {
      hide Without, When;
      if pass != null {
        blocksOf, positions := ClaimPlace(pass, blocksOf, positions, report);
      }
    }

    method Run(f: RunFields)
      requires !halted
      modifies this, report
      ensures pass == null || fresh(pass)
      ensures View() == Step(c, keys, old(View()), RunLine(f))
    {
      hide FinishRun, OpenRunBlock, ClaimOnce;
      first := false;
      runBlocks := runBlocks + 1;
      CloseBlock();
      OpenBlock(f);
      Claim();
    }

    /** A record line counts, and belongs to the open block if there is one. */
    method Record(f: RecordFields)
      requires !halted
      modifies this, report, pass
      ensures pass == old(pass)
      ensures View() == ReadRecord(c, old(View()).(first := false), f)
    {
      hide JudgeRecord;
      first := false;
      report.records := report.records + 1;
      if pass == null {
        report.Push(OrphanRecord);
      } else {
        stamped := JudgeLine(c, f, pass, report, stamped);
      }
    }

    /** Only the first line may be a header. */
    method Header(kind: HeaderKind, f: HeaderFields)
      requires !halted
      modifies this, report
      ensures pass == old(pass) && View() == Step(c, keys, old(View()), HeaderLine(kind, f))
    {
      hide HeaderReport, ReadRun, ReadRecord, ReadCase, ReadTrailer;
      if !first {
        report.Push(LateHeader);
      } else {
        first, headerSeen := false, true;
        TakeHeader(kind, f, report);
        halted := report.unverifiable;
      }
    }

    method Case(f: CaseFields)
      requires !halted
      modifies this, report
      ensures pass == old(pass) && View() == Step(c, keys, old(View()), CaseLine(f))
    {
      hide CaseReport;
      first := false;
      carried := ReadCaseBlock(f, report, carried);
    }

    method End(f: TrailerFields)
      requires !halted
      modifies this, report
      ensures pass == old(pass) && View() == Step(c, keys, old(View()), EndLine(f))
    {
      hide TrailerReport;
      first := false;
      claims := TakeTrailer(f, report, claims);
    }

    method Garbage()
      requires !halted
      modifies this, report
      ensures pass == old(pass) && View() == Step(c, keys, old(View()), NotJson)
    {
      first := false;
      report.Push(NotJsonLine);
      halted := true;
    }

    method Line(line: Line)
      requires !halted
      modifies this, report, pass
      ensures pass == null || pass == old(pass) || fresh(pass)
      ensures View() == Step(c, keys, old(View()), line)
    {
      hide ReadRecord, ReadRun, ReadHeader, ReadCase, ReadTrailer;
      match line {
        case Blank =>
        case NotJson => Garbage();
        case HeaderLine(kind, f) => Header(kind, f);
        case RunLine(f) => Run(f);
        case RecordLine(f) => Record(f);
        case UnknownLine(f, _) => Record(f);
        case CaseLine(f) => Case(f);
        case EndLine(f) => End(f);
      }
    }

    /** Everything that can only be checked once the file has been read. */
    method SettleAll(anchors: seq<Anchor>)
      modifies report
      ensures report.View() == Settled(c, old(View()), anchors)
    {
      ghost var s := View();
      ghost var d1 := if s.report.selection.Some? then SettlePackage(s, anchors) else SettleWhole(c.hash, s, anchors);
      ghost var d2, d3 := SettleTrailer(s), SettleCases(s);
      ghost var before := report.findings;
      assert Settled(c, s, anchors) == s.report.(findings := before + (d1 + d2 + d3));
      hide WholeFindings, PackageFindings, UndeclaredEmpty, CountFindings, CaseFindings, Settled;
      if report.selection.Some? {
        SettlePackageFile(headerSeen, anchors, report);
      } else {
        Settle(c.hash, headerSeen, leaves, anchors, report);
      }
      assert report.findings == before + d1;
      CountsIgnoreFindings(claims, runBlocks, readRuns, report.View(), s.report);
      SettleCounts(claims, runBlocks, readRuns, emptyBlocks, report);
      Regroup(before, d1, d2);
      SettleCaseLayer(stamped, carried, report);
      Regroup(before, d1 + d2, d3);
    }
  }

  /** Recompute an export from its own bytes and settle it.  `observed` is what
      the observer is handed, block by block as each closes. */
  method VerifyObserved(c: Codec, keys: Option<SignatureCheck>, anchors: seq<Anchor>, lines: seq<Line>)
    returns (report: VerifyReport, observed: seq<Pass>)
    ensures fresh(report)
    ensures report.View() == Verify(c, keys, anchors, lines)
    ensures observed == ScanAll(c, keys, lines).closed
  {
    hide Scanned, Step, Start, Settled, FinishRun;
    var v := new VerifyPass(c, keys);
    assert lines[..0] == [];
    ScannedOfNone(c, keys);
    var i := 0;
    while i < |lines| && !v.halted
      invariant 0 <= i <= |lines| && v.c == c && v.keys == keys
      invariant fresh(v) && fresh(v.report) && (v.pass == null || fresh(v.pass))
      invariant v.View() == Scanned(c, keys, Start, lines[..i])
      invariant v.halted ==> v.View() == Scanned(c, keys, Start, lines)
    {
      ScannedThrough(c, keys, lines, i);
      v.Line(lines[i]);
      i := i + 1;
    }
    assert lines[..|lines|] == lines;
    if !v.report.unverifiable {
      v.CloseBlock();
      if v.report.unverifiable {
        assert false by { FinishKeepsTheRule(c, keys, Scanned(c, keys, Start, lines)); }
      }
      v.SettleAll(anchors);
    }
    report, observed := v.report, v.observed;
  }

  lemma ScannedOfNone(c: Codec, keys: Option<SignatureCheck>)
    ensures Scanned(c, keys, Start, []) == Start && !Start.halted
  {
  }

  lemma FinishKeepsTheRule(c: Codec, keys: Option<SignatureCheck>, s: Scan)
    ensures FinishRun(c, keys, s).report.unverifiable == s.report.unverifiable
  {
    hide ClosingFindings;
  }
}
