/** Grader sidecars: what a verdict's binding names, and when a later file still
    holds it. */
module GraderVerdicts {
  import opened Wrappers
  import opened Hashing
  import opened Wire
  import opened VerifySpec
  import opened Blocks
  import opened SoundList
  import opened Verifier

  /** A verdict and the prefix it names.  With `open_` false it claims more: that
      `lastSeq` is where the log's leaf was drawn. */
  datatype Sidecar = Sidecar(run: RunId, lastSeq: nat, lastHash: Digest, open_: bool, content: Bytes,
                             signature: Option<Signature>)

  /** Whether a signature over a sidecar, its own signature aside, verifies. */
  type GraderCheck = (Sidecar, Signature) -> bool

  datatype BindError = NoSuchRun | NotSound | NoSuchRecord(lastSeq: nat)

  datatype Component = FormatPart | RunPart | SoundnessPart | LastSeqPart | LastHashPart | OpenPart | SignaturePart

  datatype Status = Bound | Refused(component: Component) | NotChecked

  datatype SidecarReport = SidecarReport(run: Option<RunId>, status: Status, warrant: Option<Option<Digest>>,
                                         recordsPastPrefix: nat)

  /** By run, whether the last block of it was placed, and the records read there. */
  type Seen = map<RunId, (bool, seq<Record>)>

  function SeenOf(closed: seq<Pass>, wanted: seq<RunId>): Seen {
    if closed == [] then map[]
    else
      var p := closed[|closed| - 1];
      var before := SeenOf(closed[..|closed| - 1], wanted);
      if p.run in wanted then before[p.run := (p.sealed, p.resealed)] else before
  }

  method ObserveRuns(c: Codec, keys: Option<SignatureCheck>, anchors: seq<Anchor>, lines: seq<Line>, wanted: seq<RunId>)
    returns (report: VerifyReport, seen: Seen)
    ensures fresh(report) && report.View() == Verify(c, keys, anchors, lines)
    ensures seen == SeenOf(ScanAll(c, keys, lines).closed, wanted)
  {
    hide ScanAll, Verify;
    var observed;
    report, observed := VerifyObserved(c, keys, anchors, lines);
    seen := map[];
    assert observed[..0] == [];
    for i := 0 to |observed|
      invariant seen == SeenOf(observed[..i], wanted)
    {
      assert observed[..i + 1][..i] == observed[..i];
      if observed[i].run in wanted {
        seen := seen[observed[i].run := (observed[i].sealed, observed[i].resealed)];
      }
    }
    assert observed[..|observed|] == observed;
  }

  // ── Records by sequence ────────────────────────────────────────────────

  /** The first record at a sequence number. */
  function FindAt(records: seq<Record>, at: nat): Option<Record> {
    if records == [] then None
    else
      var earlier := FindAt(records[..|records| - 1], at);
      if earlier.Some? then earlier
      else if records[|records| - 1].body.seq_ == at then Some(records[|records| - 1])
      else None
  }

  method FindRecord(records: seq<Record>, at: nat) returns (found: Option<Record>)
    ensures found == FindAt(records, at)
  {
    assert records[..0] == [];
    for i := 0 to |records|
      invariant FindAt(records[..i], at).None?
    {
      assert records[..i + 1][..i] == records[..i];
      if records[i].body.seq_ == at {
        FoundStays(records, i + 1, at);
        return Some(records[i]);
      }
    }
    assert records[..|records|] == records;
    return None;
  }

  lemma {:induction false} FoundStays(records: seq<Record>, n: nat, at: nat)
    requires n <= |records| && FindAt(records[..n], at).Some?
    ensures FindAt(records, at) == FindAt(records[..n], at)
  {
    if n < |records| {
      assert records[..|records| - 1][..n] == records[..n];
      FoundStays(records[..|records| - 1], n, at);
    } else {
      assert records[..n] == records;
    }
  }

  function LastSeqOf(records: seq<Record>): nat {
    if records == [] then 0 else records[|records| - 1].body.seq_
  }

  /** The records up to the first one past `last`. */
  function UpTo(records: seq<Record>, last: nat): seq<Record> {
    if records == [] || records[0].body.seq_ > last then [] else [records[0]] + UpTo(records[1..], last)
  }

  /** What the first admission among them was governed by. */
  function FirstWarrant(records: seq<Record>): Option<Option<Digest>> {
    if records == [] then None
    else if records[0].body.kind.RunAdmitted? then Some(records[0].body.kind.governedBy)
    else FirstWarrant(records[1..])
  }

  // ── Binding and checking ───────────────────────────────────────────────

  function BindTo(seen: Seen, sound: seq<RunId>, run: RunId, lastSeq: Option<nat>, content: Bytes): Result<Sidecar,
                  BindError> {
    if run !in seen then Err(NoSuchRun)
    else if run !in sound then Err(NotSound)
    else
      var records := seen[run].1;
      var at := match lastSeq case Some(n) => n case None => LastSeqOf(records);
      match FindAt(records, at)
      case None => Err(NoSuchRecord(at))
      case Some(r) => Ok(Sidecar(run, at, r.hash, !(seen[run].0 && at == LastSeqOf(records)), content, None))
  }

  method Bind(c: Codec, lines: seq<Line>, run: RunId, lastSeq: Option<nat>, content: Bytes)
    returns (r: Result<Sidecar, BindError>)
    ensures r == BindTo(SeenOf(ScanAll(c, None, lines).closed, [run]), Verify(c, None, [], lines).sound, run,
        lastSeq, content)
  {
    hide ScanAll, Verify, SeenOf;
    var report, seen := ObserveRuns(c, None, [], lines, [run]);
    if run !in seen {
      return Err(NoSuchRun);
    }
    if run !in report.sound {
      return Err(NotSound);
    }
    var records := seen[run].1;
    var at := match lastSeq case Some(n) => n case None => LastSeqOf(records);
    var found := FindRecord(records, at);
    match found {
      case None => return Err(NoSuchRecord(at));
      case Some(record) =>
        return Ok(Sidecar(run, at, record.hash, !(seen[run].0 && at == LastSeqOf(records)), content, None));
    }
  }

  /** The first component of the binding that does not hold. */
  function BindingFault(s: Sidecar, sound: seq<RunId>, seen: Seen): Option<Component> {
    if s.run !in seen then Some(RunPart)
    else if s.run !in sound then Some(SoundnessPart)
    else
      var records := seen[s.run].1;
      match FindAt(records, s.lastSeq)
      case None => Some(LastSeqPart)
      case Some(r) =>
        if r.hash != s.lastHash then Some(LastHashPart)
        else if !s.open_ && (!seen[s.run].0 || LastSeqOf(records) != s.lastSeq) then Some(OpenPart)
        else None
  }

  /** What a check answers: the first part of the binding that fails, or the
      signature's; and, of a binding that holds, the declaration the prefix was
      admitted under and how many records stand past it. */
  predicate Answers(s: Option<Sidecar>, sound: seq<RunId>, seen: Seen, graders: Option<GraderCheck>,
                    out_: SidecarReport)
  {
    match s
    case None => out_ == SidecarReport(None, Refused(FormatPart), None, 0)
    case Some(sidecar) =>
      out_.run == Some(sidecar.run) &&
      match BindingFault(sidecar, sound, seen)
      case Some(part) => out_.status == Refused(part) && out_.warrant.None? && out_.recordsPastPrefix == 0
      case None =>
        var records := seen[sidecar.run].1;
        (graders.None? <==> out_.status == NotChecked) &&
        (out_.status == Bound <==>
         graders.Some? && sidecar.signature.Some? &&
         graders.value(sidecar.(signature := None), sidecar.signature.value)) &&
        (out_.status.Refused? ==> out_.status == Refused(SignaturePart)) &&
        out_.warrant == FirstWarrant(UpTo(records, sidecar.lastSeq)) &&
        out_.recordsPastPrefix ==
          (if LastSeqOf(records) > sidecar.lastSeq then LastSeqOf(records) - sidecar.lastSeq else 0)
  }

  method CheckOne(s: Sidecar, sound: seq<RunId>, seen: Seen, graders: Option<GraderCheck>) returns (out_: SidecarReport)
    ensures Answers(Some(s), sound, seen, graders, out_)
    ensures out_.status == Bound <==>
            BindingFault(s, sound, seen).None? && graders.Some? && s.signature.Some? &&
            graders.value(s.(signature := None), s.signature.value)
    ensures graders.None? ==> out_.status != Bound && out_.status != Refused(SignaturePart)
  {
    out_ := SidecarReport(Some(s.run), Refused(RunPart), None, 0);
    if s.run !in seen {
      return;
    }
    if s.run !in sound {
      return out_.(status := Refused(SoundnessPart));
    }
    var records := seen[s.run].1;
    var found := FindRecord(records, s.lastSeq);
    if found.None? {
      return out_.(status := Refused(LastSeqPart));
    }
    if found.value.hash != s.lastHash {
      return out_.(status := Refused(LastHashPart));
    }
    var last := LastSeqOf(records);
    if !s.open_ && (!seen[s.run].0 || last != s.lastSeq) {
      return out_.(status := Refused(OpenPart));
    }
    out_ := out_.(warrant := FirstWarrant(UpTo(records, s.lastSeq)),
                  recordsPastPrefix := if last > s.lastSeq then last - s.lastSeq else 0);
    if graders.None? {
      return out_.(status := NotChecked);
    }
    if s.signature.None? || !graders.value(s.(signature := None), s.signature.value) {
      return out_.(status := Refused(SignaturePart));
    }
    return out_.(status := Bound);
  }

  /** Each sidecar's report is what the runs observed by one pass make of it, and a
      sidecar that does not read is refused for its format. */
  method Check(c: Codec, keys: Option<SignatureCheck>, anchors: seq<Anchor>, lines: seq<Line>,
               sidecars: seq<Option<Sidecar>>, graders: Option<GraderCheck>)
    returns (report: VerifyReport, checked: seq<SidecarReport>)
    ensures fresh(report) && report.View() == Verify(c, keys, anchors, lines)
    ensures |checked| == |sidecars|
    ensures forall i :: 0 <= i < |sidecars| ==>
              Answers(sidecars[i], Verify(c, keys, anchors, lines).sound,
                      SeenOf(ScanAll(c, keys, lines).closed, Wanted(sidecars)), graders, checked[i])
    ensures forall i :: 0 <= i < |sidecars| && sidecars[i].None? ==>
              checked[i] == SidecarReport(None, Refused(FormatPart), None, 0)
  {
    hide ScanAll, Verify, SeenOf, BindingFault;
    var seen;
    report, seen := ObserveRuns(c, keys, anchors, lines, Wanted(sidecars));
    var sound := report.sound;
    checked := [];
    for i := 0 to |sidecars|
      invariant |checked| == i && fresh(report) && report.View() == Verify(c, keys, anchors, lines)
      invariant forall j :: 0 <= j < i ==> Answers(sidecars[j], sound, seen, graders, checked[j])
    {
      match sidecars[i] {
        case None => checked := checked + [SidecarReport(None, Refused(FormatPart), None, 0)];
        case Some(s) =>
          var one := CheckOne(s, sound, seen, graders);
          checked := checked + [one];
      }
    }
  }

  function Wanted(sidecars: seq<Option<Sidecar>>): seq<RunId> {
    if sidecars == [] then []
    else
      Wanted(sidecars[..|sidecars| - 1]) +
      (match sidecars[|sidecars| - 1] case Some(s) => [s.run] case None => [])
  }

  // ── What the pass shows of a sound run ─────────────────────────────────

  lemma {:induction false} SeenIsLast(closed: seq<Pass>, wanted: seq<RunId>, run: RunId, i: nat)
    requires i < |closed| && closed[i].run == run && run in wanted
    requires forall j :: 0 <= j < |closed| && closed[j].run == run ==> j == i
    ensures run in SeenOf(closed, wanted) && SeenOf(closed, wanted)[run] == (closed[i].sealed, closed[i].resealed)
  {
    var n := |closed| - 1;
    if i < n {
      SeenIsLast(closed[..n], wanted, run, i);
    }
  }

  /** A run's one sound history in a file: the bytes its block carries, and
      whether the block is placed. */
  ghost predicate Carried(c: Codec, keys: Option<SignatureCheck>, anchors: seq<Anchor>, lines: seq<Line>, run: RunId,
                          raws: seq<Bytes>, placed: bool)
  {
    exists i :: 0 <= i < |BlocksOf(lines)| &&
                OneHistory(c, keys, Verify(c, keys, anchors, lines), BlocksOf(lines), run, i) &&
                CarriedRaws(BlocksOf(lines)[i].lines) == raws && Placed(BlocksOf(lines)[i].header).Some? == placed
  }

  /** Record `j` of a history, as any reader of its bytes sees it. */
  ghost predicate ReadAt(c: Codec, raws: seq<Bytes>, records: seq<Record>, j: nat)
    requires j < |raws| && j < |records|
  {
    records[j].body.seq_ == j + 1 && records[j].raw == raws[j] && c.read(raws[j]) == Readable(records[j].body) &&
    records[j].hash == Head(c.hash, raws[..j + 1])
  }

  ghost predicate ReadAs(c: Codec, raws: seq<Bytes>, records: seq<Record>) {
    |records| == |raws| && forall j :: 0 <= j < |raws| ==> ReadAt(c, raws, records, j)
  }

  lemma {:induction false} RecomputedIsRead(c: Codec, run: RunId, lines: seq<RecordFields>, records: seq<Record>)
    requires Recomputes(c, run, lines) && Recomputed(c, lines, records)
    ensures ReadAs(c, CarriedRaws(lines), records)
  {
    hide LineHolds, RecordOf, ReadAt, Head;
    forall j | 0 <= j < |lines| ensures Carries(lines[j]) {
      LineCarries(c, run, lines, j);
    }
    CarriedLength(lines);
    forall j | 0 <= j < |lines| ensures ReadAt(c, CarriedRaws(lines), records, j) {
      LineIsRead(c, run, lines, records, j);
    }
  }

  lemma LineCarries(c: Codec, run: RunId, lines: seq<RecordFields>, j: nat)
    requires j < |lines| && LineHolds(c, run, lines, j)
    ensures Carries(lines[j])
  {
    hide Head, Chain, CarriedRaws, Uncanonical;
  }

  lemma {:induction false} LineIsRead(c: Codec, run: RunId, lines: seq<RecordFields>, records: seq<Record>, j: nat)
    requires j < |lines| && Recomputes(c, run, lines) && Recomputed(c, lines, records)
    requires |CarriedRaws(lines)| == |lines| && lines[j].raw == Some(CarriedRaws(lines)[j])
    requires forall i :: 0 <= i <= |lines| ==> CarriedRaws(lines)[..i] == CarriedRaws(lines[..i])
    ensures ReadAt(c, CarriedRaws(lines), records, j)
  {
    hide Head, Chain, CarriedRaws, Uncanonical;
    assert LineHolds(c, run, lines, j);
    var front := lines[..j];
    assert lines[..j + 1][..j] == front && lines[..j + 1][j] == lines[j];
    HeadOfAppend(c.hash, CarriedRaws(lines)[..j], CarriedRaws(lines)[j]);
    assert CarriedRaws(lines)[..j] + [CarriedRaws(lines)[j]] == CarriedRaws(lines)[..j + 1];
  }

  /** What the observer is shown of a sound run. */
  lemma {:induction false} SeenIsCarried(c: Codec, keys: Option<SignatureCheck>, anchors: seq<Anchor>, lines: seq<Line>,
                                         run: RunId, wanted: seq<RunId>, raws: seq<Bytes>, placed: bool)
    requires run in Verify(c, keys, anchors, lines).sound && run in wanted
    requires Carried(c, keys, anchors, lines, run, raws, placed)
    ensures var seen := SeenOf(ScanAll(c, keys, lines).closed, wanted);
            run in seen && seen[run].0 == placed && ReadAs(c, raws, seen[run].1) && raws != []
  {
    hide Verify, BlocksOf, OneHistory, ScanAll, PassAt, ReadAs, SeenOf, ListsExactly, LeavesOf;
    var blocks := BlocksOf(lines);
    var closed := ScanAll(c, keys, lines).closed;
    var i :| 0 <= i < |blocks| && OneHistory(c, keys, Verify(c, keys, anchors, lines), blocks, run, i) &&
             CarriedRaws(blocks[i].lines) == raws && Placed(blocks[i].header).Some? == placed;
    SoundWasRead(c, keys, anchors, lines, run);
    ScanAllTracks(c, keys, lines);
    HistoryIsOnly(c, keys, Verify(c, keys, anchors, lines), blocks, run, i);
    forall j | 0 <= j < |closed| ensures closed[j].run == blocks[j].run {
      PassNamesItsRun(c, blocks, j);
    }
    SeenIsLast(closed, wanted, run, i);
    PassReads(c, keys, Verify(c, keys, anchors, lines), blocks, run, i);
  }

  lemma {:induction false} SoundWasRead(c: Codec, keys: Option<SignatureCheck>, anchors: seq<Anchor>,
                                        lines: seq<Line>, run: RunId)
    requires run in Verify(c, keys, anchors, lines).sound
    ensures !ScanAll(c, keys, lines).report.unverifiable
  {
    hide ScanAll, Settled;
    ScanAllTracks(c, keys, lines);
  }

  lemma {:induction false} PassReads(c: Codec, keys: Option<SignatureCheck>, r: Report, blocks: seq<Block>,
                                     run: RunId, i: nat)
    requires OneHistory(c, keys, r, blocks, run, i)
    ensures var p := PassAt(c, blocks, i);
            p.sealed == Placed(blocks[i].header).Some? && ReadAs(c, CarriedRaws(blocks[i].lines), p.resealed) &&
            CarriedRaws(blocks[i].lines) != []
  {
    hide Head, ReadAs, LeafIsProved, SignedHistory, HasSealingConclusion, Fresh, ReadBlock, Recomputed, CarriedRaws;
    BlockReads(c, blocks[i]);
    RecomputedIsRead(c, run, blocks[i].lines, ReadBlock(c, blocks[i]).resealed);
    SomethingCarried(c, run, blocks[i].lines);
  }

  lemma SomethingCarried(c: Codec, run: RunId, lines: seq<RecordFields>)
    requires lines != [] && Recomputes(c, run, lines)
    ensures CarriedRaws(lines) != []
  {
    hide LineHolds;
    LineCarries(c, run, lines, |lines| - 1);
  }

  lemma {:induction false} FindInOrder(records: seq<Record>, at: nat)
    requires forall j :: 0 <= j < |records| ==> records[j].body.seq_ == j + 1
    ensures FindAt(records, at) == if 1 <= at <= |records| then Some(records[at - 1]) else None
  {
    if records != [] {
      FindInOrder(records[..|records| - 1], at);
    }
  }

  lemma FindInHistory(c: Codec, raws: seq<Bytes>, records: seq<Record>, at: nat)
    requires ReadAs(c, raws, records)
    ensures FindAt(records, at).Some? <==> 1 <= at <= |raws|
    ensures FindAt(records, at).Some? ==> FindAt(records, at).value.hash == Head(c.hash, raws[..at])
    ensures LastSeqOf(records) == |raws|
  {
    hide Head;
    forall j | 0 <= j < |records| ensures records[j].body.seq_ == j + 1 {
      assert ReadAt(c, raws, records, j);
    }
    FindInOrder(records, at);
    if 1 <= at <= |raws| {
      assert ReadAt(c, raws, records, at - 1);
    }
  }

  // ── The two theorems ───────────────────────────────────────────────────

  /** When a binding holds, in terms of the bytes the export carries. */
  lemma {:induction false} BindingHolds(c: Codec, keys: Option<SignatureCheck>, anchors: seq<Anchor>, lines: seq<Line>,
                                        sidecars: seq<RunId>, s: Sidecar, raws: seq<Bytes>, placed: bool)
    requires s.run in Verify(c, keys, anchors, lines).sound && s.run in sidecars
    requires Carried(c, keys, anchors, lines, s.run, raws, placed)
    ensures var r := Verify(c, keys, anchors, lines);
            BindingFault(s, r.sound, SeenOf(ScanAll(c, keys, lines).closed, sidecars)).None? <==>
            1 <= s.lastSeq <= |raws| && s.lastHash == Head(c.hash, raws[..s.lastSeq]) &&
            (!s.open_ ==> placed && |raws| == s.lastSeq)
  {
    hide Verify, Carried, ScanAll, SeenOf, ReadAs, Head, FindAt, LastSeqOf;
    SeenIsCarried(c, keys, anchors, lines, s.run, sidecars, raws, placed);
    FindInHistory(c, raws, SeenOf(ScanAll(c, keys, lines).closed, sidecars)[s.run].1, s.lastSeq);
  }

  /** What `bind` binds to, in terms of the bytes the export carries. */
  lemma {:induction false} BindBinds(c: Codec, lines: seq<Line>, run: RunId, lastSeq: Option<nat>, content: Bytes,
                                     raws: seq<Bytes>, placed: bool)
    requires run in Verify(c, None, [], lines).sound && Carried(c, None, [], lines, run, raws, placed)
    ensures var bound := BindTo(SeenOf(ScanAll(c, None, lines).closed, [run]), Verify(c, None, [], lines).sound, run,
        lastSeq, content);
            var at := if lastSeq.Some? then lastSeq.value else |raws|;
            (bound.Ok? <==> 1 <= at <= |raws|) && (bound.Err? ==> bound == Err(NoSuchRecord(at))) &&
            (bound.Ok? ==>
               bound.value == Sidecar(run, at, Head(c.hash, raws[..at]), !(placed && at == |raws|), content, None))
  {
    hide Verify, Carried, ScanAll, SeenOf, ReadAs, Head, FindAt, LastSeqOf;
    SeenIsCarried(c, None, [], lines, run, [run], raws, placed);
    FindInHistory(c, raws, SeenOf(ScanAll(c, None, lines).closed, [run])[run].1, |raws|);
    FindInHistory(c, raws, SeenOf(ScanAll(c, None, lines).closed, [run])[run].1,
        if lastSeq.Some? then lastSeq.value else |raws|);
  }

  /** `later` carries the run's history on from where `earlier` left it; one
      already sealed stays sealed and is not written to. */
  ghost predicate CarriesOn(earlier: seq<Bytes>, sealed: bool, later: seq<Bytes>, sealedLater: bool) {
    earlier <= later && (sealed ==> sealedLater && later == earlier)
  }

  /** The declaration a prefix of `n` records was admitted under: the first
      admission's among them. */
  ghost predicate WarrantedBy(c: Codec, raws: seq<Bytes>, n: nat, warrant: Option<Option<Digest>>) {
    if (exists i :: 0 <= i < n && IsAdmission(c, raws, i)) then
      exists i :: 0 <= i < n && IsAdmission(c, raws, i) && (forall j :: 0 <= j < i ==> !IsAdmission(c, raws, j)) &&
                  warrant == Some(c.read(raws[i]).body.kind.governedBy)
    else warrant == None
  }

  predicate IsAdmission(c: Codec, raws: seq<Bytes>, i: nat) {
    i < |raws| && c.read(raws[i]).Readable? && c.read(raws[i]).body.kind.RunAdmitted?
  }

  lemma {:induction false} UpToInOrder(records: seq<Record>, from: nat, last: nat)
    requires forall j :: 0 <= j < |records| ==> records[j].body.seq_ == from + j + 1
    requires from <= last
    ensures UpTo(records, last) == records[..if last - from < |records| then last - from else |records|]
  {
    if records != [] && from < last {
      UpToInOrder(records[1..], from + 1, last);
      assert records == [records[0]] + records[1..];
    }
  }

  lemma {:induction false} FirstWarrantMeans(records: seq<Record>) returns (i: nat)
    ensures i <= |records| && forall j :: 0 <= j < i ==> !records[j].body.kind.RunAdmitted?
    ensures i < |records| ==> records[i].body.kind.RunAdmitted? &&
                              FirstWarrant(records) == Some(records[i].body.kind.governedBy)
    ensures i == |records| ==> FirstWarrant(records) == None
  {
    i := 0;
    if records != [] && !records[0].body.kind.RunAdmitted? {
      var rest := FirstWarrantMeans(records[1..]);
      i := rest + 1;
    }
  }

  lemma {:induction false} PrefixIsWarranted(c: Codec, raws: seq<Bytes>, records: seq<Record>, n: nat)
    requires ReadAs(c, raws, records) && n <= |raws|
    ensures WarrantedBy(c, raws, n, FirstWarrant(UpTo(records, n)))
  {
    hide Head;
    forall j | 0 <= j < |records|
      ensures records[j].body.seq_ == j + 1 && (IsAdmission(c, raws, j) <==> records[j].body.kind.RunAdmitted?) &&
              c.read(raws[j]) == Readable(records[j].body)
    {
      assert ReadAt(c, raws, records, j);
    }
    UpToInOrder(records, 0, n);
    hide ReadAs, IsAdmission, UpTo, FirstWarrant;
    var i := FirstWarrantMeans(records[..n]);
    forall j | 0 <= j < i ensures !IsAdmission(c, raws, j) {
      assert records[..n][j] == records[j];
    }
    if i < n {
      assert IsAdmission(c, raws, i) && records[..n][i] == records[i];
    }
  }

  /** What a check answers for a run the export is sound for, in terms of the
      bytes it carries of it: which part is refused, when it is bound, what the
      prefix was admitted under and how much stands past it. */
  lemma {:induction false} AnswersMean(c: Codec, keys: Option<SignatureCheck>, anchors: seq<Anchor>, lines: seq<Line>,
                                       wanted: seq<RunId>, s: Sidecar, graders: Option<GraderCheck>, raws: seq<Bytes>,
                                       placed: bool, answer: SidecarReport)
    requires s.run in Verify(c, keys, anchors, lines).sound && s.run in wanted
    requires Carried(c, keys, anchors, lines, s.run, raws, placed)
    requires Answers(Some(s), Verify(c, keys, anchors, lines).sound, SeenOf(ScanAll(c, keys, lines).closed, wanted),
                     graders, answer)
    ensures var within := 1 <= s.lastSeq <= |raws|;
            var hashed := within && s.lastHash == Head(c.hash, raws[..s.lastSeq]);
            var bound := hashed && (!s.open_ ==> placed && |raws| == s.lastSeq);
            var signed := graders.Some? && s.signature.Some? &&
                          graders.value(s.(signature := None), s.signature.value);
            answer.status ==
              (if !within then Refused(LastSeqPart) else if !hashed then Refused(LastHashPart)
               else if !bound then Refused(OpenPart) else if graders.None? then NotChecked
               else if signed then Bound else Refused(SignaturePart)) &&
            answer.run == Some(s.run) &&
            (bound ==> answer.recordsPastPrefix == |raws| - s.lastSeq &&
                       WarrantedBy(c, raws, s.lastSeq, answer.warrant)) &&
            (!bound ==> answer.recordsPastPrefix == 0 && answer.warrant == None)
  {
    hide Verify, Carried, ScanAll, SeenOf, ReadAs, Head, FindAt, LastSeqOf, UpTo, FirstWarrant, WarrantedBy;
    SeenIsCarried(c, keys, anchors, lines, s.run, wanted, raws, placed);
    var records := SeenOf(ScanAll(c, keys, lines).closed, wanted)[s.run].1;
    FindInHistory(c, raws, records, s.lastSeq);
    if 1 <= s.lastSeq <= |raws| {
      PrefixIsWarranted(c, raws, records, s.lastSeq);
    }
  }

  /** And for a run it is not sound for: no block names it, or one does. */
  lemma {:induction false} UnsoundAnswers(c: Codec, keys: Option<SignatureCheck>, anchors: seq<Anchor>,
                                          lines: seq<Line>, wanted: seq<RunId>, s: Sidecar,
                                          graders: Option<GraderCheck>, answer: SidecarReport)
    requires s.run !in Verify(c, keys, anchors, lines).sound && s.run in wanted
    requires !Verify(c, keys, anchors, lines).unverifiable
    requires Answers(Some(s), Verify(c, keys, anchors, lines).sound, SeenOf(ScanAll(c, keys, lines).closed, wanted),
                     graders, answer)
    ensures answer.status == if exists i :: 0 <= i < |BlocksOf(lines)| && BlocksOf(lines)[i].run == s.run
                             then Refused(SoundnessPart) else Refused(RunPart)
    ensures answer.warrant == None && answer.recordsPastPrefix == 0
  {
    hide ScanAll, SeenOf, BlocksOf, PassAt, ListsExactly, LeavesOf, Settled;
    var closed := ScanAll(c, keys, lines).closed;
    ScanAllTracks(c, keys, lines);
    SettledKeeps(c, ScanAll(c, keys, lines), anchors);
    SeenWhen(closed, wanted, s.run);
    forall j | 0 <= j < |closed| ensures closed[j].run == BlocksOf(lines)[j].run {
      PassNamesItsRun(c, BlocksOf(lines), j);
    }
  }

  /** Nothing is bound to a run the export is not sound for. */
  lemma {:induction false} UnsoundBindsNothing(c: Codec, lines: seq<Line>, run: RunId, lastSeq: Option<nat>,
                                               content: Bytes)
    requires run !in Verify(c, None, [], lines).sound && !Verify(c, None, [], lines).unverifiable
    ensures BindTo(SeenOf(ScanAll(c, None, lines).closed, [run]), Verify(c, None, [], lines).sound, run, lastSeq, content)
            == if exists i :: 0 <= i < |BlocksOf(lines)| && BlocksOf(lines)[i].run == run then Err(NotSound)
               else Err(NoSuchRun)
  {
    hide ScanAll, SeenOf, BlocksOf, PassAt, ListsExactly, LeavesOf, Settled;
    var closed := ScanAll(c, None, lines).closed;
    ScanAllTracks(c, None, lines);
    SettledKeeps(c, ScanAll(c, None, lines), []);
    SeenWhen(closed, [run], run);
    forall j | 0 <= j < |closed| ensures closed[j].run == BlocksOf(lines)[j].run {
      PassNamesItsRun(c, BlocksOf(lines), j);
    }
  }

  lemma {:induction false} SeenWhen(closed: seq<Pass>, wanted: seq<RunId>, run: RunId)
    ensures run in SeenOf(closed, wanted) <==> run in wanted && exists i :: 0 <= i < |closed| && closed[i].run == run
  {
    if closed != [] {
      var n := |closed| - 1;
      SeenWhen(closed[..n], wanted, run);
      assert forall i :: 0 <= i < n ==> closed[..n][i] == closed[i];
    }
  }

  /** Every sidecar's run is looked for. */
  lemma {:induction false} WantedMeans(sidecars: seq<Option<Sidecar>>, run: RunId)
    ensures run in Wanted(sidecars) <==>
            exists i :: 0 <= i < |sidecars| && sidecars[i].Some? && sidecars[i].value.run == run
  {
    if sidecars != [] {
      var n := |sidecars| - 1;
      var front, last := sidecars[..n], sidecars[n];
      WantedMeans(front, run);
      assert forall i :: 0 <= i < n ==> front[i] == sidecars[i];
      assert run in Wanted(sidecars) <==> run in Wanted(front) || (last.Some? && last.value.run == run);
    }
  }

  /** A sidecar made by `bind` is never refused on its binding against the same
      export or any later one that is sound for the run and whose history only
      grew, whatever keys and anchors the later one is checked with. */
  lemma {:induction false} SidecarStays(c: Codec, a: seq<Line>, run: RunId, lastSeq: Option<nat>, content: Bytes,
                                        rawsA: seq<Bytes>, placedA: bool, keys: Option<SignatureCheck>,
                                        anchors: seq<Anchor>, b: seq<Line>, wanted: seq<RunId>, rawsB: seq<Bytes>,
                                        placedB: bool)
    requires run in Verify(c, None, [], a).sound && Carried(c, None, [], a, run, rawsA, placedA)
    requires run in Verify(c, keys, anchors, b).sound && Carried(c, keys, anchors, b, run, rawsB, placedB)
    requires run in wanted && CarriesOn(rawsA, placedA, rawsB, placedB)
    requires BindTo(SeenOf(ScanAll(c, None, a).closed, [run]), Verify(c, None, [], a).sound, run, lastSeq, content).Ok?
    ensures var s := BindTo(SeenOf(ScanAll(c, None, a).closed, [run]), Verify(c, None, [], a).sound, run, lastSeq,
        content).value;
            BindingFault(s, Verify(c, keys, anchors, b).sound, SeenOf(ScanAll(c, keys, b).closed, wanted)).None?
  {
    hide Verify, Carried, ScanAll, SeenOf, Head, BindTo, BindingFault;
    var s := BindTo(SeenOf(ScanAll(c, None, a).closed, [run]), Verify(c, None, [], a).sound, run, lastSeq, content).value;
    BindBinds(c, a, run, lastSeq, content, rawsA, placedA);
    BindingHolds(c, keys, anchors, b, wanted, s, rawsB, placedB);
    assert rawsB[..s.lastSeq] == rawsA[..s.lastSeq];
  }

  /** A sidecar whose binding holds in two exports names one prefix: the two
      carry the same bytes up to its last record, given a hash injective on the
      strings their chains hash. */
  lemma {:induction false} SidecarNamesOnePrefix(c: Codec, s: Sidecar, keysA: Option<SignatureCheck>,
                                                 anchorsA: seq<Anchor>, a: seq<Line>, wantedA: seq<RunId>,
                                                 rawsA: seq<Bytes>, placedA: bool, keysB: Option<SignatureCheck>,
                                                 anchorsB: seq<Anchor>, b: seq<Line>, wantedB: seq<RunId>,
                                                 rawsB: seq<Bytes>, placedB: bool)
    requires s.run in wantedA && Carried(c, keysA, anchorsA, a, s.run, rawsA, placedA)
    requires s.run in wantedB && Carried(c, keysB, anchorsB, b, s.run, rawsB, placedB)
    requires BindingFault(s, Verify(c, keysA, anchorsA, a).sound, SeenOf(ScanAll(c, keysA, a).closed, wantedA)).None?
    requires BindingFault(s, Verify(c, keysB, anchorsB, b).sound, SeenOf(ScanAll(c, keysB, b).closed, wantedB)).None?
    requires Injective(c.hash, ChainStrings(c.hash, rawsA) + ChainStrings(c.hash, rawsB))
    ensures 1 <= s.lastSeq <= |rawsA| && s.lastSeq <= |rawsB| && rawsA[..s.lastSeq] == rawsB[..s.lastSeq]
    ensures !s.open_ ==> rawsA == rawsB
  {
    hide Verify, Carried, ScanAll, SeenOf, Head, ChainStrings, Injective;
    BindingHolds(c, keysA, anchorsA, a, wantedA, s, rawsA, placedA);
    BindingHolds(c, keysB, anchorsB, b, wantedB, s, rawsB, placedB);
    PrefixStrings(c.hash, rawsA, s.lastSeq);
    PrefixStrings(c.hash, rawsB, s.lastSeq);
    ChainBinds(c.hash, rawsA[..s.lastSeq], rawsB[..s.lastSeq], ChainStrings(c.hash, rawsA) + ChainStrings(c.hash, rawsB));
    assert |rawsA| == s.lastSeq ==> rawsA[..s.lastSeq] == rawsA;
    assert |rawsB| == s.lastSeq ==> rawsB[..s.lastSeq] == rawsB;
  }
}
