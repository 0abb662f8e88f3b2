/** The unused-grant report: what every readable call named, under which
    declaration, and the manifest proposed with unused grants removed. */
module UnusedGrants {
  import opened Wrappers
  import opened Hashing
  import opened Wire

  /** What became of a call's sealed payload, if it had one. */
  datatype Opening = Clear | Sealed | Erased

  datatype Manifest = Manifest(tools: seq<string>, rest: Json)

  /** What the report is handed: how a reference parses, what a manifest's
      digest is, whether one validates, and what opening a record's payloads
      comes to, or none when the key ring fails. */
  datatype Rules = Rules(parse: string -> Option<ToolId>, digest: Manifest -> Digest, valid: Manifest -> bool,
                         open: Body -> Option<Opening>)

  datatype Mark = Used | Unused | UnusedRefusalsNotAttributable | NotEstablished

  datatype GrantRow = GrantRow(reference: string, calls: nat, mark: Mark)

  datatype GrantsError = NotAnExport | KeysFailed

  // ── Reading an export's runs ───────────────────────────────────────────

  datatype Run = Run(run: RunId, bodies: seq<Body>)

  datatype RunsRead = RunsRead(header: bool, runs: seq<Run>)

  /** One line, as a consumer that checks no hash reads it; none refuses the
      file. */
  function ReadLine(c: Codec, s: RunsRead, line: Line): Option<RunsRead> {
    match line
    case Blank => Some(s)
    case NotJson => None
    case HeaderLine(kind, f) =>
      if kind.WholeExport? then (if f.version == Some(FORMAT_VERSION) then Some(s.(header := true)) else None)
      else if s.header then Some(s) else None
    case RunLine(f) =>
      if !s.header || f.run.None? then None else Some(s.(runs := s.runs + [Run(f.run.value, [])]))
    case RecordLine(f) => if s.header then ReadRecordLine(c, s, f) else None
    case UnknownLine(f, named) => if !s.header then None else if named then Some(s) else ReadRecordLine(c, s, f)
    case _ => if s.header then Some(s) else None
  }

  function ReadRecordLine(c: Codec, s: RunsRead, f: RecordFields): Option<RunsRead> {
    if f.raw.None? || !c.read(f.raw.value).Readable? || s.runs == [] then None
    else
      var n := |s.runs| - 1;
      var body := c.read(f.raw.value).body;
      if body.run != s.runs[n].run then None
      else Some(s.(runs := s.runs[..n] + [s.runs[n].(bodies := s.runs[n].bodies + [body])]))
  }

  function ReadRuns(c: Codec, lines: seq<Line>): Option<RunsRead> {
    if lines == [] then Some(RunsRead(false, []))
    else
      match ReadRuns(c, lines[..|lines| - 1])
      case None => None
      case Some(s) => ReadLine(c, s, lines[|lines| - 1])
  }

  // ── Evidence ───────────────────────────────────────────────────────────

  datatype Group = Group(runs: set<RunId>, calls: map<ToolId, set<(RunId, Option<nat>)>>, sealed: nat, erased: nat,
                         refusals: map<EffectKind, nat>, bytes: map<RunId, nat>, uncounted: nat)

  const NoEvidence := Group({}, map[], 0, 0, map[], map[], 0)

  predicate IsCall(kind: RecordKind) {
    kind.EffectStarted? && (kind.effect.ToolCall? || kind.effect.Commission?)
  }

  function WithCall(g: Group, t: ToolId, run: RunId, key: Option<nat>): Group {
    g.(calls := g.calls[t := (if t in g.calls then g.calls[t] else {}) + {(run, key)}])
  }

  function WithBytes(g: Group, run: RunId, outbound: Option<nat>): Group {
    match outbound
    case Some(n) => g.(bytes := g.bytes[run := (if run in g.bytes then g.bytes[run] else 0) + n])
    case None => g.(uncounted := g.uncounted + 1)
  }

  /** One record's evidence, or none when the ring fails. */
  function Evidence(r: Rules, run: RunId, body: Body, g: Group): Option<Group> {
    match body.kind
    case EffectStarted(effect, called, outbound) =>
      var counted := WithBytes(g, run, outbound);
      if !IsCall(body.kind) then Some(counted)
      else
        (match r.open(body)
         case None => None
         case Some(Sealed) => Some(counted.(sealed := counted.sealed + 1))
         case Some(Erased) => Some(counted.(erased := counted.erased + 1))
         case Some(Clear) =>
           Some(match called case Some(t) => WithCall(counted, t, run, body.effectKey) case None => counted))
    case PolicyDenied(resource) =>
      Some(g.(refusals := g.refusals[resource := (if resource in g.refusals then g.refusals[resource] else 0) + 1]))
    case _ => Some(g)
  }

  function AllEvidence(r: Rules, run: RunId, bodies: seq<Body>, g: Group): Option<Group> {
    if bodies == [] then Some(g)
    else
      match AllEvidence(r, run, bodies[..|bodies| - 1], g)
      case None => None
      case Some(before) => Evidence(r, run, bodies[|bodies| - 1], before)
  }

  /** The declaration a run was admitted under, if it names one. */
  function Governed(bodies: seq<Body>): Option<Digest> {
    if bodies == [] then None
    else if bodies[0].kind.RunAdmitted? then bodies[0].kind.governedBy
    else Governed(bodies[1..])
  }

  type Groups = map<Option<Digest>, Group>

  function GroupAt(groups: Groups, d: Option<Digest>): Group {
    if d in groups then groups[d] else NoEvidence
  }

  function TakeRun(r: Rules, groups: Groups, run: Run): Option<Groups> {
    var d := Governed(run.bodies);
    var g := GroupAt(groups, d);
    match AllEvidence(r, run.run, run.bodies, g.(runs := g.runs + {run.run}))
    case None => None
    case Some(after) => Some(groups[d := after])
  }

  function Grouped(r: Rules, runs: seq<Run>): Option<Groups> {
    if runs == [] then Some(map[])
    else
      match Grouped(r, runs[..|runs| - 1])
      case None => None
      case Some(groups) => TakeRun(r, groups, runs[|runs| - 1])
  }

  /** The pass over an export's runs, gathering evidence by declaration. */
  class GrantsPass {
    var groups: Groups

    constructor ()
      ensures groups == map[]
    {
      groups := map[];
    }

    /** One record, filed under the declaration its run was admitted under. */
    method ReadRecord(r: Rules, run: RunId, body: Body, d: Option<Digest>) returns (ok: bool)
      requires d in groups
      modifies this
      ensures match Evidence(r, run, body, old(groups)[d])
              case None => !ok
              case Some(g) => ok && groups == old(groups)[d := g]
    {
      var g := groups[d];
      match body.kind {
        case EffectStarted(effect, called, outbound) =>
          match outbound {
            case Some(n) => g := g.(bytes := g.bytes[run := (if run in g.bytes then g.bytes[run] else 0) + n]);
            case None => g := g.(uncounted := g.uncounted + 1);
          }
          if IsCall(body.kind) {
            match r.open(body) {
              case None => return false;
              case Some(Sealed) => g := g.(sealed := g.sealed + 1);
              case Some(Erased) => g := g.(erased := g.erased + 1);
              case Some(Clear) =>
                if called.Some? {
                  var t := called.value;
                  var named := if t in g.calls then g.calls[t] else {};
                  g := g.(calls := g.calls[t := named + {(run, body.effectKey)}]);
                }
            }
          }
        case PolicyDenied(resource) =>
          var before := if resource in g.refusals then g.refusals[resource] else 0;
          g := g.(refusals := g.refusals[resource := before + 1]);
        case _ =>
      }
      groups := groups[d := g];
      return true;
    }

    method ReadRun(r: Rules, run: Run) returns (ok: bool)
      modifies this
      ensures match TakeRun(r, old(groups), run)
              case None => !ok
              case Some(after) => ok && groups == after
    {
      hide Evidence;
      var d := Governed(run.bodies);
      var g := GroupAt(groups, d);
      ghost var start := g.(runs := g.runs + {run.run});
      groups := groups[d := g.(runs := g.runs + {run.run})];
      assert run.bodies[..0] == [];
      for i := 0 to |run.bodies|
        invariant d in groups && AllEvidence(r, run.run, run.bodies[..i], start) == Some(groups[d])
        invariant groups == old(groups)[d := groups[d]]
      {
        assert run.bodies[..i + 1][..i] == run.bodies[..i];
        var read := ReadRecord(r, run.run, run.bodies[i], d);
        if !read {
          EvidenceStops(r, run.run, run.bodies, start, i + 1);
          return false;
        }
      }
      assert run.bodies[..|run.bodies|] == run.bodies;
      return true;
    }
  }

  lemma {:induction false} EvidenceStops(r: Rules, run: RunId, bodies: seq<Body>, g: Group, n: nat)
    requires n <= |bodies| && AllEvidence(r, run, bodies[..n], g).None?
    ensures AllEvidence(r, run, bodies, g).None?
  {
    hide Evidence;
    if n < |bodies| {
      assert bodies[..|bodies| - 1][..n] == bodies[..n];
      EvidenceStops(r, run, bodies[..|bodies| - 1], g, n);
    } else {
      assert bodies[..n] == bodies;
    }
  }

  // ── Rows ───────────────────────────────────────────────────────────────

  function MarkOf(calls: nat, unread: nat, refused: bool): Mark {
    if calls > 0 then Used
    else if unread > 0 then NotEstablished
    else if refused then UnusedRefusalsNotAttributable
    else Unused
  }

  predicate RefusedCalls(g: Group) {
    ToolCall in g.refusals || Commission in g.refusals
  }

  function CallsOf(r: Rules, g: Group, reference: string): set<(RunId, Option<nat>)> {
    match r.parse(reference)
    case None => {}
    case Some(t) => if t in g.calls then g.calls[t] else {}
  }

  function RowOf(r: Rules, g: Group, reference: string): GrantRow {
    var calls := |CallsOf(r, g, reference)|;
    GrantRow(reference, calls, MarkOf(calls, g.sealed + g.erased, RefusedCalls(g)))
  }

  method Rows(r: Rules, m: Manifest, g: Group) returns (rows: seq<GrantRow>)
    ensures |rows| == |m.tools| && forall i :: 0 <= i < |rows| ==> rows[i] == RowOf(r, g, m.tools[i])
  {
    rows := [];
    for i := 0 to |m.tools|
      invariant |rows| == i && forall j :: 0 <= j < i ==> rows[j] == RowOf(r, g, m.tools[j])
    {
      var id := r.parse(m.tools[i]);
      var keys: set<(RunId, Option<nat>)> := {};
      if id.Some? && id.value in g.calls {
        keys := g.calls[id.value];
      }
      rows := rows + [GrantRow(m.tools[i], |keys|, MarkOf(|keys|, g.sealed + g.erased, RefusedCalls(g)))];
    }
  }

  // ── The proposal ───────────────────────────────────────────────────────

  /** The tools less those `removed` names, in order. */
  function Without(tools: seq<string>, removed: seq<string>): seq<string> {
    if tools == [] then []
    else
      Without(tools[..|tools| - 1], removed) +
      (if tools[|tools| - 1] in removed then [] else [tools[|tools| - 1]])
  }

  lemma {:induction false} WithoutMore(tools: seq<string>, removed: seq<string>, reference: string)
    ensures Without(Without(tools, removed), [reference]) == Without(tools, removed + [reference])
  {
    if tools != [] {
      var n := |tools| - 1;
      WithoutMore(tools[..n], removed, reference);
      var front := Without(tools[..n], removed);
      if tools[n] !in removed {
        assert (front + [tools[n]])[..|front|] == front;
      } else {
        assert front + [] == front;
      }
    }
  }

  lemma {:induction false} WithoutNone(tools: seq<string>)
    ensures Without(tools, []) == tools
  {
    if tools != [] {
      WithoutNone(tools[..|tools| - 1]);
      assert tools == tools[..|tools| - 1] + [tools[|tools| - 1]];
    }
  }

  lemma {:induction false} WithoutKeeps(tools: seq<string>, removed: seq<string>, reference: string)
    ensures reference in Without(tools, removed) <==> reference in tools && reference !in removed
  {
    if tools != [] {
      WithoutKeeps(tools[..|tools| - 1], removed, reference);
      assert tools == tools[..|tools| - 1] + [tools[|tools| - 1]];
    }
  }

  datatype Proposal = Proposal(manifest: Manifest, removed: seq<string>, kept: seq<string>)

  /** `reference` was kept because removing it, after what had been removed by
      then, failed validation. */
  ghost predicate KeptBecause(r: Rules, m: Manifest, removed: seq<string>, reference: string, n: nat) {
    n <= |removed| && !r.valid(m.(tools := Without(m.tools, removed[..n] + [reference])))
  }

  ghost predicate Kept(r: Rules, m: Manifest, removed: seq<string>, reference: string) {
    exists n: nat :: KeptBecause(r, m, removed, reference, n)
  }

  ghost predicate MarkedUnused(rows: seq<GrantRow>, reference: string) {
    exists j :: 0 <= j < |rows| && rows[j].mark.Unused? && rows[j].reference == reference
  }

  /** What a proposal over `rows` is: the manifest's tools filtered in order;
      only unused grants removed, each unused grant removed or kept; valid if
      anything was removed; and each kept grant kept because removing it would
      have left the manifest invalid. */
  ghost predicate Settled(r: Rules, m: Manifest, rows: seq<GrantRow>, p: Proposal) {
    p.manifest == m.(tools := Without(m.tools, p.removed)) &&
    (p.removed != [] ==> r.valid(p.manifest)) &&
    (forall i :: 0 <= i < |p.removed| ==> MarkedUnused(rows, p.removed[i])) &&
    (forall i :: 0 <= i < |p.kept| ==> Kept(r, m, p.removed, p.kept[i])) &&
    (forall j :: 0 <= j < |rows| && rows[j].mark.Unused? ==>
        rows[j].reference in p.removed || rows[j].reference in p.kept)
  }

  lemma RowPasses(r: Rules, m: Manifest, rows: seq<GrantRow>, row: GrantRow, p: Proposal)
    requires Settled(r, m, rows, p) && !row.mark.Unused?
    ensures Settled(r, m, rows + [row], p)
  {
    hide Without, Kept;
    MarksStay(rows, row, p.removed);
  }

  lemma MarksStay(rows: seq<GrantRow>, row: GrantRow, removed: seq<string>)
    requires forall i :: 0 <= i < |removed| ==> MarkedUnused(rows, removed[i])
    ensures forall i :: 0 <= i < |removed| ==> MarkedUnused(rows + [row], removed[i])
  {
    forall i | 0 <= i < |removed| ensures MarkedUnused(rows + [row], removed[i]) {
      var j :| 0 <= j < |rows| && rows[j].mark.Unused? && rows[j].reference == removed[i];
      assert (rows + [row])[j] == rows[j];
    }
  }

  lemma {:induction false} RowIsRemoved(r: Rules, m: Manifest, rows: seq<GrantRow>, row: GrantRow, p: Proposal)
    requires Settled(r, m, rows, p) && row.mark.Unused?
    requires r.valid(p.manifest.(tools := Without(p.manifest.tools, [row.reference])))
    ensures Settled(r, m, rows + [row],
                    Proposal(p.manifest.(tools := Without(p.manifest.tools, [row.reference])),
                        p.removed + [row.reference], p.kept))
  {
    hide Without, KeptBecause;
    WithoutMore(m.tools, p.removed, row.reference);
    MarksStay(rows, row, p.removed);
    assert (rows + [row])[|rows|] == row;
    forall i | 0 <= i < |p.kept| ensures Kept(r, m, p.removed + [row.reference], p.kept[i]) {
      KeptStays(r, m, p.removed, row.reference, p.kept[i]);
    }
  }

  lemma KeptStays(r: Rules, m: Manifest, removed: seq<string>, more: string, reference: string)
    requires Kept(r, m, removed, reference)
    ensures Kept(r, m, removed + [more], reference)
  {
    var n: nat :| KeptBecause(r, m, removed, reference, n);
    assert (removed + [more])[..n] == removed[..n];
    assert KeptBecause(r, m, removed + [more], reference, n);
  }

  lemma RowIsKept(r: Rules, m: Manifest, rows: seq<GrantRow>, row: GrantRow, p: Proposal)
    requires Settled(r, m, rows, p) && row.mark.Unused?
    requires !r.valid(p.manifest.(tools := Without(p.manifest.tools, [row.reference])))
    ensures Settled(r, m, rows + [row], p.(kept := p.kept + [row.reference]))
  {
    hide Without;
    WithoutMore(m.tools, p.removed, row.reference);
    MarksStay(rows, row, p.removed);
    assert p.removed[..|p.removed|] == p.removed;
    assert KeptBecause(r, m, p.removed, row.reference, |p.removed|);
    KeptAll(r, m, p, row.reference);
  }

  lemma KeptAll(r: Rules, m: Manifest, p: Proposal, reference: string)
    requires (forall i :: 0 <= i < |p.kept| ==> Kept(r, m, p.removed, p.kept[i])) && Kept(r, m, p.removed, reference)
    ensures forall i :: 0 <= i < |p.kept + [reference]| ==> Kept(r, m, p.removed, (p.kept + [reference])[i])
  {
    hide Kept;
  }

  /** One pass over the manifest's tools: `Settled` fixes what is removed, what is
      kept for want of a valid manifest without it, and the order of both. */
  method Propose(r: Rules, m: Manifest, rows: seq<GrantRow>) returns (p: Proposal)
    ensures Settled(r, m, rows, p)
  {
    hide Without, Settled;
    NothingSettled(r, m);
    p := Proposal(m, [], []);
    assert rows[..0] == [];
    for i := 0 to |rows|
      invariant Settled(r, m, rows[..i], p)
    {
      assert rows[..i + 1] == rows[..i] + [rows[i]];
      if rows[i].mark.Unused? {
        var candidate := p.manifest.(tools := Without(p.manifest.tools, [rows[i].reference]));
        if r.valid(candidate) {
          RowIsRemoved(r, m, rows[..i], rows[i], p);
          p := Proposal(candidate, p.removed + [rows[i].reference], p.kept);
        } else {
          RowIsKept(r, m, rows[..i], rows[i], p);
          p := p.(kept := p.kept + [rows[i].reference]);
        }
      } else {
        RowPasses(r, m, rows[..i], rows[i], p);
      }
    }
    assert rows[..|rows|] == rows;
  }

  lemma NothingSettled(r: Rules, m: Manifest)
    ensures Settled(r, m, [], Proposal(m, [], []))
  {
    WithoutNone(m.tools);
  }

  // ── No call is forgotten ───────────────────────────────────────────────

  /** Evidence is only ever added. */
  ghost predicate Includes(a: Group, b: Group) {
    (forall t :: t in a.calls ==> t in b.calls && a.calls[t] <= b.calls[t]) && a.sealed <= b.sealed &&
        a.erased <= b.erased
  }

  lemma {:induction false} EvidenceAdds(r: Rules, run: RunId, body: Body, g: Group)
    requires Evidence(r, run, body, g).Some?
    ensures Includes(g, Evidence(r, run, body, g).value)
  {
  }

  lemma {:induction false} AllEvidenceAdds(r: Rules, run: RunId, bodies: seq<Body>, g: Group)
    requires AllEvidence(r, run, bodies, g).Some?
    ensures Includes(g, AllEvidence(r, run, bodies, g).value)
  {
    hide Evidence;
    if bodies != [] {
      var n := |bodies| - 1;
      AllEvidenceAdds(r, run, bodies[..n], g);
      EvidenceAdds(r, run, bodies[n], AllEvidence(r, run, bodies[..n], g).value);
    }
  }

  /** A readable call of `t` in this record. */
  predicate Calls(r: Rules, body: Body, t: ToolId) {
    IsCall(body.kind) && r.open(body) == Some(Clear) && body.kind.called == Some(t)
  }

  /** A call in this record that could not be read. */
  predicate Unread(r: Rules, body: Body) {
    IsCall(body.kind) && (r.open(body) == Some(Sealed) || r.open(body) == Some(Erased))
  }

  ghost predicate Holds(g: Group, t: ToolId, run: RunId, key: Option<nat>) {
    t in g.calls && (run, key) in g.calls[t]
  }

  lemma RecordIsFiled(r: Rules, run: RunId, body: Body, g: Group)
    requires Evidence(r, run, body, g).Some?
    ensures var after := Evidence(r, run, body, g).value;
            (forall t :: Calls(r, body, t) ==> Holds(after, t, run, body.effectKey)) &&
            (Unread(r, body) ==> after.sealed + after.erased > 0)
  {
  }

  lemma IncludedHolds(a: Group, b: Group, t: ToolId, run: RunId, key: Option<nat>)
    requires Includes(a, b) && Holds(a, t, run, key)
    ensures Holds(b, t, run, key)
  {
  }

  lemma {:induction false} CallIsFiled(r: Rules, run: RunId, bodies: seq<Body>, g: Group, j: nat)
    requires AllEvidence(r, run, bodies, g).Some? && j < |bodies|
    ensures var after := AllEvidence(r, run, bodies, g).value;
            (forall t :: Calls(r, bodies[j], t) ==> Holds(after, t, run, bodies[j].effectKey)) &&
            (Unread(r, bodies[j]) ==> after.sealed + after.erased > 0)
  {
    hide Evidence, Calls, Unread, Holds;
    var n := |bodies| - 1;
    var before := AllEvidence(r, run, bodies[..n], g).value;
    if j < n {
      CallIsFiled(r, run, bodies[..n], g, j);
      EvidenceAdds(r, run, bodies[n], before);
      forall t | Calls(r, bodies[j], t) ensures Holds(AllEvidence(r, run, bodies, g).value, t, run, bodies[j].effectKey) {
        IncludedHolds(before, AllEvidence(r, run, bodies, g).value, t, run, bodies[j].effectKey);
      }
    } else {
      RecordIsFiled(r, run, bodies[n], before);
    }
  }

  /** Every readable call of every run is held by the group of the declaration
      that governed it, and every unreadable one is counted there. */
  lemma {:induction false} CallIsGrouped(r: Rules, runs: seq<Run>, i: nat, j: nat)
    requires Grouped(r, runs).Some? && i < |runs| && j < |runs[i].bodies|
    ensures var groups := Grouped(r, runs).value;
            var d := Governed(runs[i].bodies);
            d in groups &&
            (forall t :: Calls(r, runs[i].bodies[j], t) ==>
                Holds(groups[d], t, runs[i].run, runs[i].bodies[j].effectKey)) &&
            (Unread(r, runs[i].bodies[j]) ==> groups[d].sealed + groups[d].erased > 0)
  {
    hide AllEvidence, Calls, Unread, Holds, Governed, Includes;
    var n := |runs| - 1;
    var before, last := Grouped(r, runs[..n]).value, runs[n];
    var d := Governed(last.bodies);
    var g := GroupAt(before, d);
    var start := g.(runs := g.runs + {last.run});
    if i < n {
      CallIsGrouped(r, runs[..n], i, j);
      if Governed(runs[i].bodies) == d {
        AllEvidenceAdds(r, last.run, last.bodies, start);
        var after := AllEvidence(r, last.run, last.bodies, start).value;
        StartIncludes(g, last.run, after);
        forall t | Calls(r, runs[i].bodies[j], t) ensures Holds(after, t, runs[i].run, runs[i].bodies[j].effectKey) {
          IncludedHolds(g, after, t, runs[i].run, runs[i].bodies[j].effectKey);
        }
      }
    } else {
      CallIsFiled(r, last.run, last.bodies, start, j);
    }
  }

  lemma StartIncludes(g: Group, run: RunId, after: Group)
    requires Includes(g.(runs := g.runs + {run}), after)
    ensures Includes(g, after) && g.sealed + g.erased <= after.sealed + after.erased
  {
  }

  // ── The safe proposal ──────────────────────────────────────────────────

  ghost predicate Grants(r: Rules, m: Manifest, t: ToolId) {
    exists i :: 0 <= i < |m.tools| && r.parse(m.tools[i]) == Some(t)
  }

  lemma HeldIsUsed(r: Rules, g: Group, t: ToolId, run: RunId, key: Option<nat>, reference: string)
    requires Holds(g, t, run, key) && r.parse(reference) == Some(t)
    ensures RowOf(r, g, reference).mark == Used
  {
    assert (run, key) in CallsOf(r, g, reference);
  }

  /** Each readable recorded call the manifest granted is still granted by the
      proposal; nothing is removed if any call under the digest was sealed or
      erased; and the proposal is the manifest's tools filtered in order, valid
      whenever the manifest was. */
  lemma {:induction false} SafeProposal(r: Rules, runs: seq<Run>, m: Manifest, rows: seq<GrantRow>, p: Proposal)
    requires Grouped(r, runs).Some?
    requires var g := GroupAt(Grouped(r, runs).value, Some(r.digest(m)));
             |rows| == |m.tools| && forall i :: 0 <= i < |rows| ==> rows[i] == RowOf(r, g, m.tools[i])
    requires Settled(r, m, rows, p)
    ensures forall i, j, t | 0 <= i < |runs| && 0 <= j < |runs[i].bodies| &&
        Governed(runs[i].bodies) == Some(r.digest(m)) ::
              Calls(r, runs[i].bodies[j], t) && Grants(r, m, t) ==> Grants(r, p.manifest, t)
    ensures (exists i, j ::
               0 <= i < |runs| && 0 <= j < |runs[i].bodies| && Governed(runs[i].bodies) == Some(r.digest(m)) &&
                            Unread(r, runs[i].bodies[j])) ==> p.removed == [] && p.manifest == m
    ensures p.manifest == m.(tools := Without(m.tools, p.removed))
    ensures r.valid(m) ==> r.valid(p.manifest)
  {
    hide Without, Calls, Unread, Holds, Governed, Grouped, RowOf, Kept;
    var g := GroupAt(Grouped(r, runs).value, Some(r.digest(m)));
    WithoutNone(m.tools);
    forall i, j, t | 0 <= i < |runs| && 0 <= j < |runs[i].bodies| && Governed(runs[i].bodies) == Some(r.digest(m)) &&
                     Calls(r, runs[i].bodies[j], t) && Grants(r, m, t)
      ensures Grants(r, p.manifest, t)
    {
      CallIsGrouped(r, runs, i, j);
      var k :| 0 <= k < |m.tools| && r.parse(m.tools[k]) == Some(t);
      UsedIsNotRemoved(r, g, m, rows, p, t, runs[i].run, runs[i].bodies[j].effectKey, m.tools[k]);
      WithoutKeeps(m.tools, p.removed, m.tools[k]);
      var x :| 0 <= x < |p.manifest.tools| && p.manifest.tools[x] == m.tools[k];
      assert r.parse(p.manifest.tools[x]) == Some(t);
    }
    forall i, j | 0 <= i < |runs| && 0 <= j < |runs[i].bodies| && Governed(runs[i].bodies) == Some(r.digest(m)) &&
                  Unread(r, runs[i].bodies[j])
      ensures p.removed == []
    {
      CallIsGrouped(r, runs, i, j);
      NothingUnused(r, g, m, rows, p);
    }
  }

  lemma UsedIsNotRemoved(r: Rules, g: Group, m: Manifest, rows: seq<GrantRow>, p: Proposal, t: ToolId, run: RunId,
                         key: Option<nat>, reference: string)
    requires |rows| == |m.tools| && forall i :: 0 <= i < |rows| ==> rows[i] == RowOf(r, g, m.tools[i])
    requires Settled(r, m, rows, p) && Holds(g, t, run, key) && r.parse(reference) == Some(t)
    ensures reference !in p.removed
  {
    hide Without, Holds, Kept;
    HeldIsUsed(r, g, t, run, key, reference);
  }

  lemma NothingUnused(r: Rules, g: Group, m: Manifest, rows: seq<GrantRow>, p: Proposal)
    requires |rows| == |m.tools| && forall i :: 0 <= i < |rows| ==> rows[i] == RowOf(r, g, m.tools[i])
    requires Settled(r, m, rows, p) && g.sealed + g.erased > 0
    ensures p.removed == []
  {
    hide Without, Kept, CallsOf;
    assert p.removed == [] || MarkedUnused(rows, p.removed[0]);
  }

  // ── Nothing is held that was not recorded ──────────────────────────────

  /** A tool call or a commission that policy refused. */
  predicate Denied(body: Body) {
    body.kind.PolicyDenied? && (body.kind.resource.ToolCall? || body.kind.resource.Commission?)
  }

  ghost predicate NamedIn(r: Rules, bodies: seq<Body>, t: ToolId, key: Option<nat>) {
    exists j :: 0 <= j < |bodies| && Calls(r, bodies[j], t) && bodies[j].effectKey == key
  }

  ghost predicate UnreadIn(r: Rules, bodies: seq<Body>) {
    exists j :: 0 <= j < |bodies| && Unread(r, bodies[j])
  }

  ghost predicate DeniedIn(bodies: seq<Body>) {
    exists j :: 0 <= j < |bodies| && Denied(bodies[j])
  }

  lemma {:induction false} RecordFilesOnly(r: Rules, run: RunId, body: Body, g: Group, t: ToolId, owner: RunId,
                                           key: Option<nat>)
    requires Evidence(r, run, body, g).Some?
    ensures var after := Evidence(r, run, body, g).value;
            (Holds(after, t, owner, key) <==>
             Holds(g, t, owner, key) || (owner == run && Calls(r, body, t) && body.effectKey == key)) &&
            (after.sealed + after.erased > 0 <==> g.sealed + g.erased > 0 || Unread(r, body)) &&
            (RefusedCalls(after) <==> RefusedCalls(g) || Denied(body))
  {
  }

  lemma OneMoreBody(r: Rules, bodies: seq<Body>, body: Body, t: ToolId, key: Option<nat>)
    ensures NamedIn(r, bodies + [body], t, key) <==>
            NamedIn(r, bodies, t, key) || (Calls(r, body, t) && body.effectKey == key)
    ensures UnreadIn(r, bodies + [body]) <==> UnreadIn(r, bodies) || Unread(r, body)
    ensures DeniedIn(bodies + [body]) <==> DeniedIn(bodies) || Denied(body)
  {
    hide Calls, Unread, Denied;
    var more := bodies + [body];
    assert more[|bodies|] == body && forall j :: 0 <= j < |bodies| ==> more[j] == bodies[j];
  }

  lemma {:induction false} RunFilesOnly(r: Rules, run: RunId, bodies: seq<Body>, g: Group, t: ToolId, owner: RunId,
                                        key: Option<nat>)
    requires AllEvidence(r, run, bodies, g).Some?
    ensures var after := AllEvidence(r, run, bodies, g).value;
            (Holds(after, t, owner, key) <==>
             Holds(g, t, owner, key) || (owner == run && NamedIn(r, bodies, t, key))) &&
            (after.sealed + after.erased > 0 <==> g.sealed + g.erased > 0 || UnreadIn(r, bodies)) &&
            (RefusedCalls(after) <==> RefusedCalls(g) || DeniedIn(bodies))
  {
    hide Evidence, Holds, Calls, Unread, Denied, RefusedCalls;
    if bodies != [] {
      var n := |bodies| - 1;
      RunFilesOnly(r, run, bodies[..n], g, t, owner, key);
      hide NamedIn, UnreadIn, DeniedIn;
      RecordFilesOnly(r, run, bodies[n], AllEvidence(r, run, bodies[..n], g).value, t, owner, key);
      OneMoreBody(r, bodies[..n], bodies[n], t, key);
      assert bodies[..n] + [bodies[n]] == bodies;
    }
  }

  /** Run `i` was governed by `d`. */
  ghost predicate Governs(runs: seq<Run>, d: Option<Digest>, i: nat) {
    i < |runs| && Governed(runs[i].bodies) == d
  }

  ghost predicate NamedUnder(r: Rules, runs: seq<Run>, d: Option<Digest>, t: ToolId, run: RunId, key: Option<nat>) {
    exists i: nat :: Governs(runs, d, i) && runs[i].run == run && NamedIn(r, runs[i].bodies, t, key)
  }

  ghost predicate UnreadUnder(r: Rules, runs: seq<Run>, d: Option<Digest>) {
    exists i: nat :: Governs(runs, d, i) && UnreadIn(r, runs[i].bodies)
  }

  ghost predicate DeniedUnder(runs: seq<Run>, d: Option<Digest>) {
    exists i: nat :: Governs(runs, d, i) && DeniedIn(runs[i].bodies)
  }

  lemma OneMoreRun(r: Rules, runs: seq<Run>, last: Run, d: Option<Digest>, t: ToolId, run: RunId, key: Option<nat>)
    ensures var more := runs + [last];
            var governed := Governed(last.bodies) == d;
            (NamedUnder(r, more, d, t, run, key) <==>
             NamedUnder(r, runs, d, t, run, key) || (governed && last.run == run && NamedIn(r, last.bodies, t, key))) &&
            (UnreadUnder(r, more, d) <==> UnreadUnder(r, runs, d) || (governed && UnreadIn(r, last.bodies))) &&
            (DeniedUnder(more, d) <==> DeniedUnder(runs, d) || (governed && DeniedIn(last.bodies)))
  {
    hide Governed, NamedIn, UnreadIn, DeniedIn;
    var more := runs + [last];
    assert more[|runs|] == last && forall i :: 0 <= i < |runs| ==> more[i] == runs[i];
    assert Governs(more, d, |runs|) <==> Governed(last.bodies) == d;
    assert forall i: nat :: i < |runs| ==> (Governs(more, d, i) <==> Governs(runs, d, i));
  }

  /** A declaration's group holds exactly the calls recorded under it, has
      counted an unreadable one exactly when there is one, and a refusal
      likewise. */
  lemma {:induction false} GroupedExactly(r: Rules, runs: seq<Run>, d: Option<Digest>, t: ToolId, run: RunId,
                                          key: Option<nat>)
    requires Grouped(r, runs).Some?
    ensures var g := GroupAt(Grouped(r, runs).value, d);
            (Holds(g, t, run, key) <==> NamedUnder(r, runs, d, t, run, key)) &&
            (g.sealed + g.erased > 0 <==> UnreadUnder(r, runs, d)) &&
            (RefusedCalls(g) <==> DeniedUnder(runs, d))
  {
    hide AllEvidence, Governed, NamedIn, UnreadIn, DeniedIn;
    if runs != [] {
      var n := |runs| - 1;
      GroupedExactly(r, runs[..n], d, t, run, key);
      hide NamedUnder, UnreadUnder, DeniedUnder;
      OneMoreRun(r, runs[..n], runs[n], d, t, run, key);
      assert runs[..n] + [runs[n]] == runs;
      if Governed(runs[n].bodies) == d {
        var g := GroupAt(Grouped(r, runs[..n]).value, d);
        RunFilesOnly(r, runs[n].run, runs[n].bodies, g.(runs := g.runs + {runs[n].run}), t, run, key);
      }
    }
  }

  /** A record that keeps `reference` from being called unused: a readable call
      of it, a call nobody could read, or a call that was refused. */
  predicate Speaks(r: Rules, body: Body, reference: string) {
    (r.parse(reference).Some? && Calls(r, body, r.parse(reference).value)) || Unread(r, body) || Denied(body)
  }

  /** When a grant is called unused: exactly when no record of any run governed
      by the declaration is a readable call of it, an unreadable call, or a
      refused one. */
  lemma {:induction false} UnusedMeans(r: Rules, runs: seq<Run>, d: Option<Digest>, reference: string)
    requires Grouped(r, runs).Some?
    ensures RowOf(r, GroupAt(Grouped(r, runs).value, d), reference).mark == Unused <==>
            forall i, j | 0 <= i < |runs| && 0 <= j < |runs[i].bodies| && Governed(runs[i].bodies) == d ::
              !Speaks(r, runs[i].bodies[j], reference)
  {
    hide Grouped, Calls, Unread, Denied, Governed, RefusedCalls, Holds;
    var g := GroupAt(Grouped(r, runs).value, d);
    UnusedByGroup(r, g, reference);
    GroupedExactly(r, runs, d, ToolId("", ""), 0, None);
    if i, j :| 0 <= i < |runs| && 0 <= j < |runs[i].bodies| && Governed(runs[i].bodies) == d &&
               Speaks(r, runs[i].bodies[j], reference)
    {
      assert Governs(runs, d, i);
      if r.parse(reference).Some? && Calls(r, runs[i].bodies[j], r.parse(reference).value) {
        var t, key := r.parse(reference).value, runs[i].bodies[j].effectKey;
        assert NamedIn(r, runs[i].bodies, t, key);
        GroupedExactly(r, runs, d, t, runs[i].run, key);
      } else if Unread(r, runs[i].bodies[j]) {
        assert UnreadIn(r, runs[i].bodies);
      } else {
        assert DeniedIn(runs[i].bodies);
      }
    } else {
      forall t, run, key | r.parse(reference) == Some(t) ensures !Holds(g, t, run, key) {
        GroupedExactly(r, runs, d, t, run, key);
      }
    }
  }

  lemma UnusedByGroup(r: Rules, g: Group, reference: string)
    ensures RowOf(r, g, reference).mark == Unused <==>
            (forall t, run, key | r.parse(reference) == Some(t) :: !Holds(g, t, run, key)) &&
            g.sealed + g.erased == 0 && !RefusedCalls(g)
  {
    hide RefusedCalls;
    var calls := CallsOf(r, g, reference);
    if calls != {} {
      var call :| call in calls;
      assert Holds(g, r.parse(reference).value, call.0, call.1);
    }
  }

  // ── The counts ─────────────────────────────────────────────────────────

  /** What a group counts, besides the calls it holds. */
  datatype Count = Sealeds | Eraseds | Uncounted | Refusals(kind: EffectKind) | BytesOf(run: RunId)

  function Counted(g: Group, q: Count): nat {
    match q
    case Sealeds => g.sealed
    case Eraseds => g.erased
    case Uncounted => g.uncounted
    case Refusals(kind) => if kind in g.refusals then g.refusals[kind] else 0
    case BytesOf(run) => if run in g.bytes then g.bytes[run] else 0
  }

  /** What one record adds to a count. */
  function Weight(r: Rules, q: Count, run: RunId, body: Body): nat {
    match q
    case Sealeds => if IsCall(body.kind) && r.open(body) == Some(Sealed) then 1 else 0
    case Eraseds => if IsCall(body.kind) && r.open(body) == Some(Erased) then 1 else 0
    case Uncounted => if body.kind.EffectStarted? && body.kind.outboundBytes.None? then 1 else 0
    case Refusals(kind) => if body.kind == PolicyDenied(kind) then 1 else 0
    case BytesOf(owner) =>
      if owner == run && body.kind.EffectStarted? && body.kind.outboundBytes.Some? then body.kind.outboundBytes.value
      else 0
  }

  function RunTotal(r: Rules, q: Count, run: RunId, bodies: seq<Body>): nat {
    if bodies == [] then 0
    else RunTotal(r, q, run, bodies[..|bodies| - 1]) + Weight(r, q, run, bodies[|bodies| - 1])
  }

  function Total(r: Rules, q: Count, runs: seq<Run>, d: Option<Digest>): nat {
    if runs == [] then 0
    else
      var last := runs[|runs| - 1];
      Total(r, q, runs[..|runs| - 1], d) +
      (if Governed(last.bodies) == d then RunTotal(r, q, last.run, last.bodies) else 0)
  }

  lemma BytesCount(q: Count, run: RunId, g: Group, outbound: Option<nat>)
    ensures var after := WithBytes(g, run, outbound);
            after.runs == g.runs &&
            Counted(after, q) == Counted(g, q) +
              (if q == BytesOf(run) && outbound.Some? then outbound.value
               else if q.Uncounted? && outbound.None? then 1 else 0)
  {
  }

  lemma CallCounts(q: Count, g: Group, t: ToolId, run: RunId, key: Option<nat>)
    ensures Counted(WithCall(g, t, run, key), q) == Counted(g, q) && WithCall(g, t, run, key).runs == g.runs
  {
  }

  lemma RecordCounts(r: Rules, q: Count, run: RunId, body: Body, g: Group)
    requires Evidence(r, run, body, g).Some?
    ensures Counted(Evidence(r, run, body, g).value, q) == Counted(g, q) + Weight(r, q, run, body)
    ensures Evidence(r, run, body, g).value.runs == g.runs
  {
    hide WithBytes, WithCall;
    if body.kind.EffectStarted? {
      var counted := WithBytes(g, run, body.kind.outboundBytes);
      BytesCount(q, run, g, body.kind.outboundBytes);
      if body.kind.called.Some? {
        CallCounts(q, counted, body.kind.called.value, run, body.effectKey);
      }
    }
  }

  lemma {:induction false} RunCounts(r: Rules, q: Count, run: RunId, bodies: seq<Body>, g: Group)
    requires AllEvidence(r, run, bodies, g).Some?
    ensures Counted(AllEvidence(r, run, bodies, g).value, q) == Counted(g, q) + RunTotal(r, q, run, bodies)
    ensures AllEvidence(r, run, bodies, g).value.runs == g.runs
  {
    hide Evidence, Counted, Weight;
    if bodies != [] {
      var n := |bodies| - 1;
      RunCounts(r, q, run, bodies[..n], g);
      RecordCounts(r, q, run, bodies[n], AllEvidence(r, run, bodies[..n], g).value);
    }
  }

  /** Every count of a declaration's group is the sum over the records of the
      runs it governed, and the group names exactly those runs. */
  lemma {:induction false} GroupCounts(r: Rules, q: Count, runs: seq<Run>, d: Option<Digest>)
    requires Grouped(r, runs).Some?
    ensures Counted(GroupAt(Grouped(r, runs).value, d), q) == Total(r, q, runs, d)
    ensures d in Grouped(r, runs).value <==> exists i: nat :: Governs(runs, d, i)
    ensures forall run :: run in GroupAt(Grouped(r, runs).value, d).runs <==>
                          exists i: nat :: Governs(runs, d, i) && runs[i].run == run
  {
    hide AllEvidence, Governed, RunTotal;
    if runs != [] {
      var n := |runs| - 1;
      var last := runs[n];
      GroupCounts(r, q, runs[..n], d);
      assert forall i: nat :: i < n ==> (Governs(runs, d, i) <==> Governs(runs[..n], d, i)) && runs[i] == runs[..n][i];
      assert Governs(runs, d, n) <==> Governed(last.bodies) == d;
      if Governed(last.bodies) == d {
        var g := GroupAt(Grouped(r, runs[..n]).value, d);
        RunCounts(r, q, last.run, last.bodies, g.(runs := g.runs + {last.run}));
        assert Counted(g.(runs := g.runs + {last.run}), q) == Counted(g, q);
      }
    }
  }

  /** A call the key ring failed on. */
  predicate RingFails(r: Rules, body: Body) {
    IsCall(body.kind) && r.open(body).None?
  }

  lemma {:induction false} RunFails(r: Rules, run: RunId, bodies: seq<Body>, g: Group)
    ensures AllEvidence(r, run, bodies, g).None? <==> exists j :: 0 <= j < |bodies| && RingFails(r, bodies[j])
  {
    hide RingFails;
    if bodies != [] {
      var n := |bodies| - 1;
      RunFails(r, run, bodies[..n], g);
      assert forall j :: 0 <= j < n ==> bodies[..n][j] == bodies[j];
      if AllEvidence(r, run, bodies[..n], g).Some? {
        RecordFails(r, run, bodies[n], AllEvidence(r, run, bodies[..n], g).value);
      }
    }
  }

  lemma RecordFails(r: Rules, run: RunId, body: Body, g: Group)
    ensures Evidence(r, run, body, g).None? <==> RingFails(r, body)
  {
  }

  /** The pass fails exactly when the ring fails on some call of some run. */
  lemma {:induction false} PassFails(r: Rules, runs: seq<Run>)
    ensures Grouped(r, runs).None? <==>
            exists i, j :: 0 <= i < |runs| && 0 <= j < |runs[i].bodies| && RingFails(r, runs[i].bodies[j])
  {
    hide RingFails, AllEvidence, Governed;
    if runs != [] {
      var n := |runs| - 1;
      PassFails(r, runs[..n]);
      assert forall i :: 0 <= i < n ==> runs[..n][i] == runs[i];
      if Grouped(r, runs[..n]).Some? {
        var g := GroupAt(Grouped(r, runs[..n]).value, Governed(runs[n].bodies));
        RunFails(r, runs[n].run, runs[n].bodies, g.(runs := g.runs + {runs[n].run}));
      }
    }
  }

  // ── The report ─────────────────────────────────────────────────────────

  datatype DigestRow = DigestRow(group: Group, manifest: Option<Manifest>, grants: seq<GrantRow>,
      proposal: Option<Proposal>)

  /** The first manifest supplied with a digest. */
  function Supplied(r: Rules, manifests: seq<Manifest>, d: Option<Digest>): Option<Manifest> {
    if d.None? || manifests == [] then None
    else
      var earlier := Supplied(r, manifests[..|manifests| - 1], d);
      if earlier.Some? then earlier
      else if r.digest(manifests[|manifests| - 1]) == d.value then Some(manifests[|manifests| - 1])
      else None
  }

  ghost predicate IsRow(r: Rules, manifests: seq<Manifest>, d: Option<Digest>, g: Group, row: DigestRow) {
    row.group == g && row.manifest == Supplied(r, manifests, d) &&
    match row.manifest
    case None => row.grants == [] && row.proposal == None
    case Some(m) =>
      |row.grants| == |m.tools| && (forall i :: 0 <= i < |m.tools| ==> row.grants[i] == RowOf(r, g, m.tools[i])) &&
      row.proposal.Some? && Settled(r, m, row.grants, row.proposal.value)
  }

  method Row(r: Rules, manifests: seq<Manifest>, d: Option<Digest>, g: Group) returns (row: DigestRow)
    ensures IsRow(r, manifests, d, g, row)
  {
    hide Settled, RowOf;
    var m := Supplied(r, manifests, d);
    if m.None? {
      return DigestRow(g, None, [], None);
    }
    var grants := Rows(r, m.value, g);
    var proposal := Propose(r, m.value, grants);
    return DigestRow(g, m, grants, Some(proposal));
  }

  type ReportResult = Result<map<Option<Digest>, DigestRow>, GrantsError>

  ghost predicate IsReport(r: Rules, c: Codec, lines: seq<Line>, manifests: seq<Manifest>, result: ReportResult) {
    match ReadRuns(c, lines)
    case None => result == Err(NotAnExport)
    case Some(read) =>
      if !read.header then result == Err(NotAnExport)
      else
        match Grouped(r, read.runs)
        case None => result == Err(KeysFailed)
        case Some(groups) =>
          result.Ok? && result.value.Keys == groups.Keys &&
          forall d :: d in groups ==> IsRow(r, manifests, d, groups[d], result.value[d])
  }

  /** The report: one row for every declaration that governed a run. */
  method Report(r: Rules, c: Codec, lines: seq<Line>, manifests: seq<Manifest>) returns (result: ReportResult)
    ensures IsReport(r, c, lines, manifests, result)
  {
    hide TakeRun, IsRow, ReadRuns;
    var read := ReadRuns(c, lines);
    if read.None? || !read.value.header {
      return Err(NotAnExport);
    }
    var runs := read.value.runs;
    var pass := new GrantsPass();
    assert runs[..0] == [];
    for i := 0 to |runs|
      invariant fresh(pass) && Grouped(r, runs[..i]) == Some(pass.groups)
    {
      assert runs[..i + 1][..i] == runs[..i];
      var ok := pass.ReadRun(r, runs[i]);
      if !ok {
        GroupedStops(r, runs, i + 1);
        return Err(KeysFailed);
      }
    }
    assert runs[..|runs|] == runs;
    var groups := pass.groups;
    var rows: map<Option<Digest>, DigestRow> := map[];
    var rest := groups.Keys;
    while rest != {}
      invariant rest <= groups.Keys && rows.Keys == groups.Keys - rest
      invariant forall d :: d in rows ==> IsRow(r, manifests, d, groups[d], rows[d])
      decreases |rest|
    {
      var d :| d in rest;
      var row := Row(r, manifests, d, groups[d]);
      rows := rows[d := row];
      rest := rest - {d};
    }
    return Ok(rows);
  }

  lemma {:induction false} GroupedStops(r: Rules, runs: seq<Run>, n: nat)
    requires n <= |runs| && Grouped(r, runs[..n]).None?
    ensures Grouped(r, runs).None?
  {
    hide TakeRun;
    if n < |runs| {
      assert runs[..|runs| - 1][..n] == runs[..n];
      GroupedStops(r, runs[..|runs| - 1], n);
    } else {
      assert runs[..n] == runs;
    }
  }
}
