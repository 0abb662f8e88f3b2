/** What a written file says: the specification of `write_file`.

    A writer takes each run once, between calls that let the store grow.  A
    file is right when everything in it is explained by two planes, the one
    the header's checkpoint was read from and a later one it grew into. */
module WriterSpec {
  import opened Wrappers
  import opened Hashing
  import opened Merkle
  import opened Wire
  import opened Planes

  /** One run as the writer took it; no records for a run it could not read. */
  datatype Taken = Taken(run: RunId, placed: Option<(nat, Digest)>, proof: Option<seq<Digest>>, records: seq<Record>)

  // ── Lines ──────────────────────────────────────────────────────────────

  function HeaderFor(cp: Checkpoint, package: Option<Selection>): Line {
    HeaderLine(if package.Some? then DisclosurePackage else WholeExport,
               HeaderFields(Some(FORMAT_VERSION), Some(CANON_VERSION), Given(cp), package))
  }

  function BlockHeader(t: Taken): RunFields {
    match t.placed
    case Some(at) => RunFields(Some(t.run), Given(at.0), Given(at.1), t.proof)
    case None => RunFields(Some(t.run), Missing, Missing, t.proof)
  }

  function RecordFor(c: Codec, r: Record): RecordFields {
    RecordFields(Some(r.raw), Some(r.hash), c.json(r.raw), Some(r.body.seq_), Some(r.prev), r.signature)
  }

  function RecordsFor(c: Codec, records: seq<Record>): (fields: seq<RecordFields>)
    ensures |fields| == |records|
    ensures forall i :: 0 <= i < |records| ==> fields[i] == RecordFor(c, records[i])
  {
    if records == [] then [] else RecordsFor(c, records[..|records| - 1]) + [RecordFor(c, records[|records| - 1])]
  }

  function AsLines(fields: seq<RecordFields>): (lines: seq<Line>)
    ensures |lines| == |fields|
    ensures forall i :: 0 <= i < |fields| ==> lines[i] == RecordLine(fields[i])
  {
    if fields == [] then [] else AsLines(fields[..|fields| - 1]) + [RecordLine(fields[|fields| - 1])]
  }

  function BlockLines(c: Codec, t: Taken): seq<Line> {
    [RunLine(BlockHeader(t))] + AsLines(RecordsFor(c, t.records))
  }

  function BlocksLines(c: Codec, takens: seq<Taken>): seq<Line> {
    if takens == [] then [] else BlocksLines(c, takens[..|takens| - 1]) + BlockLines(c, takens[|takens| - 1])
  }

  function CaseFor(row: CaseRow): CaseFields {
    CaseFields(Some(row.case_), Some(row.deadlines), Some(row.blobs), Given(row.hold), Given(row.erasure))
  }

  function CasesLines(rows: seq<CaseRow>): (lines: seq<Line>)
    ensures |lines| == |rows|
    ensures forall i :: 0 <= i < |rows| ==> lines[i] == CaseLine(CaseFor(rows[i]))
  {
    if rows == [] then [] else CasesLines(rows[..|rows| - 1]) + [CaseLine(CaseFor(rows[|rows| - 1]))]
  }

  // ── Counts ─────────────────────────────────────────────────────────────

  function Exported(takens: seq<Taken>): seq<RunId> {
    if takens == [] then []
    else
      Exported(takens[..|takens| - 1]) + (if takens[|takens| - 1].records != [] then [takens[|takens| - 1].run] else [])
  }

  function Unread(takens: seq<Taken>): seq<RunId> {
    if takens == [] then []
    else Unread(takens[..|takens| - 1]) + (if takens[|takens| - 1].records == [] then [takens[|takens| - 1].run] else [])
  }

  function RecordTotal(takens: seq<Taken>): nat {
    if takens == [] then 0 else RecordTotal(takens[..|takens| - 1]) + |takens[|takens| - 1].records|
  }

  function TrailerFor(takens: seq<Taken>, rows: seq<CaseRow>): TrailerFields {
    TrailerFields(Some(|takens|), Some(|Exported(takens)|), Some(RecordTotal(takens)), Some(|rows|), Unread(takens))
  }

  function FileOf(c: Codec, cp: Checkpoint, package: Option<Selection>, takens: seq<Taken>,
                  rows: seq<CaseRow>): seq<Line> {
    [HeaderFor(cp, package)] + BlocksLines(c, takens) + CasesLines(rows) + [EndLine(TrailerFor(takens, rows))]
  }

  // ── What the writer promises ───────────────────────────────────────────

  function StampsOf(records: seq<Record>): set<CaseId> {
    if records == [] then {}
    else
      StampsOf(records[..|records| - 1]) +
      (match records[|records| - 1].body.case_ case Some(id) => {id} case None => {})
  }

  function StampsTaken(takens: seq<Taken>): set<CaseId> {
    if takens == [] then {} else StampsTaken(takens[..|takens| - 1]) + StampsOf(takens[|takens| - 1].records)
  }

  /** The path a package carries for a run below the header's size. */
  function PathFor(h: Hash, p0: Plane, package: bool, placed: Option<(nat, Digest)>): Option<seq<Digest>> {
    if package && placed.Some?
    then Some(Merkle.InclusionProof(h, LogHashes(h, p0, |p0.log|), placed.value.0))
    else None
  }

  /** `t` is a run of the plane the checkpoint was read from, grown into `p1`:
      placed exactly when it was sealed below the checkpoint's size, and read as
      an honest history, in full if it was sealed there. */
  ghost predicate TakenFrom(c: Codec, p0: Plane, p1: Plane, package: bool, t: Taken) {
    t.placed == PositionOf(p0, t.run) && t.proof == PathFor(c.hash, p0, package, t.placed) &&
    (t.records != [] ==>
       HonestRun(c, t.run, t.records) && t.run in p1.runs && t.records <= p1.runs[t.run] &&
       (t.placed.Some? ==> t.records == RecordsOf(p0, t.run)))
  }

  function IdsCarried(rows: seq<CaseRow>): set<CaseId> {
    if rows == [] then {} else IdsCarried(rows[..|rows| - 1]) + {rows[|rows| - 1].case_.id}
  }

  /** The store held this row at some time between two planes. */
  ghost predicate HeldBetween(p: Plane, q: Plane, row: CaseRow) {
    exists m :: Grown(p, m) && Grown(m, q) && row.case_.id in m.cases && m.cases[row.case_.id] == row
  }

  /** Rows the store held, one for a case, least id first. */
  ghost predicate RowsHeld(p: Plane, q: Plane, rows: seq<CaseRow>) {
    (forall i :: 0 <= i < |rows| ==> HeldBetween(p, q, rows[i])) &&
    forall i, j :: 0 <= i < j < |rows| ==> rows[i].case_.id < rows[j].case_.id
  }

  lemma {:induction false} RowsHeldStay(p0: Plane, p: Plane, q: Plane, r: Plane, rows: seq<CaseRow>)
    requires Grown(p0, p) && RowsHeld(p, q, rows) && Grown(q, r)
    ensures RowsHeld(p0, r, rows)
  {
    hide Grown;
    forall i | 0 <= i < |rows| ensures HeldBetween(p0, r, rows[i]) {
      assert HeldBetween(p, q, rows[i]);
      var m :| Grown(p, m) && Grown(m, q) && rows[i].case_.id in m.cases && m.cases[rows[i].case_.id] == rows[i];
      GrownIsTransitive(p0, p, m);
      GrownIsTransitive(m, q, r);
    }
  }

  lemma RowIsHeld(p: Plane, q: Plane, row: CaseRow)
    requires Grown(p, q) && row.case_.id in q.cases && q.cases[row.case_.id] == row
    ensures HeldBetween(p, q, row)
  {
    hide Grown;
    GrownIsReflexive(q);
  }

  lemma RowsHeldGrow(p: Plane, q: Plane, rows: seq<CaseRow>, more: seq<CaseRow>)
    requires RowsHeld(p, q, rows) && RowsHeld(p, q, more)
    requires forall i, j :: 0 <= i < |rows| && 0 <= j < |more| ==> rows[i].case_.id < more[j].case_.id
    ensures RowsHeld(p, q, rows + more)
  {
    hide HeldBetween;
  }

  function AskedFor(selection: Selection): set<CaseId> {
    set id | id in selection.cases
  }

  /** A file written over `runs` while the store grew from `p0` to `p1`. */
  ghost predicate WrittenFrom(c: Codec, p0: Plane, p1: Plane, runs: seq<RunId>, package: Option<Selection>,
                              takens: seq<Taken>, rows: seq<CaseRow>) {
    |takens| == |runs| &&
    (forall i :: 0 <= i < |runs| ==> takens[i].run == runs[i] && TakenFrom(c, p0, p1, package.Some?, takens[i])) &&
    StampsTaken(takens) <= IdsCarried(rows) &&
    (package.None? ==> p0.cases.Keys <= IdsCarried(rows)) &&
    (package.Some? ==> forall id :: id in package.value.cases && id in p0.cases ==> id in IdsCarried(rows)) &&
    RowsHeld(p0, p1, rows) && (package.Some? ==> IdsCarried(rows) <= AskedFor(package.value) + StampsTaken(takens))
  }

  /** The runs taken that a package may not be handed over with: their records
      hold a sealing conclusion and their block has no place. */
  function Unplaced(takens: seq<Taken>): seq<RunId> {
    if takens == [] then []
    else
      var t := takens[|takens| - 1];
      Unplaced(takens[..|takens| - 1]) +
      (if t.placed.None? && HasSealingConclusion(t.records) then [t.run] else [])
  }
}
