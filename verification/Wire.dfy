/** What a record says and what an export line carries: the data of
    src/journal/record.rs and src/export.rs.

    JSON text is not modelled: a line is a value of `Line`, and the bytes of a
    record are read through a `Codec` whose functions are arbitrary. */
module Wire {
  import opened Wrappers
  import opened Hashing

  /** A run id, below 2^128 and ordered as it is minted. */
  type RunId = r: nat | r < 0x1_0000_0000_0000_0000_0000_0000_0000_0000

  type CaseId = nat

  datatype Phase = Forward | Compensating

  /** How a run ended.  `Unrecognised` is an outcome this build does not know. */
  datatype Outcome =
    | Succeeded | Cancelled | Abandoned | Swept | BrokeGlass | HaltLifted | HoldReleased | Observed | Assessed
    | Failed | Replanning | Exhausted | Quarantined | Withheld | Unrecognised(name: string)

  /** The conclusions nothing may resume. */
  predicate Seals(o: Outcome) {
    o.Succeeded? || o.Cancelled? || o.Abandoned? || o.Swept? || o.BrokeGlass? || o.HaltLifted? ||
    o.HoldReleased? || o.Observed? || o.Assessed?
  }

  datatype EffectKind = ToolCall | Commission | OtherEffect

  /** A tool reference as a call or a grant names it. */
  datatype ToolId = ToolId(server: string, name: string)

  datatype RecordKind =
    | RunAdmitted(governedBy: Option<Digest>)
    | RunSuspended
    | RunConcluded(outcome: Outcome, chainHead: Digest)
    | GroupOpened(group: string)
    | GroupSettled(group: string)
    | EffectStarted(effect: EffectKind, called: Option<ToolId>, outboundBytes: Option<nat>)
    | PolicyDenied(resource: EffectKind)
    | OtherKind

  datatype Body = Body(seq_: nat, run: RunId, case_: Option<CaseId>, step: Option<nat>, phase: Phase,
                       epoch: nat, effectKey: Option<nat>, kind: RecordKind)

  /** What a reader makes of a record's bytes. */
  datatype Reading =
    | Readable(body: Body)
    | UnknownVersion
    | UnreadableShape
    | NotARecord

  datatype Json = Json(text: string)

  /** How bytes are hashed and read.  `read` goes through the upcaster, `seqOf`
      is the `seq` member the bytes' own JSON carries, and `canon` is the one
      spelling of a JSON value under the export's canonicalization rule. */
  datatype Codec = Codec(
    hash: Hash,
    read: Bytes -> Reading,
    json: Bytes -> Option<Json>,
    canon: Json -> Bytes,
    seqOf: Bytes -> Option<nat>)

  /** Bytes that are JSON and are not that value's canonical spelling. */
  predicate Uncanonical(c: Codec, raw: Bytes) {
    var j := c.json(raw);
    j.Some? && c.canon(j.value) != raw
  }

  datatype Signature = Signature(keyId: nat, bytes: Bytes)

  /** Whether a signature over a chain hash verifies under the keys supplied. */
  type SignatureCheck = (Digest, Signature) -> bool

  datatype Record = Record(body: Body, prev: Digest, hash: Digest, signature: Option<Signature>, raw: Bytes)

  function Raws(records: seq<Record>): (raws: seq<Bytes>)
    ensures |raws| == |records|
    ensures forall i :: 0 <= i < |records| ==> raws[i] == records[i].raw
  {
    if records == [] then [] else Raws(records[..|records| - 1]) + [records[|records| - 1].raw]
  }

  lemma RawsOfAppend(records: seq<Record>, r: Record)
    ensures Raws(records + [r]) == Raws(records) + [r.raw]
  {
    assert (records + [r])[..|records|] == records;
  }

  datatype Checkpoint = Checkpoint(origin: string, size: nat, root: Digest)

  /** A checkpoint somebody outside holds. */
  datatype Anchor = Anchor(checkpoint: Checkpoint, obtainedFrom: string)

  /** A member of a line: missing, present and unreadable, or read. */
  datatype Field<+T> = Missing | Unreadable | Given(value: T)

  datatype Selection = Selection(cases: seq<CaseId>, runs: seq<RunId>)

  datatype Case = Case(id: CaseId, runs: seq<RunId>, content: Json)

  datatype HeaderKind = WholeExport | DisclosurePackage

  datatype HeaderFields = HeaderFields(version: Option<nat>, canon: Option<nat>, checkpoint: Field<Checkpoint>,
                                       selection: Option<Selection>)

  datatype RunFields = RunFields(run: Option<RunId>, index: Field<nat>, seal: Field<Digest>,
                                 proof: Option<seq<Digest>>)

  datatype RecordFields = RecordFields(raw: Option<Bytes>, hash: Option<Digest>, body: Option<Json>,
                                       seq_: Option<nat>, prevHash: Option<Digest>, signature: Option<Signature>)

  datatype CaseFields = CaseFields(case_: Option<Case>, deadlines: Option<Json>, blobs: Option<seq<Digest>>,
                                   hold: Field<Option<Json>>, erasure: Field<Option<Json>>)

  datatype TrailerFields = TrailerFields(runsRequested: Option<nat>, runsExported: Option<nat>, records: Option<nat>,
                                         cases: Option<nat>, unreadable: seq<RunId>)

  /** One line of a file.  A line without a `kind` is a record line.  One of a
      kind no reader knows carries whatever members a record would; `named` says
      whether that kind is a string, as one reader asks. */
  datatype Line =
    | Blank
    | NotJson
    | HeaderLine(kind: HeaderKind, header: HeaderFields)
    | RunLine(block: RunFields)
    | RecordLine(record: RecordFields)
    | CaseLine(case_: CaseFields)
    | EndLine(trailer: TrailerFields)
    | UnknownLine(record: RecordFields, named: bool)

  /** The largest a record's bytes may be. */
  const MAX_RECORD_BYTES: nat := 0x10_0000

  const FORMAT_VERSION: nat := 1
  const CANON_VERSION: nat := 1

  /** The records' last conclusion, if there is one. */
  function ConcludedOutcome(records: seq<Record>): Option<Outcome> {
    if records == [] then None
    else
      var last := records[|records| - 1].body.kind;
      if last.RunConcluded? then Some(last.outcome) else ConcludedOutcome(records[..|records| - 1])
  }

  /** The run is over for good, by its last conclusion. */
  predicate HasSealingConclusion(records: seq<Record>) {
    var o := ConcludedOutcome(records);
    o.Some? && Seals(o.value)
  }
}
