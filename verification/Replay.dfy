/** What a restore does to a store nobody else is writing to: the refusals, the
    replay in batches of one epoch, and the seals in log order. */
module Replay {
  import opened Wrappers
  import opened Hashing
  import opened Wire
  import opened Planes
  import opened Stores
  import opened ParseSpec

  datatype RestoreError =
    | FileRefused(why: Refusal) | WrongFormat | WrongRule | CutShort | TargetSeals | AlreadyHeld(run: RunId)
    | StoreFailed(store: StoreError) | HashDiffers(run: RunId)

  /** The refusals made before the first write. */
  predicate BeforeWriting(e: RestoreError) {
    !e.StoreFailed? && !e.HashDiffers?
  }

  function Refuse(sealsPayloads: bool, parsed: Parsed): Option<RestoreError> {
    if parsed.version != Some(FORMAT_VERSION) then Some(WrongFormat)
    else if parsed.canon != Some(CANON_VERSION) then Some(WrongRule)
    else if !parsed.complete then Some(CutShort)
    else if sealsPayloads then Some(TargetSeals)
    else None
  }

  /** The first run of the file the store already holds records of. */
  function HeldAmong(p: Plane, runs: seq<Restored>): Option<RunId> {
    if runs == [] then None
    else
      var earlier := HeldAmong(p, runs[..|runs| - 1]);
      if earlier.Some? then earlier
      else if HeadOf(RecordsOf(p, runs[|runs| - 1].run)).seq_ != 0 then Some(runs[|runs| - 1].run)
      else None
  }

  // ── Batches ────────────────────────────────────────────────────────────

  /** The records in order, cut wherever the epoch changes. */
  function Batches(records: seq<Record>): (batches: seq<seq<Record>>)
    ensures forall i :: 0 <= i < |batches| ==> batches[i] != []
  {
    if records == [] then [] else AddRecord(Batches(records[..|records| - 1]), records[|records| - 1])
  }

  function AddRecord(batches: seq<seq<Record>>, r: Record): (grown: seq<seq<Record>>)
    requires forall i :: 0 <= i < |batches| ==> batches[i] != []
    ensures forall i :: 0 <= i < |grown| ==> grown[i] != []
  {
    if batches != [] && batches[|batches| - 1][0].body.epoch == r.body.epoch
    then batches[..|batches| - 1] + [batches[|batches| - 1] + [r]]
    else batches + [[r]]
  }

  function Flat(batches: seq<seq<Record>>): seq<Record> {
    if batches == [] then [] else Flat(batches[..|batches| - 1]) + batches[|batches| - 1]
  }

  lemma FlatOfAppend(batches: seq<seq<Record>>, batch: seq<Record>)
    ensures Flat(batches + [batch]) == Flat(batches) + batch
  {
    assert (batches + [batch])[..|batches|] == batches;
  }

  lemma {:induction false} FlatOfAdd(batches: seq<seq<Record>>, r: Record)
    requires forall i :: 0 <= i < |batches| ==> batches[i] != []
    ensures Flat(AddRecord(batches, r)) == Flat(batches) + [r]
  {
    hide Flat;
    var m := |batches| - 1;
    if m >= 0 && batches[m][0].body.epoch == r.body.epoch {
      FlatOfAppend(batches[..m], batches[m] + [r]);
      FlatOfAppend(batches[..m], batches[m]);
      assert batches[..m] + [batches[m]] == batches;
      assert Flat(batches[..m]) + (batches[m] + [r]) == Flat(batches[..m]) + batches[m] + [r];
    } else {
      FlatOfAppend(batches, [r]);
    }
  }

  /** Cutting loses nothing. */
  lemma {:induction false} FlatOfBatches(records: seq<Record>)
    ensures Flat(Batches(records)) == records
  {
    hide Flat, AddRecord;
    if records != [] {
      var n := |records| - 1;
      FlatOfBatches(records[..n]);
      FlatOfAdd(Batches(records[..n]), records[n]);
      assert records == records[..n] + [records[n]];
    } else {
      assert Batches(records) == [];
      NoBatches();
    }
  }

  lemma NoBatches()
    ensures Flat([]) == []
  {
  }

  /** Every batch is under one epoch. */
  lemma {:induction false} BatchesAreOneEpoch(records: seq<Record>)
    ensures forall i, j | 0 <= i < |Batches(records)| && 0 <= j < |Batches(records)[i]| ::
              Batches(records)[i][j].body.epoch == Batches(records)[i][0].body.epoch
  {
    if records != [] {
      BatchesAreOneEpoch(records[..|records| - 1]);
    }
  }

  // ── The replay ─────────────────────────────────────────────────────────

  predicate HashesMatch(written: seq<Record>, claimed: seq<Digest>) {
    forall i :: 0 <= i < |written| && i < |claimed| ==> written[i].hash == claimed[i]
  }

  /** One batch appended and held to the hashes the file claims for it. */
  function ReplayBatch(c: Codec, p: Plane, leases: map<RunId, nat>, run: RunId, batch: seq<Record>,
                       claimed: seq<Digest>)
    : Result<Plane, RestoreError>
    requires batch != []
  {
    match AppendTo(c, p, leases, batch[0].body.epoch, batch)
    case Err(e) => Err(StoreFailed(e))
    case Ok(written) =>
      if HashesMatch(written, claimed) then Ok(WithRecords(p, batch, written)) else Err(HashDiffers(run))
  }

  function From(claimed: seq<Digest>, n: nat): seq<Digest> {
    if n <= |claimed| then claimed[n..] else []
  }

  function ReplayBatches(c: Codec, p: Plane, leases: map<RunId, nat>, r: Restored, batches: seq<seq<Record>>)
    : Result<Plane, RestoreError>
    requires forall i :: 0 <= i < |batches| ==> batches[i] != []
  {
    if batches == [] then Ok(p)
    else
      var front := batches[..|batches| - 1];
      match ReplayBatches(c, p, leases, r, front)
      case Err(e) => Err(e)
      case Ok(q) => ReplayBatch(c, q, leases, r.run, batches[|batches| - 1], From(r.hashes, |Flat(front)|))
  }

  function ReplayRuns(c: Codec, p: Plane, leases: map<RunId, nat>, runs: seq<Restored>): Result<Plane, RestoreError> {
    if runs == [] then Ok(p)
    else
      match ReplayRuns(c, p, leases, runs[..|runs| - 1])
      case Err(e) => Err(e)
      case Ok(q) => ReplayBatches(c, q, leases, runs[|runs| - 1], Batches(runs[|runs| - 1].records))
  }

  // ── The seals ──────────────────────────────────────────────────────────

  function InsertByIndex(runs: seq<Restored>, r: Restored): seq<Restored>
    requires r.index.Some? && forall i :: 0 <= i < |runs| ==> runs[i].index.Some?
    ensures forall i :: 0 <= i < |InsertByIndex(runs, r)| ==> InsertByIndex(runs, r)[i].index.Some?
  {
    if runs == [] || runs[|runs| - 1].index.value <= r.index.value then runs + [r]
    else InsertByIndex(runs[..|runs| - 1], r) + [runs[|runs| - 1]]
  }

  /** The runs the file places, in log order; equal positions keep file order. */
  function ByIndex(runs: seq<Restored>): (sorted: seq<Restored>)
    ensures forall i :: 0 <= i < |sorted| ==> sorted[i].index.Some?
  {
    if runs == [] then []
    else
      var front := ByIndex(runs[..|runs| - 1]);
      if runs[|runs| - 1].index.Some? then InsertByIndex(front, runs[|runs| - 1]) else front
  }

  /** A run is sealed only once it carries records and a conclusion. */
  predicate Sealable(r: Restored) {
    r.outcome.Some? && r.records != []
  }

  function SealRun(p: Plane, leases: map<RunId, nat>, r: Restored): Result<Plane, RestoreError> {
    if !Sealable(r) then Ok(p)
    else
      match SealIn(p, leases, r.run, r.records[|r.records| - 1].body.epoch)
      case Err(e) => Err(StoreFailed(e))
      case Ok(_) => Ok(WithSeal(p, r.run))
  }

  function SealRuns(p: Plane, leases: map<RunId, nat>, sorted: seq<Restored>): Result<Plane, RestoreError> {
    if sorted == [] then Ok(p)
    else
      match SealRuns(p, leases, sorted[..|sorted| - 1])
      case Err(e) => Err(e)
      case Ok(q) => SealRun(q, leases, sorted[|sorted| - 1])
  }

  // ── The whole restore ──────────────────────────────────────────────────

  /** What restoring `parsed` into a quiet store makes of it. */
  function Restoring(c: Codec, p: Plane, leases: map<RunId, nat>, sealsPayloads: bool, parsed: Parsed)
    : Result<Plane, RestoreError>
  {
    var refused := Refuse(sealsPayloads, parsed);
    if refused.Some? then Err(refused.value)
    else
      var held := HeldAmong(p, parsed.runs);
      if held.Some? then Err(AlreadyHeld(held.value))
      else
        match ReplayRuns(c, p, leases, parsed.runs)
        case Err(e) => Err(e)
        case Ok(q) => SealRuns(q, leases, ByIndex(parsed.runs))
  }

  /** The commitment, not the label: equal size and equal root. */
  predicate IsFaithful(expected: Checkpoint, rebuilt: Checkpoint) {
    expected.size == rebuilt.size && expected.root == rebuilt.root
  }
}
