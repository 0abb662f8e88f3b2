/** What restoring a parsed file into a quiet, lease-free store makes of it,
    run by run. */
module SoundRestore {
  import opened Wrappers
  import opened Hashing
  import opened Wire
  import opened Planes
  import opened Stores
  import opened ParseSpec
  import opened Replay

  /** Record `j` of a run reads as the record at its place, linked to the one
      before it, and carries no signature yet. */
  ghost predicate ReplaysAt(c: Codec, run: RunId, records: seq<Record>, j: nat)
    requires j < |records|
  {
    var r := records[j];
    c.read(r.raw) == Readable(r.body) && r.body.seq_ == j + 1 && r.body.run == run && r.signature.None? &&
    r.prev == (if j == 0 then ZERO else records[j - 1].hash) && r.hash == Chain(c.hash, r.prev, r.raw)
  }

  ghost predicate Replays(c: Codec, r: Restored) {
    |r.hashes| == |r.records| &&
    forall j :: 0 <= j < |r.records| ==> ReplaysAt(c, r.run, r.records, j) && r.hashes[j] == r.records[j].hash
  }

  predicate Fits(records: seq<Record>) {
    forall j :: 0 <= j < |records| ==> |records[j].raw| <= MAX_RECORD_BYTES
  }

  const TOO_LARGE := StoreFailed(RecordTooLarge)

  lemma FitsTogether(a: seq<Record>, b: seq<Record>)
    ensures Fits(a + b) <==> Fits(a) && Fits(b)
  {
    if !Fits(a) {
      var j :| 0 <= j < |a| && |a[j].raw| > MAX_RECORD_BYTES;
      assert (a + b)[j] == a[j];
    } else if !Fits(b) {
      var j :| 0 <= j < |b| && |b[j].raw| > MAX_RECORD_BYTES;
      assert (a + b)[|a| + j] == b[j];
    }
  }

  ghost predicate OneEpoch(records: seq<Record>, from: nat, end: nat)
    requires from <= end <= |records|
  {
    forall j :: from <= j < end ==> records[j].body.epoch == records[from].body.epoch
  }

  /** The store derives the very record that was exported, or refuses it. */
  lemma AppendsRecord(c: Codec, run: RunId, records: seq<Record>, j: nat)
    requires j < |records| && ReplaysAt(c, run, records, j) && (j > 0 ==> ReplaysAt(c, run, records, j - 1))
    ensures AppendOne(c, run, records[..j], records[j].body.epoch, records[j].raw) ==
            if |records[j].raw| <= MAX_RECORD_BYTES then Ok(records[j]) else Err(RecordTooLarge)
  {
    hide Chain;
  }

  lemma {:induction false} AppendsStretch(c: Codec, run: RunId, records: seq<Record>, from: nat, end: nat)
    requires from <= end <= |records| && from < |records|
    requires forall j :: 0 <= j < |records| ==> ReplaysAt(c, run, records, j)
    requires OneEpoch(records, from, end)
    ensures var r := AppendAll(c, run, records[..from], records[from].body.epoch, Raws(records[from..end]));
            (r.Ok? ==> r.value == records[..end]) && (r.Ok? <==> Fits(records[from..end])) &&
            (r.Err? ==> r.error == RecordTooLarge)
    decreases end - from
  {
    hide AppendOne, ReplaysAt, Raws, Fits;
    NothingFits();
    if from == end {
      assert records[from..end] == [];
      NothingAppended(c, run, records[..from], records[from].body.epoch);
      RawsOfNone();
    } else {
      var n := end - 1;
      AppendsStretch(c, run, records, from, n);
      assert records[from..end] == records[from..n] + [records[n]];
      RawsOfAppend(records[from..n], records[n]);
      AppendAllOfAppend(c, run, records[..from], records[from].body.epoch, Raws(records[from..n]), records[n].raw);
      AppendsRecord(c, run, records, n);
      FitsTogether(records[from..n], [records[n]]);
      OneFits(records[n]);
      assert records[..end] == records[..n] + [records[n]];
    }
  }

  lemma NothingFits()
    ensures Fits([])
  {
  }

  lemma OneFits(r: Record)
    ensures Fits([r]) <==> |r.raw| <= MAX_RECORD_BYTES
  {
    assert [r][0] == r;
  }

  lemma RawsOfNone()
    ensures Raws([]) == []
  {
  }

  /** A run's history, in place of what the store held of it. */
  function WithHistory(p: Plane, run: RunId, records: seq<Record>): Plane {
    if records == [] then p else p.(runs := p.runs[run := records])
  }

  lemma {:induction false} ReplaysBatch(c: Codec, p: Plane, r: Restored, from: nat, end: nat)
    requires from < end <= |r.records| && Replays(c, r) && OneEpoch(r.records, from, end)
    requires r.run !in p.log && RecordsOf(p, r.run) == r.records[..from]
    ensures var made := ReplayBatch(c, p, map[], r.run, r.records[from..end], From(r.hashes, from));
            (made.Err? ==> made.error == TOO_LARGE) && (made.Ok? <==> Fits(r.records[from..end])) &&
            (made.Ok? ==> made.value == WithHistory(p, r.run, r.records[..end]))
  {
    hide AppendAll, ReplaysAt, Fits;
    var batch := r.records[from..end];
    AppendsStretch(c, r.run, r.records, from, end);
    BatchNamesRun(c, r, from, end);
    assert r.records[..end][from..] == batch;
    assert r.records[..from] + batch == r.records[..end];
  }

  lemma BatchNamesRun(c: Codec, r: Restored, from: nat, end: nat)
    requires from < end <= |r.records| && Replays(c, r)
    ensures OneRun(r.records[from..end]) && r.records[from..end][0].body.run == r.run
  {
    hide Chain;
    forall j | from <= j < end ensures r.records[j].body.run == r.run {
      assert ReplaysAt(c, r.run, r.records, j);
    }
  }

  /** Batch `i` is the stretch of the records its place says. */
  lemma {:induction false} BatchIsStretch(records: seq<Record>, batches: seq<seq<Record>>, i: nat)
    requires i < |batches| && Flat(batches) <= records
    ensures |Flat(batches[..i])| + |batches[i]| <= |records|
    ensures Flat(batches[..i]) == records[..|Flat(batches[..i])|]
    ensures batches[i] == records[|Flat(batches[..i])|..|Flat(batches[..i])| + |batches[i]|]
    ensures |Flat(batches[..i + 1])| == |Flat(batches[..i])| + |batches[i]|
    decreases |batches|
  {
    var n := |batches| - 1;
    if i < n {
      assert batches[..n][..i] == batches[..i] && batches[..n][..i + 1] == batches[..i + 1];
      BatchIsStretch(records, batches[..n], i);
    } else {
      assert batches[..i + 1] == batches;
    }
  }

  lemma {:induction false} ReplaysBatches(c: Codec, p: Plane, r: Restored, i: nat)
    requires i <= |Batches(r.records)| && Replays(c, r) && r.run !in p.log && RecordsOf(p, r.run) == []
    ensures var batches := Batches(r.records);
            var made := ReplayBatches(c, p, map[], r, batches[..i]);
            (made.Err? ==> made.error == TOO_LARGE) && (made.Ok? <==> Fits(Flat(batches[..i]))) &&
            (made.Ok? ==> |Flat(batches[..i])| <= |r.records| &&
                          made.value == WithHistory(p, r.run, r.records[..|Flat(batches[..i])|]))
  {
    hide Batches, ReplayBatch, ReplaysAt, Fits, Flat, Replays;
    var batches := Batches(r.records);
    if i == 0 {
      NoBatches();
      NothingFits();
      assert batches[..0] == [] && r.records[..0] == [];
    } else {
      var n := i - 1;
      assert batches[..i][..n] == batches[..n];
      ReplaysBatches(c, p, r, n);
      FlatOfBatches(r.records);
      BatchIsStretch(r.records, batches, n);
      BatchesAreOneEpoch(r.records);
      var from, end := |Flat(batches[..n])|, |Flat(batches[..i])|;
      EpochOfStretch(r.records, batches[n], from, end);
      FlatOfAppend(batches[..n], batches[n]);
      assert batches[..n] + [batches[n]] == batches[..i];
      FitsTogether(Flat(batches[..n]), batches[n]);
      var made := ReplayBatches(c, p, map[], r, batches[..n]);
      if made.Ok? {
        HistorySays(p, r.run, r.records[..from]);
        ReplaysBatch(c, made.value, r, from, end);
        HistoryTwice(p, r.run, r.records[..from], r.records[..end]);
      }
    }
  }

  lemma EpochOfStretch(records: seq<Record>, batch: seq<Record>, from: nat, end: nat)
    requires from < end <= |records| && batch == records[from..end]
    requires forall j :: 0 <= j < |batch| ==> batch[j].body.epoch == batch[0].body.epoch
    ensures OneEpoch(records, from, end)
  {
    forall j | from <= j < end ensures records[j].body.epoch == records[from].body.epoch {
      assert batch[j - from] == records[j];
    }
  }

  lemma HistorySays(p: Plane, run: RunId, records: seq<Record>)
    requires RecordsOf(p, run) == []
    ensures RecordsOf(WithHistory(p, run, records), run) == records && WithHistory(p, run, records).log == p.log
  {
  }

  lemma HistoryTwice(p: Plane, run: RunId, a: seq<Record>, b: seq<Record>)
    requires a <= b
    ensures WithHistory(WithHistory(p, run, a), run, b) == WithHistory(p, run, b)
  {
    if a != [] {
      assert b != [];
      assert p.runs[run := a][run := b] == p.runs[run := b];
    }
  }

  /** One run put back: the very records of the file, or a store refusal. */
  lemma {:induction false} ReplaysRun(c: Codec, p: Plane, r: Restored)
    requires Replays(c, r) && r.run !in p.log && RecordsOf(p, r.run) == []
    ensures var made := ReplayBatches(c, p, map[], r, Batches(r.records));
            (made.Err? ==> made.error == TOO_LARGE) && (made.Ok? <==> Fits(r.records)) &&
            (made.Ok? ==> made.value == WithHistory(p, r.run, r.records))
  {
    hide *;
    var batches := Batches(r.records);
    ReplaysBatches(c, p, r, |batches|);
    assert batches[..|batches|] == batches;
    FlatOfBatches(r.records);
    assert r.records[..|r.records|] == r.records;
  }

  // ── All the runs ───────────────────────────────────────────────────────

  function Overlay(p: Plane, runs: seq<Restored>): Plane {
    if runs == [] then p
    else WithHistory(Overlay(p, runs[..|runs| - 1]), runs[|runs| - 1].run, runs[|runs| - 1].records)
  }

  /** The file's runs are distinct and none of them is in the store. */
  ghost predicate Apart(p: Plane, runs: seq<Restored>) {
    (forall i, j :: 0 <= i < j < |runs| ==> runs[i].run != runs[j].run) &&
    forall i :: 0 <= i < |runs| ==> RecordsOf(p, runs[i].run) == [] && runs[i].run !in p.log
  }

  lemma {:induction false} OverlayElsewhere(p: Plane, runs: seq<Restored>, run: RunId)
    requires forall i :: 0 <= i < |runs| ==> runs[i].run != run
    ensures RecordsOf(Overlay(p, runs), run) == RecordsOf(p, run)
    ensures Overlay(p, runs).log == p.log && Overlay(p, runs).origin == p.origin && Overlay(p, runs).cases == p.cases
    ensures run in Overlay(p, runs).runs <==> run in p.runs
  {
    if runs != [] {
      OverlayElsewhere(p, runs[..|runs| - 1], run);
    }
  }

  lemma {:induction false} OverlayHolds(p: Plane, runs: seq<Restored>, i: nat)
    requires i < |runs| && Apart(p, runs)
    ensures RecordsOf(Overlay(p, runs), runs[i].run) == runs[i].records
    ensures Overlay(p, runs).log == p.log
  {
    var n := |runs| - 1;
    if i < n {
      OverlayHolds(p, runs[..n], i);
    } else {
      OverlayElsewhere(p, runs[..n], runs[n].run);
    }
  }

  predicate AllFit(runs: seq<Restored>) {
    forall i :: 0 <= i < |runs| ==> Fits(runs[i].records)
  }

  lemma {:induction false} ReplaysRuns(c: Codec, p: Plane, runs: seq<Restored>)
    requires Apart(p, runs) && forall i :: 0 <= i < |runs| ==> Replays(c, runs[i])
    ensures var made := ReplayRuns(c, p, map[], runs);
            (made.Err? ==> made.error == TOO_LARGE) && (made.Ok? ==> made.value == Overlay(p, runs)) &&
            (made.Ok? <==> AllFit(runs))
  {
    hide Replays, ReplayBatches, Batches, Fits, WithHistory;
    if runs != [] {
      var n := |runs| - 1;
      ReplaysRuns(c, p, runs[..n]);
      OverlayElsewhere(p, runs[..n], runs[n].run);
      ReplaysRun(c, Overlay(p, runs[..n]), runs[n]);
    }
  }

  // ── The seals ──────────────────────────────────────────────────────────

  /** The runs a restore seals, in order. */
  function SealedOf(sorted: seq<Restored>): seq<RunId> {
    if sorted == [] then []
    else
      SealedOf(sorted[..|sorted| - 1]) + (if Sealable(sorted[|sorted| - 1]) then [sorted[|sorted| - 1].run] else [])
  }

  ghost predicate AllConcluded(p: Plane, sorted: seq<Restored>) {
    forall i :: 0 <= i < |sorted| ==> Sealable(sorted[i]) ==> Concluded(RecordsOf(p, sorted[i].run))
  }

  lemma {:induction false} SealedAmong(sorted: seq<Restored>, run: RunId)
    requires run in SealedOf(sorted)
    ensures exists i :: 0 <= i < |sorted| && sorted[i].run == run
  {
    var n := |sorted| - 1;
    if run in SealedOf(sorted[..n]) {
      SealedAmong(sorted[..n], run);
      var i :| 0 <= i < n && sorted[..n][i].run == run;
      assert sorted[i].run == run;
    } else {
      assert sorted[n].run == run;
    }
  }

  lemma {:induction false} SealsRuns(p: Plane, sorted: seq<Restored>)
    requires p.log == [] && forall i, j :: 0 <= i < j < |sorted| ==> sorted[i].run != sorted[j].run
    ensures var made := SealRuns(p, map[], sorted);
            (made.Ok? ==> made.value == p.(log := SealedOf(sorted)) && AllConcluded(p, sorted)) &&
            (made.Err? ==> made.error == StoreFailed(NotConcluded)) &&
            (AllConcluded(p, sorted) ==> made.Ok?)
  {
    hide Concluded, Sealable, HeadOf;
    if sorted != [] {
      var n := |sorted| - 1;
      SealsRuns(p, sorted[..n]);
      if sorted[n].run in SealedOf(sorted[..n]) {
        SealedAmong(sorted[..n], sorted[n].run);
      }
    }
  }
}
