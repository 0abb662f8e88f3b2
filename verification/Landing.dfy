/** Where a record handed to a store ends up, however other writers use it. */
module Landing {
  import opened Wrappers
  import opened Hashing
  import opened Wire
  import opened Planes
  import opened Stores
  import opened Replay

  /** Every record stands at the sequence number its body names. */
  ghost predicate Numbered(p: Plane) {
    forall run: RunId :: run in p.runs ==> InSequence(p.runs[run])
  }

  ghost predicate InSequence(records: seq<Record>) {
    forall i :: 0 <= i < |records| ==> records[i].body.seq_ == i + 1
  }

  lemma HonestIsNumbered(c: Codec, p: Plane)
    requires Honest(c, p)
    ensures Numbered(p)
  {
    hide Hashing.Head, Chain, Uncanonical, Stamped;
    forall run: RunId | run in p.runs ensures InSequence(p.runs[run]) {
      assert HonestRun(c, run, p.runs[run]);
      forall i | 0 <= i < |p.runs[run]| ensures p.runs[run][i].body.seq_ == i + 1 {
        assert HonestRecord(c, run, p.runs[run], i);
      }
    }
  }

  lemma ApplyKeepsNumbers(c: Codec, p: Plane, act: Action)
    requires Numbered(p)
    ensures Numbered(Apply(c, p, act))
  {
    hide Hashing.Head, Chain, Uncanonical, Concluded;
  }

  /** No turn of the environment breaks the numbering. */
  lemma {:induction false} TurnKeepsNumbers(c: Codec, p: Plane, acts: seq<Action>)
    requires Numbered(p)
    ensures Numbered(ApplyAll(c, p, acts))
  {
    hide Apply, Numbered;
    if acts != [] {
      TurnKeepsNumbers(c, p, acts[..|acts| - 1]);
      ApplyKeepsNumbers(c, ApplyAll(c, p, acts[..|acts| - 1]), acts[|acts| - 1]);
    }
  }

  lemma TurnedIsNumbered(c: Codec, p: Plane, schedule: seq<Turn>)
    requires Numbered(p)
    ensures Numbered(Turned(c, p, schedule))
  {
    hide Numbered, ApplyAll;
    if schedule != [] {
      TurnKeepsNumbers(c, p, schedule[0].acts);
    }
  }

  /** The store holds these bytes where they say they belong, under this hash. */
  ghost predicate Lands(c: Codec, q: Plane, raw: Bytes, hash: Digest) {
    c.read(raw).Readable? &&
    var body := c.read(raw).body;
    var held := RecordsOf(q, body.run);
    1 <= body.seq_ <= |held| && held[body.seq_ - 1].raw == raw && held[body.seq_ - 1].hash == hash
  }

  lemma LandedStays(c: Codec, p: Plane, q: Plane, raw: Bytes, hash: Digest)
    requires Lands(c, p, raw, hash) && Grown(p, q)
    ensures Lands(c, q, raw, hash)
  {
  }

  lemma OneNumbers(c: Codec, run: RunId, records: seq<Record>, epoch: nat, raw: Bytes)
    requires InSequence(records) && AppendOne(c, run, records, epoch, raw).Ok?
    ensures InSequence(records + [AppendOne(c, run, records, epoch, raw).value])
    ensures AppendOne(c, run, records, epoch, raw).value.raw == raw && c.read(raw).Readable?
    ensures c.read(raw).body.run == run && c.read(raw).body.seq_ == |records| + 1
  {
    hide Chain;
  }

  /** A batch the store takes goes on from what it holds, each record at the place
      its bytes name. */
  lemma {:induction false} AppendNumbers(c: Codec, run: RunId, records: seq<Record>, epoch: nat, raws: seq<Bytes>)
    requires InSequence(records) && AppendAll(c, run, records, epoch, raws).Ok?
    ensures var grown := AppendAll(c, run, records, epoch, raws).value;
            InSequence(grown) &&
            forall j :: 0 <= j < |raws| ==>
              var r := grown[|records| + j];
              r.raw == raws[j] && c.read(raws[j]).Readable? && c.read(raws[j]).body.run == run &&
              c.read(raws[j]).body.seq_ == |records| + j + 1
  {
    hide AppendOne, InSequence;
    if raws != [] {
      var n := |raws| - 1;
      AppendNumbers(c, run, records, epoch, raws[..n]);
      OneNumbers(c, run, AppendAll(c, run, records, epoch, raws[..n]).value, epoch, raws[n]);
    }
  }

  lemma HistoryGrows(p: Plane, run: RunId, written: seq<Record>)
    requires run !in p.log
    ensures var q := p.(runs := p.runs[run := RecordsOf(p, run) + written]);
            Grown(p, q) && RecordsOf(q, run) == RecordsOf(p, run) + written
  {
  }

  lemma HistoryNumbered(p: Plane, run: RunId, written: seq<Record>)
    requires Numbered(p) && InSequence(RecordsOf(p, run) + written)
    ensures Numbered(p.(runs := p.runs[run := RecordsOf(p, run) + written]))
  {
    hide InSequence;
  }

  /** What the store answers with is what it put at the end of the run. */
  lemma AppendIs(c: Codec, p: Plane, leases: map<RunId, nat>, epoch: nat, batch: seq<Record>, written: seq<Record>)
    requires batch != [] && AppendTo(c, p, leases, epoch, batch) == Ok(written)
    ensures var run := batch[0].body.run;
            run !in p.log && |written| == |batch| &&
            AppendAll(c, run, RecordsOf(p, run), epoch, Raws(batch)) == Ok(RecordsOf(p, run) + written) &&
            WithRecords(p, batch, written) == p.(runs := p.runs[run := RecordsOf(p, run) + written])
  {
    hide AppendAll;
    var before := RecordsOf(p, batch[0].body.run);
    var all := AppendAll(c, batch[0].body.run, before, epoch, Raws(batch)).value;
    assert all == before + all[|before|..];
  }

  /** The records of one batch, numbered and read. */
  lemma {:induction false} BatchNumbers(c: Codec, p: Plane, leases: map<RunId, nat>, epoch: nat, batch: seq<Record>,
                                        written: seq<Record>)
    requires Numbered(p) && batch != [] && AppendTo(c, p, leases, epoch, batch) == Ok(written)
    ensures Numbered(WithRecords(p, batch, written)) && |written| == |batch|
    ensures forall j :: 0 <= j < |batch| ==> Lands(c, WithRecords(p, batch, written), batch[j].raw, written[j].hash)
  {
    hide AppendAll, AppendTo, WithRecords, Raws, InSequence;
    var run := batch[0].body.run;
    var before := RecordsOf(p, run);
    AppendIs(c, p, leases, epoch, batch, written);
    NothingInSequence();
    AppendNumbers(c, run, before, epoch, Raws(batch));
    HistoryNumbered(p, run, written);
    HistoryGrows(p, run, written);
    forall j | 0 <= j < |batch| ensures Lands(c, WithRecords(p, batch, written), batch[j].raw, written[j].hash) {
      assert (before + written)[|before| + j] == written[j];
    }
  }

  /** What one batch held to its hashes leaves. */
  lemma {:induction false} BatchLands(c: Codec, p: Plane, leases: map<RunId, nat>, epoch: nat, batch: seq<Record>,
                                      written: seq<Record>, claimed: seq<Digest>)
    requires AppendTo(c, p, leases, epoch, batch) == Ok(written)
    ensures Grown(p, WithRecords(p, batch, written))
    ensures Numbered(p) ==> Numbered(WithRecords(p, batch, written))
    ensures Numbered(p) && HashesMatch(written, claimed) ==>
              forall j :: 0 <= j < |batch| && j < |claimed| ==>
                Lands(c, WithRecords(p, batch, written), batch[j].raw, claimed[j])
  {
    hide AppendTo, Grown, Numbered, Lands;
    GrownIsReflexive(p);
    if batch != [] {
      AppendIs(c, p, leases, epoch, batch, written);
      HistoryGrows(p, batch[0].body.run, written);
      if Numbered(p) {
        BatchNumbers(c, p, leases, epoch, batch, written);
      }
    }
  }

  lemma NothingInSequence()
    ensures InSequence([])
  {
  }

  /** Every record of a run has landed under the hash the file claims for it. */
  ghost predicate AllLand(c: Codec, q: Plane, records: seq<Record>, hashes: seq<Digest>) {
    forall j :: 0 <= j < |records| && j < |hashes| ==> Lands(c, q, records[j].raw, hashes[j])
  }

  lemma AllLandStays(c: Codec, p: Plane, q: Plane, records: seq<Record>, hashes: seq<Digest>)
    requires AllLand(c, p, records, hashes) && Grown(p, q)
    ensures AllLand(c, q, records, hashes)
  {
    hide Lands, Grown;
    forall j | 0 <= j < |records| && j < |hashes| ensures Lands(c, q, records[j].raw, hashes[j]) {
      LandedStays(c, p, q, records[j].raw, hashes[j]);
    }
  }

  /** One batch more. */
  lemma {:induction false} AllLandGrows(c: Codec, p: Plane, leases: map<RunId, nat>, epoch: nat, done: seq<Record>,
                                        batch: seq<Record>, written: seq<Record>, hashes: seq<Digest>)
    requires Numbered(p) && AllLand(c, p, done, hashes) && AppendTo(c, p, leases, epoch, batch) == Ok(written)
    requires HashesMatch(written, From(hashes, |done|))
    ensures AllLand(c, WithRecords(p, batch, written), done + batch, hashes)
  {
    hide Lands, Grown, AppendTo, WithRecords, HashesMatch, Numbered;
    var q, claimed := WithRecords(p, batch, written), From(hashes, |done|);
    BatchLands(c, p, leases, epoch, batch, written, claimed);
    AllLandStays(c, p, q, done, hashes);
    forall j | 0 <= j < |done + batch| && j < |hashes| ensures Lands(c, q, (done + batch)[j].raw, hashes[j]) {
      if j >= |done| {
        assert Lands(c, q, batch[j - |done|].raw, claimed[j - |done|]);
      }
    }
  }

  // ── Which batches the store takes ──────────────────────────────────────

  /** Record `j` of a batch reads as the run's next one, under the batch's epoch, and
      is no larger than a record may be. */
  predicate GoesOn(c: Codec, run: RunId, records: seq<Record>, epoch: nat, raws: seq<Bytes>, j: nat)
    requires j < |raws|
  {
    c.read(raws[j]).Readable? &&
    var body := c.read(raws[j]).body;
    body.seq_ == HeadOf(records).seq_ + j + 1 && body.epoch == epoch && body.run == run &&
    |raws[j]| <= MAX_RECORD_BYTES
  }

  predicate AllGoOn(c: Codec, run: RunId, records: seq<Record>, epoch: nat, raws: seq<Bytes>) {
    forall j :: 0 <= j < |raws| ==> GoesOn(c, run, records, epoch, raws, j)
  }

  /** Record `i` of a history, derived from bytes written after the record before it. */
  predicate DerivedAt(c: Codec, grown: seq<Record>, i: nat, raw: Bytes)
    requires i < |grown| && c.read(raw).Readable?
  {
    var prev := HeadOf(grown[..i]).hash;
    grown[i] == Record(c.read(raw).body, prev, Chain(c.hash, prev, raw), None, raw)
  }

  lemma NoneGoOn(c: Codec, run: RunId, records: seq<Record>, epoch: nat)
    ensures AllGoOn(c, run, records, epoch, [])
  {
  }

  lemma AllGoOnOfLast(c: Codec, run: RunId, records: seq<Record>, epoch: nat, raws: seq<Bytes>)
    requires raws != []
    ensures AllGoOn(c, run, records, epoch, raws) <==>
            AllGoOn(c, run, records, epoch, raws[..|raws| - 1]) && GoesOn(c, run, records, epoch, raws, |raws| - 1)
  {
    var n := |raws| - 1;
    assert forall j :: 0 <= j < n ==>
        GoesOn(c, run, records, epoch, raws, j) == GoesOn(c, run, records, epoch, raws[..n], j);
  }

  lemma {:induction false} AppendAllExactly(c: Codec, run: RunId, records: seq<Record>, epoch: nat, raws: seq<Bytes>)
    ensures AppendAll(c, run, records, epoch, raws).Ok? <==> AllGoOn(c, run, records, epoch, raws)
    ensures AppendAll(c, run, records, epoch, raws).Ok? ==>
              var grown := AppendAll(c, run, records, epoch, raws).value;
              HeadOf(grown).seq_ == HeadOf(records).seq_ + |raws| &&
              forall j :: 0 <= j < |raws| ==> c.read(raws[j]).Readable? && DerivedAt(c, grown, |records| + j, raws[j])
  {
    hide Chain, AllGoOn;
    if raws == [] {
      NoneGoOn(c, run, records, epoch);
    } else {
      var n := |raws| - 1;
      AppendAllExactly(c, run, records, epoch, raws[..n]);
      AllGoOnOfLast(c, run, records, epoch, raws);
      if AppendAll(c, run, records, epoch, raws).Ok? {
        var before := AppendAll(c, run, records, epoch, raws[..n]).value;
        var grown := AppendAll(c, run, records, epoch, raws).value;
        forall j | 0 <= j < |raws| ensures c.read(raws[j]).Readable? && DerivedAt(c, grown, |records| + j, raws[j]) {
          if j < n {
            assert DerivedAt(c, before, |records| + j, raws[..n][j]);
            assert grown[..|records| + j] == before[..|records| + j];
          } else {
            assert grown[..|records| + j] == before;
          }
        }
      }
    }
  }

  /** The store takes a batch exactly when it is of one run that is not sealed, under
      the epoch of that run's lease if it has one, and every record of it goes on from
      the run's head; it then derives each record from its bytes and the record before
      it.  A fence comes before a seal, and both before the records. */
  lemma {:induction false} AppendExactly(c: Codec, p: Plane, leases: map<RunId, nat>, epoch: nat, batch: seq<Record>)
    requires batch != []
    ensures var run := batch[0].body.run;
            var r, fenced := AppendTo(c, p, leases, epoch, batch), run in leases && leases[run] != epoch;
            (r.Ok? <==> OneRun(batch) && !fenced && run !in p.log &&
                        AllGoOn(c, run, RecordsOf(p, run), epoch, Raws(batch))) &&
            (r == Err(BatchSpansRuns) <==> !OneRun(batch)) &&
            (OneRun(batch) && fenced <==> r.Err? && r.error.Fenced?) &&
            (OneRun(batch) && !fenced && run in p.log <==> r == Err(RunSealed)) &&
            (r.Ok? ==>
               |r.value| == |batch| &&
               forall j :: 0 <= j < |batch| ==>
                 c.read(batch[j].raw).Readable? &&
                 DerivedAt(c, RecordsOf(p, run) + r.value, |RecordsOf(p, run)| + j, batch[j].raw))
  {
    hide Chain, AllGoOn, DerivedAt, AppendAll;
    var run := batch[0].body.run;
    AppendAllExactly(c, run, RecordsOf(p, run), epoch, Raws(batch));
    AppendErrs(c, run, RecordsOf(p, run), epoch, Raws(batch));
    if AppendTo(c, p, leases, epoch, batch).Ok? {
      AppendIs(c, p, leases, epoch, batch, AppendTo(c, p, leases, epoch, batch).value);
    }
  }

  lemma {:induction false} AppendErrs(c: Codec, run: RunId, records: seq<Record>, epoch: nat, raws: seq<Bytes>)
    ensures var r := AppendAll(c, run, records, epoch, raws);
            r.Err? ==> r.error.Corrupt? || r.error.RecordTooLarge? || r.error.UnknownRecordVersion?
  {
    hide Chain;
    if raws != [] {
      AppendErrs(c, run, records, epoch, raws[..|raws| - 1]);
    }
  }

  lemma SealGrows(p: Plane, run: RunId)
    ensures Grown(p, WithSeal(p, run)) && run in WithSeal(p, run).log
    ensures Numbered(p) ==> Numbered(WithSeal(p, run))
  {
  }
}
