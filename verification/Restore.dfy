/** `restore_parsed`: a file replayed through the store's ordinary write path. */
module Restores {
  import opened Wrappers
  import opened Hashing
  import opened Wire
  import opened Planes
  import opened Stores
  import opened ParseSpec
  import opened Parser
  import opened Replay
  import opened Landing
  import opened Blocks
  import QuietFiles
  import AcceptedFiles
  import TwoReaders

  datatype RestoreReport = RestoreReport(expected: Checkpoint, rebuilt: Checkpoint, runs: nat, records: nat)

  /** A file this build may put back: of its format and rule, not cut short, and
      into a target that does not seal payloads. */
  predicate MayReplay(sealsPayloads: bool, parsed: Parsed) {
    parsed.version == Some(FORMAT_VERSION) && parsed.canon == Some(CANON_VERSION) && parsed.complete && !sealsPayloads
  }

  /** The first of the four that fails. */
  predicate RefusedFor(sealsPayloads: bool, parsed: Parsed, e: RestoreError) {
    var format, rule := parsed.version == Some(FORMAT_VERSION), parsed.canon == Some(CANON_VERSION);
    (!format && e.WrongFormat?) || (format && !rule && e.WrongRule?) ||
    (format && rule && !parsed.complete && e.CutShort?) ||
    (format && rule && parsed.complete && sealsPayloads && e.TargetSeals?)
  }

  /** None of the runs has a record yet. */
  ghost predicate NoneHeld(p: Plane, runs: seq<Restored>) {
    forall i :: 0 <= i < |runs| ==> RecordsOf(p, runs[i].run) == []
  }

  lemma HeadsAreHeld(c: Codec, p: Plane, q: Plane, run: RunId)
    requires Honest(c, p) && Grown(p, q) && HeadOf(RecordsOf(q, run)).seq_ == 0 && Honest(c, q)
    ensures RecordsOf(p, run) == []
  {
    hide Honest, HeadOf;
    if RecordsOf(q, run) != [] {
      HonestHead(c, q, run);
    }
  }

  lemma HonestHead(c: Codec, q: Plane, run: RunId)
    requires Honest(c, q) && RecordsOf(q, run) != []
    ensures HeadOf(RecordsOf(q, run)).seq_ == |RecordsOf(q, run)|
  {
    hide Uncanonical, Chain, Hashing.Head;
    var records := RecordsOf(q, run);
    assert HonestRecord(c, run, records, |records| - 1);
  }

  /** Nothing has been written yet: `Refuse`'s answer, or the first run the target
      already holds. */
  method RefuseBeforeWriting(store: Store, parsed: Parsed) returns (r: Option<RestoreError>)
    modifies store`runs, store`log, store`cases, store`schedule
    ensures Grown(old(store.View()), store.View()) && store.leases == old(store.leases)
    ensures old(Numbered(store.View())) ==> Numbered(store.View())
    ensures !MayReplay(store.sealsPayloads, parsed) ==>
              r.Some? && RefusedFor(store.sealsPayloads, parsed, r.value) && store.View() == old(store.View())
    ensures MayReplay(store.sealsPayloads, parsed) && r.Some? ==>
              r.value.StoreFailed? ||
              exists i :: 0 <= i < |parsed.runs| && r.value == AlreadyHeld(parsed.runs[i].run) &&
                          RecordsOf(store.View(), parsed.runs[i].run) != []
    ensures r.None? && old(Honest(store.c, store.View())) ==> NoneHeld(old(store.View()), parsed.runs)
    ensures NeverDown(old(store.schedule)) && r.Some? ==> !r.value.StoreFailed?
    ensures old(store.schedule) == [] ==> store.schedule == [] && store.View() == old(store.View())
    ensures old(store.schedule) == [] ==>
              r == (var refused := Refuse(store.sealsPayloads, parsed);
                    if refused.Some? then refused
                    else
                      match HeldAmong(old(store.View()), parsed.runs)
                      case Some(run) => Some(AlreadyHeld(run))
                      case None => None)
  {
    hide Grown, HeadOf, Honest, Numbered;
    GrownIsReflexive(store.View());
    var refused := Refuse(store.sealsPayloads, parsed);
    if refused.Some? {
      return refused;
    }
    assert parsed.runs[..|parsed.runs|] == parsed.runs;
    for i := 0 to |parsed.runs|
      invariant Grown(old(store.View()), store.View()) && store.leases == old(store.leases)
      invariant old(store.schedule) == [] ==> store.schedule == [] && store.View() == old(store.View())
      invariant old(store.schedule) == [] ==> HeldAmong(old(store.View()), parsed.runs[..i]).None?
      invariant old(Honest(store.c, store.View())) ==>
                  Honest(store.c, store.View()) && NoneHeld(old(store.View()), parsed.runs[..i])
      invariant NeverDown(old(store.schedule)) ==> NeverDown(store.schedule)
      invariant old(Numbered(store.View())) ==> Numbered(store.View())
    {
      ghost var q, turns := store.View(), store.schedule;
      if Numbered(q) {
        TurnedIsNumbered(store.c, q, turns);
      }
      assert parsed.runs[..i + 1][..i] == parsed.runs[..i];
      var head := store.CurrentHead(parsed.runs[i].run);
      GrownIsTransitive(old(store.View()), q, store.View());
      if head.Err? {
        return Some(StoreFailed(head.error));
      }
      if head.value.seq_ != 0 {
        HeldEarly(old(store.View()), parsed.runs, i + 1);
        HeadIsOfRecords(RecordsOf(store.View(), parsed.runs[i].run));
        return Some(AlreadyHeld(parsed.runs[i].run));
      }
      if old(Honest(store.c, store.View())) {
        HeadsAreHeld(store.c, old(store.View()), store.View(), parsed.runs[i].run);
      }
    }
    return None;
  }

  lemma HeadIsOfRecords(records: seq<Record>)
    requires HeadOf(records).seq_ != 0
    ensures records != []
  {
  }

  lemma {:induction false} HeldEarly(p: Plane, runs: seq<Restored>, n: nat)
    requires n <= |runs|
    ensures HeldAmong(p, runs[..n]).Some? ==> HeldAmong(p, runs) == HeldAmong(p, runs[..n])
  {
    hide HeadOf;
    if n < |runs| {
      assert runs[..|runs| - 1][..n] == runs[..n];
      HeldEarly(p, runs[..|runs| - 1], n);
    } else {
      assert runs[..n] == runs;
    }
  }

  method CutIntoBatches(records: seq<Record>) returns (batches: seq<seq<Record>>)
    ensures batches == Batches(records)
  {
    batches := [];
    assert records[..0] == [];
    for i := 0 to |records|
      invariant batches == Batches(records[..i])
    {
      assert records[..i + 1][..i] == records[..i];
      batches := AddRecord(batches, records[i]);
    }
    assert records[..|records|] == records;
  }

  /** One run's records, batch by batch, each held to the hashes claimed: whoever
      else writes, once that is done every record stands in the store where its
      bytes say, under the hash the file claims. */
  method ReplayOne(store: Store, r: Restored) returns (failed: Option<RestoreError>)
    modifies store`runs, store`log, store`cases, store`schedule
    ensures Grown(old(store.View()), store.View()) && store.leases == old(store.leases)
    ensures old(Numbered(store.View())) ==>
              Numbered(store.View()) && (failed.None? ==> AllLand(store.c, store.View(), r.records, r.hashes))
    ensures failed.Some? ==> !BeforeWriting(failed.value)
    ensures old(store.schedule) == [] ==>
              store.schedule == [] &&
              match ReplayBatches(store.c, old(store.View()), store.leases, r, Batches(r.records))
              case Err(e) => failed == Some(e)
              case Ok(q) => failed.None? && store.View() == q
  {
    hide Batches, AppendTo, WithRecords, HashesMatch, Grown, Numbered, AllLand, Flat, Turned;
    var batches := CutIntoBatches(r.records);
    var offset := 0;
    assert batches[..0] == [];
    NoBatches();
    NoneLand(store.c, store.View(), r.hashes);
    GrownIsReflexive(store.View());
    FlatOfBatches(r.records);
    for i := 0 to |batches|
      invariant store.leases == old(store.leases) && offset == |Flat(batches[..i])|
      invariant Grown(old(store.View()), store.View())
      invariant old(Numbered(store.View())) ==>
                  Numbered(store.View()) && AllLand(store.c, store.View(), Flat(batches[..i]), r.hashes)
      invariant old(store.schedule) == [] ==>
                  store.schedule == [] &&
                  ReplayBatches(store.c, old(store.View()), store.leases, r, batches[..i]) == Ok(store.View())
    {
      assert batches[..i + 1][..i] == batches[..i];
      assert batches[..i + 1] == batches[..i] + [batches[i]];
      FlatOfAppend(batches[..i], batches[i]);
      ghost var before, turns := store.View(), store.schedule;
      ghost var mid;
      var written;
      written, mid := store.Append(batches[i][0].body.epoch, batches[i]);
      AfterAppend(store.c, old(store.View()), before, turns, store.leases, Flat(batches[..i]), batches[i],
                  written, r.hashes, store.View());
      if written.Err? {
        if old(store.schedule) == [] {
          ReplayStops(store.c, old(store.View()), store.leases, r, batches, i + 1);
        }
        return Some(StoreFailed(written.error));
      }
      var matches := HashesAgree(written.value, From(r.hashes, offset));
      if !matches {
        if old(store.schedule) == [] {
          ReplayStops(store.c, old(store.View()), store.leases, r, batches, i + 1);
        }
        return Some(HashDiffers(r.run));
      }
      offset := offset + |batches[i]|;
    }
    assert batches[..|batches|] == batches;
    return None;
  }

  lemma NoneLand(c: Codec, q: Plane, hashes: seq<Digest>)
    ensures AllLand(c, q, [], hashes)
  {
  }

  /** What one call to append leaves, whatever the environment did before it. */
  lemma {:induction false} AfterAppend(c: Codec, p0: Plane, p: Plane, turns: seq<Turn>, leases: map<RunId, nat>,
                                       done: seq<Record>, batch: seq<Record>, written: Result<seq<Record>, StoreError>,
                                       hashes: seq<Digest>, q: Plane)
    requires batch != [] && Grown(p0, p) && Grown(p, Turned(c, p, turns))
    requires written.Err? ==> q == Turned(c, p, turns)
    requires written.Ok? ==>
               AppendTo(c, Turned(c, p, turns), leases, batch[0].body.epoch, batch) == written &&
               q == WithRecords(Turned(c, p, turns), batch, written.value)
    ensures Grown(p0, q) && (Numbered(p) ==> Numbered(q))
    ensures Numbered(p) && AllLand(c, p, done, hashes) && written.Ok? &&
              HashesMatch(written.value, From(hashes, |done|)) ==>
              AllLand(c, q, done + batch, hashes)
  {
    hide Grown, Numbered, AllLand, AppendTo, WithRecords, HashesMatch, Turned, From;
    var mid, epoch := Turned(c, p, turns), batch[0].body.epoch;
    GrownIsTransitive(p0, p, mid);
    if Numbered(p) {
      TurnedIsNumbered(c, p, turns);
    }
    if written.Ok? {
      BatchLands(c, mid, leases, epoch, batch, written.value, []);
      GrownIsTransitive(p0, mid, q);
      if Numbered(p) && AllLand(c, p, done, hashes) && HashesMatch(written.value, From(hashes, |done|)) {
        AllLandStays(c, p, mid, done, hashes);
        AllLandGrows(c, mid, leases, epoch, done, batch, written.value, hashes);
      }
    }
  }

  /** The comparison, record by record. */
  method HashesAgree(written: seq<Record>, claimed: seq<Digest>) returns (ok: bool)
    ensures ok == HashesMatch(written, claimed)
  {
    for i := 0 to |written|
      invariant forall j :: 0 <= j < i && j < |claimed| ==> written[j].hash == claimed[j]
    {
      if i < |claimed| && written[i].hash != claimed[i] {
        return false;
      }
    }
    return true;
  }

  lemma {:induction false} ReplayStops(c: Codec, p: Plane, leases: map<RunId, nat>, r: Restored,
                                       batches: seq<seq<Record>>, n: nat)
    requires n <= |batches| && forall i :: 0 <= i < |batches| ==> batches[i] != []
    ensures ReplayBatches(c, p, leases, r, batches[..n]).Err? ==>
              ReplayBatches(c, p, leases, r, batches) == ReplayBatches(c, p, leases, r, batches[..n])
  {
    hide ReplayBatch, Flat;
    if n < |batches| {
      assert batches[..|batches| - 1][..n] == batches[..n];
      ReplayStops(c, p, leases, r, batches[..|batches| - 1], n);
    } else {
      assert batches[..n] == batches;
    }
  }

  function RecordsAmong(runs: seq<Restored>): nat {
    if runs == [] then 0 else RecordsAmong(runs[..|runs| - 1]) + |runs[|runs| - 1].records|
  }

  /** Every record of these runs has landed. */
  ghost predicate AllLanded(c: Codec, q: Plane, runs: seq<Restored>) {
    forall i :: 0 <= i < |runs| ==> AllLand(c, q, runs[i].records, runs[i].hashes)
  }

  lemma AllLandedStays(c: Codec, p: Plane, q: Plane, runs: seq<Restored>)
    requires AllLanded(c, p, runs) && Grown(p, q)
    ensures AllLanded(c, q, runs)
  {
    hide AllLand, Grown;
    forall i | 0 <= i < |runs| ensures AllLand(c, q, runs[i].records, runs[i].hashes) {
      AllLandStays(c, p, q, runs[i].records, runs[i].hashes);
    }
  }

  method ReplayAll(store: Store, runs: seq<Restored>) returns (failed: Option<RestoreError>, records: nat)
    modifies store`runs, store`log, store`cases, store`schedule
    ensures Grown(old(store.View()), store.View()) && store.leases == old(store.leases)
    ensures old(Numbered(store.View())) && failed.None? ==> AllLanded(store.c, store.View(), runs)
    ensures failed.None? ==> records == RecordsAmong(runs)
    ensures failed.Some? ==> !BeforeWriting(failed.value)
    ensures old(store.schedule) == [] ==>
              store.schedule == [] &&
              match ReplayRuns(store.c, old(store.View()), store.leases, runs)
              case Err(e) => failed == Some(e)
              case Ok(q) => failed.None? && store.View() == q
  {
    hide Batches, ReplayBatches, Grown, Numbered, AllLand;
    records := 0;
    assert runs[..0] == [];
    GrownIsReflexive(store.View());
    for i := 0 to |runs|
      invariant store.leases == old(store.leases) && records == RecordsAmong(runs[..i])
      invariant Grown(old(store.View()), store.View())
      invariant old(Numbered(store.View())) ==>
                  Numbered(store.View()) && AllLanded(store.c, store.View(), runs[..i])
      invariant old(store.schedule) == [] ==>
                  store.schedule == [] &&
                  ReplayRuns(store.c, old(store.View()), store.leases, runs[..i]) == Ok(store.View())
    {
      assert runs[..i + 1][..i] == runs[..i];
      ghost var before := store.View();
      failed := ReplayOne(store, runs[i]);
      GrownIsTransitive(old(store.View()), before, store.View());
      if old(Numbered(store.View())) {
        AllLandedStays(store.c, before, store.View(), runs[..i]);
      }
      if failed.Some? {
        if old(store.schedule) == [] {
          ReplayRunsStop(store.c, old(store.View()), store.leases, runs, i + 1);
        }
        return;
      }
      records := records + |runs[i].records|;
    }
    assert runs[..|runs|] == runs;
    failed := None;
  }

  lemma {:induction false} ReplayRunsStop(c: Codec, p: Plane, leases: map<RunId, nat>, runs: seq<Restored>, n: nat)
    requires n <= |runs|
    ensures ReplayRuns(c, p, leases, runs[..n]).Err? ==>
              ReplayRuns(c, p, leases, runs) == ReplayRuns(c, p, leases, runs[..n])
  {
    hide ReplayBatches, Batches;
    if n < |runs| {
      assert runs[..|runs| - 1][..n] == runs[..n];
      ReplayRunsStop(c, p, leases, runs[..|runs| - 1], n);
    } else {
      assert runs[..n] == runs;
    }
  }

  /** The seals, in the log's own order: whoever else writes, each run that can be
      sealed is in the log once this is done. */
  method SealInOrder(store: Store, sorted: seq<Restored>) returns (failed: Option<RestoreError>)
    modifies store`runs, store`log, store`cases, store`schedule
    ensures Grown(old(store.View()), store.View()) && store.leases == old(store.leases)
    ensures failed.None? ==> forall i :: 0 <= i < |sorted| && Sealable(sorted[i]) ==> sorted[i].run in store.log
    ensures failed.Some? ==> !BeforeWriting(failed.value)
    ensures old(store.schedule) == [] ==>
              store.schedule == [] &&
              match SealRuns(old(store.View()), store.leases, sorted)
              case Err(e) => failed == Some(e)
              case Ok(q) => failed.None? && store.View() == q
  {
    hide SealIn, WithSeal, Grown, Turned;
    assert sorted[..0] == [];
    GrownIsReflexive(store.View());
    for i := 0 to |sorted|
      invariant store.leases == old(store.leases)
      invariant Grown(old(store.View()), store.View())
      invariant forall j :: 0 <= j < i && Sealable(sorted[j]) ==> sorted[j].run in store.View().log
      invariant old(store.schedule) == [] ==>
                  store.schedule == [] && SealRuns(old(store.View()), store.leases, sorted[..i]) == Ok(store.View())
    {
      assert sorted[..i + 1][..i] == sorted[..i];
      if Sealable(sorted[i]) {
        var last := sorted[i].records[|sorted[i].records| - 1];
        ghost var before := store.View();
        ghost var mid;
        var sealed;
        sealed, mid := store.Seal(sorted[i].run, last.body.epoch);
        SealGrows(mid, sorted[i].run);
        GrownIsTransitive(before, mid, WithSeal(mid, sorted[i].run));
        GrownIsTransitive(old(store.View()), before, store.View());
        LogStays(before, store.View());
        if sealed.Err? {
          if old(store.schedule) == [] {
            SealRunsStop(old(store.View()), store.leases, sorted, i + 1);
          }
          return Some(StoreFailed(sealed.error));
        }
      }
    }
    assert sorted[..|sorted|] == sorted;
    return None;
  }

  lemma LogStays(p: Plane, q: Plane)
    requires Grown(p, q)
    ensures forall run :: run in p.log ==> run in q.log
  {
  }

  lemma {:induction false} SealRunsStop(p: Plane, leases: map<RunId, nat>, sorted: seq<Restored>, n: nat)
    requires n <= |sorted|
    ensures SealRuns(p, leases, sorted[..n]).Err? ==> SealRuns(p, leases, sorted) == SealRuns(p, leases, sorted[..n])
  {
    hide SealRun;
    if n < |sorted| {
      assert sorted[..|sorted| - 1][..n] == sorted[..n];
      SealRunsStop(p, leases, sorted[..|sorted| - 1], n);
    } else {
      assert sorted[..n] == sorted;
    }
  }

  lemma {:induction false} InsertedIsThere(runs: seq<Restored>, r: Restored, x: Restored)
    requires r.index.Some? && forall i :: 0 <= i < |runs| ==> runs[i].index.Some?
    ensures x in InsertByIndex(runs, r) <==> x in runs || x == r
  {
    if runs != [] && runs[|runs| - 1].index.value > r.index.value {
      InsertedIsThere(runs[..|runs| - 1], r, x);
      assert x in runs <==> x in runs[..|runs| - 1] || x == runs[|runs| - 1];
    }
  }

  /** Putting the placed runs in log order leaves none out. */
  lemma {:induction false} ByIndexKeeps(runs: seq<Restored>, x: Restored)
    ensures x in ByIndex(runs) <==> x in runs && x.index.Some?
  {
    if runs != [] {
      var n := |runs| - 1;
      ByIndexKeeps(runs[..n], x);
      assert x in runs <==> x in runs[..n] || x == runs[n];
      if runs[n].index.Some? {
        InsertedIsThere(ByIndex(runs[..n]), runs[n], x);
      }
    }
  }

  /** Every placed run that carries its conclusion is in the log. */
  ghost predicate AllSealed(q: Plane, runs: seq<Restored>) {
    forall i :: 0 <= i < |runs| && runs[i].index.Some? && Sealable(runs[i]) ==> runs[i].run in q.log
  }

  lemma SealedInOrder(q: Plane, runs: seq<Restored>)
    requires forall i :: 0 <= i < |ByIndex(runs)| && Sealable(ByIndex(runs)[i]) ==> ByIndex(runs)[i].run in q.log
    ensures AllSealed(q, runs)
  {
    hide Sealable, ByIndex;
    forall i | 0 <= i < |runs| && runs[i].index.Some? && Sealable(runs[i]) ensures runs[i].run in q.log {
      ByIndexKeeps(runs, runs[i]);
      var j :| 0 <= j < |ByIndex(runs)| && ByIndex(runs)[j] == runs[i];
    }
  }

  /** Restore what was parsed.  Over every schedule: the store only grows; a refusal
      has written nothing; and a restore that succeeds has put every record where
      its bytes say, under the hash the file claims, has sealed every run it could
      and answers with the checkpoint of the store it leaves.  Into a store nobody
      else writes to it is `Restoring`. */
  method RestoreParsed(store: Store, parsed: Parsed) returns (r: Result<RestoreReport, RestoreError>)
    modifies store`runs, store`log, store`cases, store`schedule
    ensures Grown(old(store.View()), store.View()) && store.leases == old(store.leases)
    ensures !MayReplay(store.sealsPayloads, parsed) ==>
              r.Err? && RefusedFor(store.sealsPayloads, parsed, r.error) && store.View() == old(store.View())
    ensures r.Ok? && old(Honest(store.c, store.View())) ==> NoneHeld(old(store.View()), parsed.runs)
    ensures r.Ok? && old(Numbered(store.View())) ==> AllLanded(store.c, store.View(), parsed.runs)
    ensures r.Ok? ==> AllSealed(store.View(), parsed.runs)
    ensures r.Ok? ==>
              r.value.expected == parsed.checkpoint && r.value.rebuilt == CheckpointOf(store.c.hash, store.View()) &&
              r.value.runs == |parsed.runs| && r.value.records == RecordsAmong(parsed.runs)
    ensures r.Err? && BeforeWriting(r.error) && old(store.schedule) == [] ==> store.View() == old(store.View())
    ensures old(store.schedule) == [] ==>
              match Restoring(store.c, old(store.View()), store.leases, store.sealsPayloads, parsed)
              case Err(e) => r == Err(e)
              case Ok(q) => r.Ok? && store.View() == q
  {
    hide Grown, Honest, ReplayRuns, SealRuns, ByIndex, CheckpointOf, HeldAmong, NoneHeld, Numbered, AllLanded, Sealable,
         Turned, RefusedFor;
    ghost var p0 := store.View();
    var refused := RefuseBeforeWriting(store, parsed);
    if refused.Some? {
      return Err(refused.value);
    }
    ghost var p1 := store.View();
    var failed, records := ReplayAll(store, parsed.runs);
    ghost var p2 := store.View();
    GrownIsTransitive(p0, p1, p2);
    if failed.Some? {
      return Err(failed.value);
    }
    failed := SealInOrder(store, ByIndex(parsed.runs));
    ghost var p3 := store.View();
    GrownIsTransitive(p0, p2, p3);
    if failed.Some? {
      return Err(failed.value);
    }
    var rebuilt := store.Checkpoint();
    GrownIsTransitive(p0, p3, store.View());
    if rebuilt.Err? {
      return Err(StoreFailed(rebuilt.error));
    }
    GrownIsTransitive(p2, p3, store.View());
    LogStays(p3, store.View());
    SealedInOrder(store.View(), parsed.runs);
    if old(Numbered(store.View())) {
      AllLandedStays(store.c, p2, store.View(), parsed.runs);
    }
    return Ok(RestoreReport(parsed.checkpoint, rebuilt.value, |parsed.runs|, records));
  }

  /** What the file itself must be, read off its lines: its last header is of this
      format and rule, and a trailer says it was not cut short. */
  predicate Restorable(lines: seq<Line>) {
    QuietFiles.LastTrailer(lines).Some? && AcceptedFiles.LastHeader(lines).Some? &&
    AcceptedFiles.LastHeader(lines).value.version == Some(FORMAT_VERSION) &&
    AcceptedFiles.LastHeader(lines).value.canon == Some(CANON_VERSION)
  }

  /** No run the file has a block for has a record in the store. */
  ghost predicate NoBlockHeld(p: Plane, lines: seq<Line>) {
    forall i :: 0 <= i < |BlocksOf(lines)| ==> RecordsOf(p, BlocksOf(lines)[i].run) == []
  }

  lemma {:induction false} FileSays(c: Codec, lines: seq<Line>, sealsPayloads: bool, p: Plane)
    requires Parse(c, lines).Ok?
    ensures MayReplay(sealsPayloads, Parse(c, lines).value) <==> Restorable(lines) && !sealsPayloads
    ensures NoneHeld(p, Parse(c, lines).value.runs) <==> NoBlockHeld(p, lines)
    ensures |Parse(c, lines).value.runs| == |BlocksOf(lines)|
    ensures Parse(c, lines).value.checkpoint ==
            match AcceptedFiles.LastCheckpoint(lines) case Some(cp) => cp case None => Checkpoint("", 0, ZERO)
  {
    hide Parse, BlocksOf, QuietFiles.LastTrailer, AcceptedFiles.LastHeader, AcceptedFiles.LastCheckpoint, RecordsOf;
    AcceptedFiles.ParsedExactly(c, lines);
    var runs, blocks := Parse(c, lines).value.runs, BlocksOf(lines);
    forall i | 0 <= i < |runs| ensures runs[i].run == blocks[i].run {
      assert TwoReaders.Reads(c, blocks[i], runs[i]);
    }
  }

  /** Every record line of the file has its bytes in the store, where they say they
      belong, under the hash the line carries. */
  ghost predicate LinesLand(c: Codec, q: Plane, lines: seq<Line>) {
    forall i, j :: 0 <= i < |BlocksOf(lines)| && 0 <= j < |BlocksOf(lines)[i].lines| ==>
      var f := BlocksOf(lines)[i].lines[j];
      Carries(f) && Lands(c, q, f.raw.value, f.hash.value)
  }

  /** A record of the block is a conclusion. */
  predicate Concludes(c: Codec, b: Block) {
    exists j :: 0 <= j < |b.lines| && b.lines[j].raw.Some? && c.read(b.lines[j].raw.value).Readable? &&
                c.read(b.lines[j].raw.value).body.kind.RunConcluded?
  }

  /** Every block that claims a position and holds a conclusion is of a run in the
      log. */
  ghost predicate BlocksSealed(c: Codec, q: Plane, lines: seq<Line>) {
    forall i :: 0 <= i < |BlocksOf(lines)| && BlocksOf(lines)[i].header.index.Given? && Concludes(c, BlocksOf(lines)[i])
      ==> BlocksOf(lines)[i].run in q.log
  }

  lemma {:induction false} OutcomeMeans(records: seq<Record>)
    ensures ConcludedOutcome(records).Some? <==> exists j :: 0 <= j < |records| && records[j].body.kind.RunConcluded?
  {
    if records != [] {
      OutcomeMeans(records[..|records| - 1]);
      assert forall j :: 0 <= j < |records| - 1 ==> records[..|records| - 1][j] == records[j];
    }
  }

  lemma {:induction false} ConcludesMeans(c: Codec, b: Block, r: Restored)
    requires TwoReaders.Reads(c, b, r)
    ensures Sealable(r) <==> Concludes(c, b)
    ensures r.run == b.run && (r.index.Some? <==> b.header.index.Given?)
  {
    hide Hashing.Head, Chain, CarriedRaws, ConcludedOutcome, Uncanonical;
    OutcomeMeans(r.records);
    forall j | 0 <= j < |b.lines|
      ensures b.lines[j].raw.Some? && c.read(b.lines[j].raw.value) == Readable(r.records[j].body)
    {
      assert TwoReaders.ReadsLine(c, b, r.records, j);
    }
  }

  /** What was restored, in terms of the lines. */
  lemma {:induction false} FileLands(c: Codec, lines: seq<Line>, q: Plane)
    requires Parse(c, lines).Ok?
    ensures AllLanded(c, q, Parse(c, lines).value.runs) ==> LinesLand(c, q, lines)
    ensures AllSealed(q, Parse(c, lines).value.runs) ==> BlocksSealed(c, q, lines)
  {
    hide Parse, BlocksOf, Lands, Hashing.Head, Chain, CarriedRaws, ConcludedOutcome, Uncanonical, Concludes, Sealable,
         QuietFiles.LastTrailer, AcceptedFiles.LastHeader, AcceptedFiles.LastCheckpoint;
    AcceptedFiles.ParsedExactly(c, lines);
    var runs, blocks := Parse(c, lines).value.runs, BlocksOf(lines);
    forall i | 0 <= i < |blocks|
      ensures Sealable(runs[i]) <==> Concludes(c, blocks[i])
      ensures runs[i].run == blocks[i].run && (runs[i].index.Some? <==> blocks[i].header.index.Given?)
    {
      assert TwoReaders.Reads(c, blocks[i], runs[i]);
      ConcludesMeans(c, blocks[i], runs[i]);
    }
    if AllLanded(c, q, runs) {
      forall i, j | 0 <= i < |blocks| && 0 <= j < |blocks[i].lines|
        ensures var f := blocks[i].lines[j]; Carries(f) && Lands(c, q, f.raw.value, f.hash.value)
      {
        assert TwoReaders.Reads(c, blocks[i], runs[i]);
        assert TwoReaders.ReadsLine(c, blocks[i], runs[i].records, j);
        assert AllLand(c, q, runs[i].records, runs[i].hashes);
      }
    }
  }

  /** A file put back into a store, over every schedule: it is put back only if it
      reads, its header in force is of this format and rule, it ends in a trailer,
      the target seals no payloads and held nothing of its runs; a file that fails
      one of these is refused with nothing written; nothing the store held is lost;
      and when it is put back, every record line's bytes stand where they say, under
      the hash on the line, and every placed block that concludes is in the log. */
  method FromJsonl(store: Store, lines: seq<Line>) returns (r: Result<RestoreReport, RestoreError>)
    modifies store`runs, store`log, store`cases, store`schedule
    ensures Grown(old(store.View()), store.View()) && store.leases == old(store.leases)
    ensures Parse(store.c, lines).Err? ==>
              r == Err(FileRefused(Parse(store.c, lines).error)) && store.View() == old(store.View())
    ensures Parse(store.c, lines).Ok? && !(Restorable(lines) && !store.sealsPayloads) ==>
              r.Err? && RefusedFor(store.sealsPayloads, Parse(store.c, lines).value, r.error) &&
              store.View() == old(store.View())
    ensures r.Ok? ==>
              Parse(store.c, lines).Ok? && Restorable(lines) && !store.sealsPayloads &&
              r.value.expected == Parse(store.c, lines).value.checkpoint && r.value.runs == |BlocksOf(lines)| &&
              r.value.rebuilt == CheckpointOf(store.c.hash, store.View()) && BlocksSealed(store.c, store.View(), lines)
    ensures r.Ok? && old(Honest(store.c, store.View())) ==>
              NoBlockHeld(old(store.View()), lines) && LinesLand(store.c, store.View(), lines)
    ensures r.Err? && BeforeWriting(r.error) && old(store.schedule) == [] ==> store.View() == old(store.View())
    ensures old(store.schedule) == [] && Parse(store.c, lines).Ok? ==>
              match Restoring(store.c, old(store.View()), store.leases, store.sealsPayloads, Parse(store.c, lines).value)
              case Err(e) => r == Err(e)
              case Ok(q) => r.Ok? && store.View() == q
  {
    hide Grown, Honest, Parse, Restoring, CheckpointOf, MayReplay, RefusedFor, Restorable, NoneHeld, NoBlockHeld,
         BlocksOf,
         Numbered, AllLanded, AllSealed, LinesLand, BlocksSealed;
    var refused, file := ParseFile(store.c, lines);
    GrownIsReflexive(store.View());
    if refused.Some? {
      return Err(FileRefused(refused.value));
    }
    FileSays(store.c, lines, store.sealsPayloads, store.View());
    if Honest(store.c, store.View()) {
      HonestIsNumbered(store.c, store.View());
    }
    r := RestoreParsed(store, file.View());
    FileLands(store.c, lines, store.View());
  }
}
