/** What the pass makes of one honestly written block: no finding, the records
    it was written from, and their terminal hash. */
module HonestBlocks {
  import opened Wrappers
  import opened Hashing
  import opened Merkle
  import opened Wire
  import opened VerifySpec
  import opened Blocks
  import opened Planes
  import opened WriterSpec

  lemma {:induction false} RecordsForPrefix(c: Codec, records: seq<Record>, n: nat)
    requires n <= |records|
    ensures RecordsFor(c, records)[..n] == RecordsFor(c, records[..n])
  {
    hide *;
    var a, b := RecordsFor(c, records)[..n], RecordsFor(c, records[..n]);
    forall i | 0 <= i < n ensures a[i] == b[i] {
    }
  }

  lemma {:induction false} CarriedOfWritten(c: Codec, records: seq<Record>)
    ensures CarriedRaws(RecordsFor(c, records)) == Raws(records)
  {
    if records != [] {
      CarriedOfWritten(c, records[..|records| - 1]);
    }
  }

  /** The bytes before line `i`, read off the lines or off the records. */
  lemma CarriedBefore(c: Codec, records: seq<Record>, i: nat)
    requires i <= |records|
    ensures CarriedRaws(RecordsFor(c, records)[..i]) == Raws(records[..i])
  {
    hide *;
    RecordsForPrefix(c, records, i);
    CarriedOfWritten(c, records[..i]);
  }

  lemma {:induction false} HonestLine(c: Codec, run: RunId, records: seq<Record>, i: nat)
    requires i < |records| && HonestRecord(c, run, records, i)
    ensures LineHolds(c, run, RecordsFor(c, records), i)
  {
    hide Head, Chain, Uncanonical, CarriedRaws, Raws, RecordsFor;
    CarriedBefore(c, records, i);
  }

  lemma {:induction false} HonestRecomputes(c: Codec, run: RunId, records: seq<Record>)
    requires HonestRun(c, run, records)
    ensures Recomputes(c, run, RecordsFor(c, records))
  {
    hide HonestRecord, LineHolds, RecordsFor;
    forall i | 0 <= i < |records| ensures LineHolds(c, run, RecordsFor(c, records), i) {
      HonestLine(c, run, records, i);
    }
  }

  lemma RecordRead(c: Codec, run: RunId, records: seq<Record>, i: nat)
    requires i < |records| && HonestRecord(c, run, records, i)
    ensures var fields := RecordsFor(c, records);
            Carries(fields[i]) && c.read(fields[i].raw.value).Readable? && fields[..i + 1] != [] &&
            fields[..i + 1][|fields[..i + 1]| - 1] == fields[i] &&
            RecordOf(c, fields[..i + 1]) == records[i]
  {
    hide Head, Chain, Uncanonical, CarriedRaws, Raws, RecordsFor;
    CarriedBefore(c, records, i);
    var fields := RecordsFor(c, records);
    assert fields[..i + 1][..i] == fields[..i];
  }

  /** The records the pass read are the records that were written. */
  lemma {:induction false} ReadBack(c: Codec, run: RunId, records: seq<Record>, read: seq<Record>)
    requires HonestRun(c, run, records) && Recomputed(c, RecordsFor(c, records), read)
    ensures read == records
  {
    hide HonestRecord, RecordOf, RecordsFor;
    forall i | 0 <= i < |records| ensures read[i] == records[i] {
      RecordRead(c, run, records, i);
    }
  }

  /** A block whose every line holds raises no finding. */
  lemma {:induction false} RecomputesQuietly(c: Codec, entered: Pass, lines: seq<RecordFields>)
    requires entered.prev == ZERO && entered.lastSeq == 0 && entered.resealed == [] && entered.clean
    requires Recomputes(c, entered.run, lines)
    ensures BlockFindings(c, entered, lines) == []
  {
    hide JudgeRecord, LineHolds, Recomputes;
    if lines != [] {
      var n := |lines| - 1;
      var p := PassAfter(c, entered, lines[..n]);
      RecomputesOfAppend(c, entered.run, lines);
      RecomputesQuietly(c, entered, lines[..n]);
      CleanMeansRecomputes(c, entered, lines[..n]);
      HeadInvariant(c, entered, lines[..n]);
      JudgeIsLineHolds(c, lines, p);
    }
  }

  /** The stamps of a block, as the pass collects them. */
  function StampsRead(c: Codec, entered: Pass, lines: seq<RecordFields>): set<CaseId> {
    if lines == [] then {}
    else
      var n := |lines| - 1;
      StampsRead(c, entered, lines[..n]) +
      (match JudgeRecord(c, lines[n], PassAfter(c, entered, lines[..n])).stamp case Some(id) => {id} case None => {})
  }

  lemma {:induction false} StampsAreRead(c: Codec, entered: Pass, records: seq<Record>)
    requires entered.prev == ZERO && entered.lastSeq == 0 && entered.resealed == [] && entered.clean
    requires forall i :: 0 <= i < |records| ==> HonestRecord(c, entered.run, records, i)
    ensures StampsRead(c, entered, RecordsFor(c, records)) == StampsOf(records)
  {
    hide JudgeRecord, HonestRecord, LineHolds, PassAfter;
    if records != [] {
      var n := |records| - 1;
      var front := records[..n];
      forall i | 0 <= i < n ensures HonestRecord(c, entered.run, front, i) {
        HonestFront(c, entered.run, records, i);
      }
      StampsAreRead(c, entered, front);
      StampRead(c, entered, records);
      assert RecordsFor(c, records)[..n] == RecordsFor(c, front);
    }
  }

  lemma HonestFront(c: Codec, run: RunId, records: seq<Record>, i: nat)
    requires 0 <= i < |records| - 1 && HonestRecord(c, run, records, i)
    ensures HonestRecord(c, run, records[..|records| - 1], i)
  {
    hide Head, Chain, Uncanonical, Raws;
    assert records[..|records| - 1][..i] == records[..i];
  }

  lemma {:induction false} StampRead(c: Codec, entered: Pass, records: seq<Record>)
    requires entered.prev == ZERO && entered.lastSeq == 0 && entered.resealed == [] && entered.clean
    requires records != [] && forall i :: 0 <= i < |records| ==> HonestRecord(c, entered.run, records, i)
    ensures var n := |records| - 1;
            JudgeRecord(c, RecordsFor(c, records)[n], PassAfter(c, entered, RecordsFor(c, records[..n]))).stamp ==
            records[n].body.case_
  {
    hide JudgeRecord, HonestRecord, LineHolds, PassAfter;
    var n := |records| - 1;
    var fields := RecordsFor(c, records);
    HonestRecomputes(c, entered.run, records);
    RecomputesOfAppend(c, entered.run, fields);
    assert fields[..n] == RecordsFor(c, records[..n]);
    CleanMeansRecomputes(c, entered, fields[..n]);
    HeadInvariant(c, entered, fields[..n]);
    JudgeIsLineHolds(c, fields, PassAfter(c, entered, fields[..n]));
    RecordRead(c, entered.run, records, n);
    BodyRead(c, entered.run, records, n);
  }

  lemma BodyRead(c: Codec, run: RunId, records: seq<Record>, i: nat)
    requires i < |records| && HonestRecord(c, run, records, i)
    ensures c.read(records[i].raw) == Readable(records[i].body)
  {
  }

  /** An honest block, read: no finding, clean, the records it was written
      from, under their terminal hash. */
  lemma {:induction false} HonestBlock(c: Codec, entered: Pass, records: seq<Record>)
    requires entered.prev == ZERO && entered.lastSeq == 0 && entered.resealed == [] && entered.clean
    requires HonestRun(c, entered.run, records)
    ensures var p := PassAfter(c, entered, RecordsFor(c, records));
            BlockFindings(c, entered, RecordsFor(c, records)) == [] && p.clean && p.run == entered.run &&
            p.resealed == records && p.prev == records[|records| - 1].hash &&
            p.records == entered.records + |records| && p.declaredSeal == entered.declaredSeal &&
            p.sealed == entered.sealed && p.index == entered.index && p.proof == entered.proof
  {
    hide PassAfter, BlockFindings, Recomputes, Recomputed, RecordsFor, HonestRecord, CarriedRaws, Raws, Head;
    var fields := RecordsFor(c, records);
    HonestRecomputes(c, entered.run, records);
    RecomputesQuietly(c, entered, fields);
    CleanMeansRecomputes(c, entered, fields);
    HeadInvariant(c, entered, fields);
    CarriedOfWritten(c, records);
    TerminalHash(c, entered.run, records);
    ReadBlockKeepsItsHeader(c, entered, fields);
    ReadBack(c, entered.run, records, PassAfter(c, entered, fields).resealed);
  }
}
