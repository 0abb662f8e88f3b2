/** A sidecar made over one whole export, held to a later one of the same plane:
    that its history only grew is a fact about the store, not about the files. */
module WrittenVerdicts {
  import opened Wrappers
  import opened Hashing
  import opened Wire
  import opened VerifySpec
  import opened Blocks
  import opened SoundList
  import opened Planes
  import opened Stores
  import opened WriterSpec
  import opened Writers
  import opened HonestBlocks
  import opened ExportVerifies
  import opened FileBlocks
  import opened GraderVerdicts

  /** The runs of the log are among those exported. */
  ghost predicate Covers(p: Plane, runs: seq<RunId>) {
    forall k :: 0 <= k < |p.log| ==> p.log[k] in runs
  }

  lemma {:induction false} ExportedHolds(takens: seq<Taken>, i: nat)
    requires i < |takens| && takens[i].records != []
    ensures takens[i].run in Exported(takens)
  {
    var n := |takens| - 1;
    if i < n {
      ExportedHolds(takens[..n], i);
    }
  }

  /** What a whole export carries of a run it was written with. */
  lemma {:induction false} WrittenCarries(c: Codec, keys: Option<SignatureCheck>, anchors: seq<Anchor>, p0: Plane,
                                          p1: Plane, runs: seq<RunId>, takens: seq<Taken>, rows: seq<CaseRow>, i: nat)
    requires ExportVerifies.Written(c, keys, anchors, p0, p1, runs, None, takens, rows) && Covers(p0, runs)
    requires i < |takens| && takens[i].records != []
    ensures var a := FileOf(c, CheckpointOf(c.hash, p0), None, takens, rows);
            takens[i].run in Verify(c, keys, anchors, a).sound &&
            Carried(c, keys, anchors, a, takens[i].run, Raws(takens[i].records), takens[i].placed.Some?)
  {
    hide Verify, BlocksOf, OneHistory, FileOf, CheckpointOf, ExportVerifies.Written, Raws, CarriedRaws, RecordsFor,
         Exported;
    var a, run := FileOf(c, CheckpointOf(c.hash, p0), None, takens, rows), takens[i].run;
    WholeExportVerifies(c, keys, anchors, p0, p1, runs, takens, rows);
    ExportedHolds(takens, i);
    SoundMeans(c, keys, anchors, a, run);
    var j :| 0 <= j < |BlocksOf(a)| && OneHistory(c, keys, Verify(c, keys, anchors, a), BlocksOf(a), run, j);
    HistoryIsOnly(c, keys, Verify(c, keys, anchors, a), BlocksOf(a), run, j);
    BlocksOfFile(c, CheckpointOf(c.hash, p0), None, takens, rows);
    assert BlocksOf(a)[i] == BlockOf(c, takens[i]);
    CarriedOfWritten(c, takens[i].records);
  }

  /** A run taken twice from one store: the second time it carries the first on. */
  lemma {:induction false} TakenCarriesOn(c: Codec, p0: Plane, p1: Plane, a: Taken, q0: Plane, q1: Plane, b: Taken)
    requires Honest(c, p0) && Grown(p0, p1) && Grown(p1, q0) && TakenFrom(c, p0, p1, false, a) && a.records != []
    requires TakenFrom(c, q0, q1, false, b) && RecordsOf(q0, b.run) <= b.records && b.run == a.run
    ensures CarriesOn(Raws(a.records), a.placed.Some?, Raws(b.records), b.placed.Some?)
  {
    hide Honest, HonestRun;
    GrownIsTransitive(p0, p1, q0);
    assert a.records <= RecordsOf(p1, a.run) <= RecordsOf(q0, a.run) <= b.records;
    if a.placed.Some? {
      PlacedStays(c, p0, q0, a.run);
    }
  }

  /** A sealed run stays sealed, over the same records. */
  lemma {:induction false} PlacedStays(c: Codec, p: Plane, q: Plane, run: RunId)
    requires Honest(c, p) && Grown(p, q) && PositionOf(p, run).Some?
    ensures PositionOf(q, run).Some? && RecordsOf(q, run) == RecordsOf(p, run)
  {
    hide HonestRun;
    GrownLog(p, q);
  }

  /** A sidecar made over a whole export of a plane, up to a record it carries,
      keeps its binding against every later whole export of that plane that
      reached the run, whatever was written, concluded and sealed in between. */
  lemma {:induction false} VerdictStays(c: Codec, p0: Plane, p1: Plane, runs: seq<RunId>, takens: seq<Taken>,
                                        rows: seq<CaseRow>, i: nat, lastSeq: Option<nat>, content: Bytes,
                                        keys: Option<SignatureCheck>, anchors: seq<Anchor>, q0: Plane, q1: Plane,
                                        later: seq<RunId>, takenLater: seq<Taken>, rowsLater: seq<CaseRow>, j: nat)
    requires ExportVerifies.Written(c, None, [], p0, p1, runs, None, takens, rows) && Covers(p0, runs)
    requires ExportVerifies.Written(c, keys, anchors, q0, q1, later, None, takenLater, rowsLater) && Covers(q0, later)
    requires Grown(p1, q0) && i < |takens| && j < |takenLater| && takenLater[j].run == takens[i].run
    requires takens[i].records != [] && RecordsOf(q0, takens[i].run) <= takenLater[j].records
    ensures var a := FileOf(c, CheckpointOf(c.hash, p0), None, takens, rows);
            var b := FileOf(c, CheckpointOf(c.hash, q0), None, takenLater, rowsLater);
            var run := takens[i].run;
            var bound := BindTo(SeenOf(ScanAll(c, None, a).closed, [run]), Verify(c, None, [], a).sound, run, lastSeq,
                                content);
            (bound.Ok? <==> lastSeq.Some? ==> 1 <= lastSeq.value <= |takens[i].records|) &&
            (bound.Ok? ==> BindingFault(bound.value, Verify(c, keys, anchors, b).sound,
                                        SeenOf(ScanAll(c, keys, b).closed, [run])).None?)
  {
    hide Verify, ScanAll, SeenOf, BindTo, BindingFault, Carried, FileOf, CheckpointOf, CarriesOn, Honest, Grown, OnceEach,
         TakenFrom, Raws, Earlier, Hashing.Head;
    var a := FileOf(c, CheckpointOf(c.hash, p0), None, takens, rows);
    var b := FileOf(c, CheckpointOf(c.hash, q0), None, takenLater, rowsLater);
    var s, t := takens[i], takenLater[j];
    TakenCarriesOn(c, p0, p1, s, q0, q1, t);
    CarriesSomething(Raws(s.records), s.placed.Some?, Raws(t.records), t.placed.Some?);
    WrittenCarries(c, None, [], p0, p1, runs, takens, rows, i);
    WrittenCarries(c, keys, anchors, q0, q1, later, takenLater, rowsLater, j);
    BindBinds(c, a, s.run, lastSeq, content, Raws(s.records), s.placed.Some?);
    if BindTo(SeenOf(ScanAll(c, None, a).closed, [s.run]), Verify(c, None, [], a).sound, s.run, lastSeq, content).Ok? {
      SidecarStays(c, a, s.run, lastSeq, content, Raws(s.records), s.placed.Some?, keys, anchors, b, [s.run],
                   Raws(t.records), t.placed.Some?);
    }
  }

  lemma CarriesSomething(a: seq<Bytes>, sealed: bool, b: seq<Bytes>, sealedLater: bool)
    requires CarriesOn(a, sealed, b, sealedLater) && a != []
    ensures b != []
  {
  }
}
