/** What a writer's calls say about the plane its checkpoint was read from,
    however far the store has grown since. */
module Taking {
  import opened Wrappers
  import opened Hashing
  import opened Merkle
  import opened Wire
  import opened Planes
  import opened Stores
  import opened WriterSpec

  /** A position below the header's size, as the live log gives it, is the
      position the checkpoint's own plane gives. */
  function Below(placed: Option<(nat, Digest)>, size: nat): Option<(nat, Digest)> {
    if placed.Some? && placed.value.0 < size then placed else None
  }

  lemma LogIsDistinct(c: Codec, p: Plane)
    requires Honest(c, p)
    ensures forall a, b :: 0 <= a < b < |p.log| ==> p.log[a] != p.log[b]
  {
    hide HonestRun, Stamped, Concluded;
  }

  lemma {:induction false} PositionsStay(c: Codec, p: Plane, q: Plane, run: RunId)
    requires Honest(c, p) && Honest(c, q) && Grown(p, q)
    ensures Below(PositionOf(q, run), |p.log|) == PositionOf(p, run)
  {
    hide Honest, Grown, SealOf, IndexIn;
    LogIsDistinct(c, p);
    LogIsDistinct(c, q);
    GrownLog(p, q);
    SealsStay(c, p, q);
    if run in p.log {
      var i :| 0 <= i < |p.log| && p.log[i] == run;
      IndexIsUnique(p.log, i);
      assert q.log[i] == run;
      IndexIsUnique(q.log, i);
    } else if run in q.log {
      var i := IndexIn(q.log, run).value;
      assert q.log[i] == run;
    }
  }

  lemma {:induction false} PathsStay(c: Codec, p: Plane, q: Plane, run: RunId, package: bool)
    requires Honest(c, p) && Honest(c, q) && Grown(p, q) && |p.log| <= |q.log|
    requires PositionOf(p, run).Some? && package
    ensures InclusionAt(c.hash, q, run, |p.log|).Some?
    ensures PathFor(c.hash, p, package, PositionOf(p, run)) == Some(InclusionAt(c.hash, q, run, |p.log|).value.proof)
  {
    hide Honest, Grown, SealOf, IndexIn, Merkle.InclusionProof, LogHashes;
    PositionsStay(c, p, q, run);
    LogHashesStay(c, p, q, |p.log|);
  }

  /** A run read at `q`, taken for a file whose checkpoint was read at `p`. */
  lemma {:induction false} ReadIsTaken(c: Codec, p: Plane, q: Plane, package: bool, t: Taken)
    requires Honest(c, p) && Honest(c, q) && Grown(p, q)
    requires t.placed == PositionOf(p, t.run) && t.proof == PathFor(c.hash, p, package, t.placed)
    requires t.records == [] || t.records == RecordsOf(q, t.run)
    ensures TakenFrom(c, p, q, package, t) && StampsOf(t.records) <= q.cases.Keys
  {
    hide HonestRun, Stamped, PositionOf, PathFor, StampsOf;
    if t.records != [] {
      RunStamps(q, t.records);
      if t.placed.Some? {
        PositionIsSealed(c, p, t.run);
      }
    }
    NoStamps();
  }

  lemma NoStamps()
    ensures StampsOf([]) == {}
  {
  }

  lemma PositionIsSealed(c: Codec, p: Plane, run: RunId)
    requires Honest(c, p) && PositionOf(p, run).Some?
    ensures run in p.runs && run in p.log
  {
    hide HonestRun, Stamped, Concluded;
    var i :| 0 <= i < |p.log| && p.log[i] == run;
  }

  lemma {:induction false} RunStamps(q: Plane, records: seq<Record>)
    requires Stamped(q, records)
    ensures StampsOf(records) <= q.cases.Keys
  {
    if records != [] {
      RunStamps(q, records[..|records| - 1]);
    }
  }

  lemma TakenStays(c: Codec, p: Plane, q: Plane, r: Plane, package: bool, t: Taken)
    requires TakenFrom(c, p, q, package, t) && Grown(q, r)
    ensures TakenFrom(c, p, r, package, t)
  {
    hide HonestRun, PositionOf, PathFor;
    if t.records != [] {
      assert t.records <= q.runs[t.run] <= r.runs[t.run];
    }
  }
}
