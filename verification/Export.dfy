/** `to_jsonl`: a whole export of a store in use. */
module Exports {
  import opened Wrappers
  import opened Hashing
  import opened Merkle
  import opened Wire
  import opened VerifySpec
  import opened Planes
  import opened Stores
  import opened WriterSpec
  import opened Writers
  import opened WriterMeetsVerifier
  import opened ExportVerifies

  /** Every checkpoint an auditor holds was given out by the log of `p`. */
  ghost predicate HeldFrom(h: Hash, p: Plane, anchors: seq<Anchor>) {
    forall i :: 0 <= i < |anchors| ==> Earlier(h, p, anchors[i].checkpoint)
  }

  /** Whatever is appended, concluded, sealed or out of reach between its calls:
      an export asked for distinct runs that cover what was sealed at its
      checkpoint verifies sound, under any earlier checkpoints of the log, and
      lists exactly the runs it could read. */
  method ToJsonl(store: Store, runs: seq<RunId>)
    returns (r: Result<Writers.Written, StoreError>, ghost p0: Plane, ghost takens: seq<Taken>, ghost rows: seq<CaseRow>,
             ghost at: seq<nat>)
    requires Honest(store.c, store.View())
    modifies store`runs, store`log, store`cases, store`schedule
    ensures Grown(old(store.View()), store.View()) && Honest(store.c, store.View()) && store.leases == old(store.leases)
    ensures r.Ok? ==>
              Grown(old(store.View()), p0) && Grown(p0, store.View()) &&
              WroteFile(store.c, p0, store.View(), runs, None, takens, rows, r.value) &&
              Missed(p0, takens, old(store.schedule), at)
    ensures NeverDown(old(store.schedule)) ==> r.Ok?
    ensures r.Ok? && OnceEach(runs) && (forall k :: 0 <= k < |p0.log| ==> p0.log[k] in runs) ==>
              forall anchors: seq<Anchor> :: HeldFrom(store.c.hash, p0, anchors) ==>
                IsSound(Verify(store.c, None, anchors, r.value.lines)) &&
                Verify(store.c, None, anchors, r.value.lines).sound == Exported(takens)
  {
    hide Honest, Grown, WroteFile, OnceEach, Verify, IsSound, HeldFrom, Exported, Missed, NeverDown;
    r, p0, takens, rows, at := WriteFile(store, runs, None);
    if r.Ok? && OnceEach(runs) && (forall k :: 0 <= k < |p0.log| ==> p0.log[k] in runs) {
      forall anchors: seq<Anchor> | HeldFrom(store.c.hash, p0, anchors)
        ensures IsSound(Verify(store.c, None, anchors, r.value.lines))
        ensures Verify(store.c, None, anchors, r.value.lines).sound == Exported(takens)
      {
        ExportIsSound(store.c, anchors, p0, store.View(), runs, takens, rows, r.value);
      }
    }
  }

  lemma {:induction false} ExportIsSound(c: Codec, anchors: seq<Anchor>, p0: Plane, p1: Plane, runs: seq<RunId>,
                                         takens: seq<Taken>, rows: seq<CaseRow>, w: Writers.Written)
    requires Honest(c, p0) && Grown(p0, p1) && WroteFile(c, p0, p1, runs, None, takens, rows, w) && OnceEach(runs)
    requires HeldFrom(c.hash, p0, anchors) && forall k :: 0 <= k < |p0.log| ==> p0.log[k] in runs
    ensures IsSound(Verify(c, None, anchors, w.lines)) && Verify(c, None, anchors, w.lines).sound == Exported(takens)
  {
    hide Honest, Grown, WrittenFrom, OnceEach, Verify, IsSound, Exported, FileOf, CheckpointOf, Earlier, TrailerFor;
    WholeExportVerifies(c, None, anchors, p0, p1, runs, takens, rows);
  }
}
