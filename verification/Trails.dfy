/** The checkpoints an audit has had in hand, in order: each given out by the
    store, each larger than the one it replaced. */
module Trails {
  import opened Wrappers
  import opened Hashing
  import opened Merkle
  import opened Wire
  import opened Planes

  /** A checkpoint the store gave out between two planes. */
  ghost predicate IssuedBy(h: Hash, p0: Plane, p1: Plane, cp: Checkpoint) {
    exists q :: Grown(p0, q) && Grown(q, p1) && cp == CheckpointOf(h, q)
  }

  lemma {:induction false} IssuedStays(h: Hash, p0: Plane, p1: Plane, p2: Plane, cp: Checkpoint)
    requires IssuedBy(h, p0, p1, cp) && Grown(p1, p2)
    ensures IssuedBy(h, p0, p2, cp)
  {
    hide Grown, CheckpointOf;
    var q :| Grown(p0, q) && Grown(q, p1) && cp == CheckpointOf(h, q);
    GrownIsTransitive(q, p1, p2);
  }

  lemma {:induction false} IssuedSince(h: Hash, p0: Plane, p1: Plane, p2: Plane, cp: Checkpoint)
    requires Grown(p0, p1) && IssuedBy(h, p1, p2, cp)
    ensures IssuedBy(h, p0, p2, cp)
  {
    hide Grown, CheckpointOf;
    var q :| Grown(p1, q) && Grown(q, p2) && cp == CheckpointOf(h, q);
    GrownIsTransitive(p0, p1, q);
  }

  lemma LiveIsIssued(h: Hash, p0: Plane, p1: Plane)
    requires Grown(p0, p1)
    ensures IssuedBy(h, p0, p1, CheckpointOf(h, p1)) && CheckpointOf(h, p1).size == |p1.log|
  {
    hide Grown, Root, LogHashes;
    GrownIsReflexive(p1);
  }

  lemma IssuedIsNoLarger(h: Hash, p0: Plane, p1: Plane, cp: Checkpoint)
    requires IssuedBy(h, p0, p1, cp)
    ensures cp.size <= |p1.log|
  {
    hide Grown, Root, LogHashes;
    var q :| Grown(p0, q) && Grown(q, p1) && cp == CheckpointOf(h, q);
    GrownLog(q, p1);
  }

  ghost predicate Trail(h: Hash, p0: Plane, p1: Plane, trail: seq<Checkpoint>, current: Checkpoint) {
    trail != [] && trail[|trail| - 1] == current &&
    (forall k :: 0 <= k < |trail| ==> IssuedBy(h, p0, p1, trail[k])) &&
    (forall k :: 0 < k < |trail| ==> trail[k - 1].size < trail[k].size)
  }

  /** What one call adds to a trail: the store went from `p` to `q` under it. */
  ghost predicate Followed(h: Hash, p: Plane, q: Plane, before: seq<Checkpoint>, after: seq<Checkpoint>) {
    before <= after && (forall k :: |before| <= k < |after| ==> IssuedBy(h, p, q, after[k])) &&
    (before != [] && before[|before| - 1].size <= |p.log| ==>
       forall k :: 0 < |before| <= k < |after| ==> after[k - 1].size < after[k].size)
  }

  lemma NothingFollows(h: Hash, p: Plane, q: Plane, trail: seq<Checkpoint>)
    ensures Followed(h, p, q, trail, trail)
  {
  }

  lemma FollowedStays(h: Hash, p: Plane, q: Plane, r: Plane, before: seq<Checkpoint>, after: seq<Checkpoint>)
    requires Followed(h, p, q, before, after) && Grown(q, r)
    ensures Followed(h, p, r, before, after)
  {
    hide IssuedBy, Grown;
    forall k | |before| <= k < |after| ensures IssuedBy(h, p, r, after[k]) {
      IssuedStays(h, p, q, r, after[k]);
    }
  }

  /** One more checkpoint in hand, the live one, of another size than the last. */
  lemma {:induction false} OneFollows(h: Hash, p: Plane, q: Plane, before: seq<Checkpoint>, after: seq<Checkpoint>)
    requires Followed(h, p, q, before, after) && Grown(p, q) && after != []
    requires after[|after| - 1].size != |q.log|
    ensures Followed(h, p, q, before, after + [CheckpointOf(h, q)])
  {
    hide IssuedBy, Grown, CheckpointOf;
    LiveIsIssued(h, p, q);
    GrownLog(p, q);
    if |before| < |after| {
      IssuedIsNoLarger(h, p, q, after[|after| - 1]);
    }
  }

  /** A trail, followed by a call. */
  lemma {:induction false} TrailGoesOn(h: Hash, p0: Plane, p: Plane, q: Plane, before: seq<Checkpoint>, was: Checkpoint,
                                       after: seq<Checkpoint>, current: Checkpoint)
    requires Trail(h, p0, p, before, was) && Grown(p0, p) && Grown(p, q)
    requires Followed(h, p, q, before, after) && after != [] && after[|after| - 1] == current
    ensures Trail(h, p0, q, after, current)
  {
    hide IssuedBy, Grown;
    IssuedIsNoLarger(h, p0, p, was);
    forall k | 0 <= k < |after| ensures IssuedBy(h, p0, q, after[k]) {
      if k < |before| {
        IssuedStays(h, p0, p, q, after[k]);
      } else {
        IssuedSince(h, p0, p, q, after[k]);
      }
    }
  }

  lemma {:induction false} TrailRises(h: Hash, p0: Plane, p1: Plane, trail: seq<Checkpoint>, current: Checkpoint,
                                      i: nat, j: nat)
    requires Trail(h, p0, p1, trail, current) && i < j < |trail|
    ensures trail[i].size < trail[j].size
    decreases j - i
  {
    hide IssuedBy;
    if i < j - 1 {
      TrailRises(h, p0, p1, trail, current, i, j - 1);
    }
  }

  /** Two checkpoints an audit had in hand are one exactly when they are of one
      size: the one a run was placed under is the one an anchor was held to
      unless the log was seen to grow in between. */
  lemma {:induction false} OneSizeIsOne(h: Hash, p0: Plane, p1: Plane, trail: seq<Checkpoint>, current: Checkpoint,
                                        a: Checkpoint, b: Checkpoint)
    requires Trail(h, p0, p1, trail, current) && a in trail && b in trail
    ensures a == b <==> a.size == b.size
  {
    hide Trail;
    var i :| 0 <= i < |trail| && trail[i] == a;
    var j :| 0 <= j < |trail| && trail[j] == b;
    if i < j {
      TrailRises(h, p0, p1, trail, current, i, j);
    } else if j < i {
      TrailRises(h, p0, p1, trail, current, j, i);
    }
  }
}
