/** The live audit: the file's questions asked of a store that keeps growing
    while they are asked. */
module Audits {
  import opened Wrappers
  import opened Hashing
  import opened Merkle
  import opened Wire
  import opened VerifySpec
  import opened Planes
  import opened Stores
  import opened ExportVerifies
  import opened Trails
  import opened Groups

  datatype Fault =
    | ChainFault(run: RunId) | SealClaim(run: RunId) | GroupUnsettled(run: RunId, group: string)
    | NotInLog(run: RunId) | LeafMismatch(run: RunId) | BadInclusion(run: RunId)
    | WrongLog(obtainedFrom: string) | Shrunk(obtainedFrom: string) | NotAppendOnly(obtainedFrom: string)

  datatype Unchecked =
    | NoRecords(run: RunId) | RunUnpinned(run: RunId) | AnchorUnpinned(obtainedFrom: string) | OpenRuns(count: nat)
    | Scope(examined: nat, committed: nat)

  datatype Placement = InLog | Open | Absent | Mismatched | BadPath | Unpinned

  /** What an auditor brought. */
  datatype Evidence = Evidence(anchors: seq<Anchor>, verifier: Option<SignatureCheck>, requireSignatures: bool)

  // ── Chains and claims ──────────────────────────────────────────────────

  function HeadFrom(records: seq<Record>, from: Digest): Digest {
    if records == [] then from else records[|records| - 1].hash
  }

  /** Walk a chain; the head it reaches, or none at the first broken link. */
  method VerifyChain(h: Hash, records: seq<Record>, from: Digest) returns (head: Option<Digest>)
    ensures head.Some? <==> ChainVerifies(h, records, from)
    ensures head.Some? ==> head.value == HeadFrom(records, from)
  {
    hide Chain;
    var prev := from;
    for i := 0 to |records|
      invariant prev == HeadFrom(records[..i], from)
      invariant forall j :: 0 <= j < i ==> LinksBack(h, records, from, j)
    {
      if records[i].body.seq_ != records[0].body.seq_ + i || records[i].prev != prev ||
         Chain(h, prev, records[i].raw) != records[i].hash
      {
        assert !LinksBack(h, records, from, i);
        return None;
      }
      prev := records[i].hash;
    }
    assert records[..|records|] == records;
    return Some(prev);
  }

  predicate SignedBy(check: SignatureCheck, require: bool, r: Record) {
    match r.signature case Some(s) => check(r.hash, s) case None => !require
  }

  predicate SignaturesHold(evidence: Evidence, records: seq<Record>) {
    evidence.verifier.Some? ==>
      forall i :: 0 <= i < |records| ==> SignedBy(evidence.verifier.value, evidence.requireSignatures, records[i])
  }

  method VerifyHistory(h: Hash, evidence: Evidence, records: seq<Record>) returns (head: Option<Digest>)
    ensures head.Some? <==> ChainVerifies(h, records, ZERO) && SignaturesHold(evidence, records)
    ensures head.Some? ==> head.value == HeadFrom(records, ZERO)
  {
    head := VerifyChain(h, records, ZERO);
    if head.Some? && evidence.verifier.Some? {
      for i := 0 to |records|
        invariant forall j :: 0 <= j < i ==> SignedBy(evidence.verifier.value, evidence.requireSignatures, records[j])
      {
        if !SignedBy(evidence.verifier.value, evidence.requireSignatures, records[i]) {
          return None;
        }
      }
    }
  }

  /** No conclusion names a head other than the one it was chained to. */
  predicate SealClaimHolds(records: seq<Record>) {
    forall i :: 0 <= i < |records| && records[i].body.kind.RunConcluded? ==>
      records[i].body.kind.chainHead == records[i].prev
  }

  // ── Placement ──────────────────────────────────────────────────────────

  /** A checkpoint this log gave out, at its own size. */
  ghost predicate Stands(h: Hash, p: Plane, cp: Checkpoint) {
    cp.size <= |p.log| && cp == CheckpointAt(h, p, cp.size)
  }

  lemma {:induction false} StandsStays(c: Codec, p: Plane, q: Plane, cp: Checkpoint)
    requires Honest(c, p) && Grown(p, q) && Stands(c.hash, p, cp)
    ensures Stands(c.hash, q, cp)
  {
    hide Honest, Grown, LogHashes, Root;
    LogHashesStay(c, p, q, cp.size);
    GrownLog(p, q);
  }

  lemma LiveStands(h: Hash, p: Plane)
    ensures Stands(h, p, CheckpointOf(h, p)) && CheckpointOf(h, p).size == |p.log|
  {
    hide LogHashes, Root;
  }

  /** A path and a checkpoint of one size fit, though they were read apart. */
  lemma {:induction false} PathFits(c: Codec, q: Plane, p: Plane, run: RunId, cp: Checkpoint)
    requires Honest(c, q) && Grown(q, p) && Stands(c.hash, p, cp) && cp.size == |q.log|
    requires InclusionAt(c.hash, q, run, |q.log|).Some?
    ensures var inc := InclusionAt(c.hash, q, run, |q.log|).value;
            inc.size == cp.size && inc.index < inc.size &&
            Included(c.hash, LeafHashOf(c.hash, inc.seal), inc.index, cp.size, inc.proof, cp.root)
  {
    hide Honest, Grown, LogHashes, Root, Included, Merkle.InclusionProof, LeafHashOf, SealOf, IndexIn;
    LogHashesStay(c, q, p, |q.log|);
    InclusionIsComplete(c.hash, LogHashes(c.hash, q, |q.log|), IndexIn(q.log, run).value);
  }

  /** An honest store, and a checkpoint its log gave out. */
  ghost predicate Fair(c: Codec, p: Plane, cp: Checkpoint) {
    Honest(c, p) && Stands(c.hash, p, cp)
  }

  lemma {:induction false} FairStays(c: Codec, p: Plane, q: Plane, cp: Checkpoint)
    requires Fair(c, p, cp) && Honest(c, q) && Grown(p, q)
    ensures Fair(c, q, cp)
  {
    hide Honest, Grown, Stands;
    StandsStays(c, p, q, cp);
  }

  lemma {:induction false} FairSays(c: Codec, p: Plane, cp: Checkpoint)
    requires Fair(c, p, cp)
    ensures Honest(c, p) && cp.size <= |p.log| && cp.origin == p.origin
  {
    hide Honest, LogHashes, Root;
  }

  lemma LiveIsFair(c: Codec, p: Plane)
    requires Honest(c, p)
    ensures Fair(c, p, CheckpointOf(c.hash, p)) && CheckpointOf(c.hash, p).size == |p.log|
  {
    hide Honest, Stands, CheckpointOf;
    LiveStands(c.hash, p);
  }

  /** A consistency proof and, after it, a checkpoint: the two halves of one
      check, read apart.  `n` is the size the proof was read at. */
  method ProofAndCheckpoint(store: Store, oldSize: nat)
    returns (r: Result<(seq<Digest>, Checkpoint), StoreError>, ghost n: nat)
    modifies store`runs, store`log, store`cases, store`schedule
    ensures Grown(old(store.View()), store.View()) && store.leases == old(store.leases)
    ensures old(Honest(store.c, store.View())) ==> Honest(store.c, store.View())
    ensures r.Ok? ==> r.value.1 == CheckpointOf(store.c.hash, store.View()) && r.value.1.size == |store.log|
    ensures old(store.schedule) == [] && oldSize <= old(|store.log|) ==>
              store.schedule == [] && store.View() == old(store.View()) && r.Ok? &&
              r.value.0 == Merkle.ConsistencyProof(store.c.hash, LogHashes(store.c.hash, store.View(), |store.log|),
                                                     oldSize)
    ensures r.Ok? && old(Honest(store.c, store.View())) ==>
              Fair(store.c, store.View(), r.value.1) && r.value.1.size == |store.log| &&
              old(|store.log|) <= n <= |store.log| && oldSize <= n &&
              r.value.0 == Merkle.ConsistencyProof(store.c.hash, LogHashes(store.c.hash, store.View(), n), oldSize)
  {
    hide Honest, Grown, Fair, CheckpointOf, Merkle.ConsistencyProof, LogHashes;
    ghost var start := store.View();
    var proof := store.ConsistencyProof(oldSize);
    ghost var q := store.View();
    n := |q.log|;
    GrownLog(start, q);
    if proof.Err? {
      return Err(proof.error), n;
    }
    var live := store.Checkpoint();
    GrownLog(q, store.View());
    GrownIsTransitive(start, q, store.View());
    if live.Err? {
      return Err(live.error), n;
    }
    CheckpointSize(store.c.hash, store.View());
    if Honest(store.c, start) {
      LogHashesStay(store.c, q, store.View(), n);
      LiveIsFair(store.c, store.View());
    }
    return Ok((proof.value, live.value)), n;
  }

  lemma CheckpointSize(h: Hash, p: Plane)
    ensures CheckpointOf(h, p).size == |p.log| && CheckpointOf(h, p).origin == p.origin
  {
    hide Root, LogHashes;
  }

  /** A proof read at a size, and the two checkpoints of this log it joins. */
  lemma PinnedIsConsistent(h: Hash, p: Plane, prior: Checkpoint, current: Checkpoint, path: seq<Digest>)
    requires Stands(h, p, prior) && Stands(h, p, current) && prior.size <= current.size
    requires path == Merkle.ConsistencyProof(h, LogHashes(h, p, current.size), prior.size)
    ensures Consistent(h, prior.size, prior.root, current.size, current.root, path)
  {
    hide Consistent, Root, LogHashes, Merkle.ConsistencyProof;
    LogHashesPrefix(h, p, prior.size, current.size);
    ConsistencyIsComplete(h, LogHashes(h, p, current.size), prior.size);
  }

  /** Which placement each answer gets. */
  predicate Decided(h: Hash, records: seq<Record>, head: Digest, placement: Placement, inc: Option<Inclusion>,
                    current: Checkpoint)
  {
    match placement
    case Open => inc.None? && !HasSealingConclusion(records)
    case Absent => inc.None? && HasSealingConclusion(records)
    case Mismatched => inc.Some? && inc.value.seal != head
    case Unpinned => inc.Some? && inc.value.seal == head && inc.value.size != current.size
    case BadPath =>
      inc.Some? && inc.value.seal == head && inc.value.size == current.size && !Proves(h, head, inc.value, current)
    case InLog =>
      inc.Some? && inc.value.seal == head && inc.value.size == current.size && Proves(h, head, inc.value, current)
  }

  /** The fault of a run read as `records` and placed at `q`, if it is found
      missing or over another history. */
  function Misplacement(q: Plane, run: RunId, records: seq<Record>): Option<Fault> {
    if run !in q.log then (if HasSealingConclusion(records) then Some(NotInLog(run)) else None)
    else if SealOf(q, run) != HeadFrom(records, ZERO) then Some(LeafMismatch(run))
    else None
  }

  /** That fault, for a run whose history passes, by the next two turns. */
  function MisplacedBy(c: Codec, p: Plane, schedule: seq<Turn>, evidence: Evidence, run: RunId): Option<Fault> {
    var q1 := Turned(c, p, schedule);
    var records := RecordsOf(q1, run);
    if records != [] && ChainVerifies(c.hash, records, ZERO) && SignaturesHold(evidence, records) then
      Misplacement(Turned(c, q1, After(schedule, 1)), run, records)
    else None
  }

  class AuditReport {
    var current: Checkpoint
    var findings: seq<Fault>
    var notChecked: seq<Unchecked>
    var sound: seq<RunId>
    /** Every checkpoint that has been `current`, in order. */
    ghost var trail: seq<Checkpoint>

    constructor (cp: Checkpoint)
      ensures current == cp && findings == [] && notChecked == [] && sound == [] && trail == [cp]
    {
      current, findings, notChecked, sound, trail := cp, [], [], [], [cp];
    }

    ghost predicate InHand()
      reads this
    {
      trail != [] && trail[|trail| - 1] == current
    }

    /** Where a run stands in the log, by one answer of the store and, if that is
        of another size, one more checkpoint.  `inc` is the answer and `q` the
        plane it came from.  A path
        is only ever compared with a root of its own size; and no path of an
        honest store is found bad. */
    method Place(store: Store, run: RunId, records: seq<Record>, head: Digest)
      returns (r: Result<Placement, StoreError>, ghost inc: Option<Inclusion>, ghost q: Plane)
      requires InHand()
      modifies this`current, this`trail, store`runs, store`log, store`cases, store`schedule
      ensures Grown(old(store.View()), store.View()) && store.leases == old(store.leases)
      ensures old(Honest(store.c, store.View())) ==> Honest(store.c, store.View())
      ensures InHand() && Followed(store.c.hash, old(store.View()), store.View(), old(trail), trail)
      ensures old(Fair(store.c, store.View(), current)) ==> AllStand(store.c.hash, store.View(), old(|trail|), trail)
      ensures r.Ok? ==>
                Grown(old(store.View()), q) && Grown(q, store.View()) && inc == InclusionAt(store.c.hash, q, run, |q.log|)
      ensures r.Ok? ==> Decided(store.c.hash, records, head, r.value, inc, current)
      ensures q == Turned(store.c, old(store.View()), old(store.schedule))
      ensures r.Ok? ==>
                (r.value.Absent? <==> run !in q.log && HasSealingConclusion(records)) &&
                (r.value.Mismatched? <==> run in q.log && SealOf(q, run) != head)
      ensures Up(old(store.schedule)) && (run !in q.log || SealOf(q, run) != head) ==> r.Ok?
      ensures NeverDown(old(store.schedule)) ==> NeverDown(store.schedule) && r.Ok?
      ensures old(store.schedule) == [] && old(current.size == |store.log|) ==>
                store.schedule == [] && store.View() == old(store.View()) && q == store.View() &&
                current == old(current) && trail == old(trail) && r.Ok? && !r.value.Unpinned?
      ensures old(Fair(store.c, store.View(), current)) ==>
                Fair(store.c, store.View(), current) && old(current.size) <= current.size && Honest(store.c, q) &&
                (r.Ok? ==> !r.value.BadPath?)
    {
      hide Honest, Grown, Fair, Followed, Stands, InclusionAt, Proves, HasSealingConclusion, CheckpointOf, SealOf, Turned;
      ghost var start, cp := store.View(), current;
      ghost var was := trail;
      NothingFollows(store.c.hash, start, start, trail);
      var answer := store.InclusionProof(run);
      q, inc := store.View(), None;
      NothingFollows(store.c.hash, start, q, trail);
      GrownIsReflexive(q);
      FairThrough(store.c, start, q, current);
      FairFacts(store.c, q, current);
      if answer.Err? {
        return Err(answer.error), inc, q;
      }
      inc := answer.value;
      AtSays(store.c.hash, q, run);
      if answer.value.None? {
        return Ok(if HasSealingConclusion(records) then Absent else Open), inc, q;
      }
      var at := answer.value.value;
      if at.seal != head {
        return Ok(Mismatched), inc, q;
      }
      if at.size != current.size {
        var live := store.Checkpoint();
        GrownIsTransitive(start, q, store.View());
        FairThrough(store.c, q, store.View(), cp);
        NothingFollows(store.c.hash, start, store.View(), trail);
        if live.Err? {
          return Err(live.error), inc, q;
        }
        RefreshedIsFair(store.c, store.View(), cp);
        GrownLog(q, store.View());
        TrailRefreshed(store.c.hash, start, q, store.View(), trail);
        FairStands(store.c, store.View(), live.value);
        current, trail := live.value, trail + [live.value];
      }
      if at.size != current.size || at.index >= at.size {
        return Ok(Unpinned), inc, q;
      }
      var ok := Proves(store.c.hash, head, at, current);
      if Fair(store.c, start, cp) {
        FairPath(store.c, q, store.View(), run, current);
      }
      return Ok(if ok then InLog else BadPath), inc, q;
    }

    /** File a run's faults, or list it sound when it has none. */
    method Close(run: RunId, placement: Placement, faults: seq<Fault>)
      modifies this`findings, this`notChecked, this`sound
      ensures findings == old(findings) + faults
      ensures sound == if faults == [] then old(sound) + [run] else old(sound)
      ensures notChecked == if placement.Unpinned? then old(notChecked) + [RunUnpinned(run)] else old(notChecked)
    {
      if placement.Unpinned? {
        notChecked := notChecked + [RunUnpinned(run)];
      }
      if faults == [] {
        sound := sound + [run];
      } else {
        findings := findings + faults;
      }
    }

    /** What the audit says of its own scope. */
    method Conclude(openRuns: nat, examined: nat)
      modifies this`notChecked
      ensures notChecked ==
              old(notChecked) + (if openRuns > 0 then [OpenRuns(openRuns)] else []) +
              (if examined < current.size then [Scope(examined, current.size)] else [])
    {
      if openRuns > 0 {
        notChecked := notChecked + [OpenRuns(openRuns)];
      }
      if examined < current.size {
        notChecked := notChecked + [Scope(examined, current.size)];
      }
    }

    /** A consistency proof pinned to `current`: read at its very size, with one
        refresh if the log grew in between, or none if it grew twice. */
    method Pin(store: Store, oldSize: nat) returns (r: Result<Option<seq<Digest>>, StoreError>)
      requires InHand()
      modifies this`current, this`trail, store`runs, store`log, store`cases, store`schedule
      ensures Grown(old(store.View()), store.View()) && store.leases == old(store.leases)
      ensures old(Honest(store.c, store.View())) ==> Honest(store.c, store.View())
      ensures InHand() && Followed(store.c.hash, old(store.View()), store.View(), old(trail), trail)
      ensures old(Fair(store.c, store.View(), current)) ==> AllStand(store.c.hash, store.View(), old(|trail|), trail)
      ensures old(Fair(store.c, store.View(), current)) ==>
                Fair(store.c, store.View(), current) && old(current.size) <= current.size &&
                (r.Ok? && r.value.Some? ==>
                   oldSize <= current.size &&
                   r.value.value ==
                   Merkle.ConsistencyProof(store.c.hash, LogHashes(store.c.hash, store.View(), current.size), oldSize))
      ensures r.Ok? && r.value.None? ==> old(|store.log|) < |store.log|
      ensures r.Ok? && r.value.Some? ==> current.size == |store.log|
      ensures old(store.schedule) == [] && oldSize <= old(|store.log|) ==>
                store.schedule == [] && store.View() == old(store.View()) &&
                r == Ok(Some(Merkle.ConsistencyProof(store.c.hash, LogHashes(store.c.hash, store.View(), |store.log|),
                                                     oldSize))) &&
                (if old(current.size == |store.log|) then current == old(current) && trail == old(trail)
                 else current == CheckpointOf(store.c.hash, store.View()))
    {
      hide Honest, Grown, Fair, Followed, Stands, LogHashes, CheckpointOf, Merkle.ConsistencyProof;
      ghost var start, cp, was := store.View(), current, trail;
      FairFacts(store.c, start, cp);
      var pin, n := ProofAndCheckpoint(store, oldSize);
      ghost var from := store.View();
      FairThrough(store.c, start, from, cp);
      FairFacts(store.c, from, cp);
      NothingFollows(store.c.hash, start, from, trail);
      if pin.Err? {
        return Err(pin.error);
      }
      LiveIsIssued(store.c.hash, start, from);
      GrownLog(start, from);
      if pin.value.1.size != current.size {
        OneFollows(store.c.hash, start, from, was, trail);
        current, trail := pin.value.1, trail + [pin.value.1];
        pin, n := ProofAndCheckpoint(store, oldSize);
        GrownIsTransitive(start, from, store.View());
        GrownLog(from, store.View());
        FollowedStays(store.c.hash, start, from, store.View(), was, trail);
        FairThrough(store.c, from, store.View(), current);
        FairFacts(store.c, store.View(), current);
        FairStands(store.c, store.View(), current);
        if pin.Err? {
          return Err(pin.error);
        }
      }
      if pin.value.1.size == current.size {
        return Ok(Some(pin.value.0));
      }
      LiveIsIssued(store.c.hash, start, store.View());
      OneFollows(store.c.hash, start, store.View(), was, trail);
      FairStands(store.c, store.View(), pin.value.1);
      current, trail := pin.value.1, trail + [pin.value.1];
      return Ok(None);
    }

    /** The deletion check, against one checkpoint the auditor brought.  `proof`
        is the one the verdict, if there is one, was reached with.  A clean
        answer means the current root was proved to extend it; and an honest
        store is never blamed for a checkpoint its log gave out. */
    method CheckAppendOnly(store: Store, anchor: Anchor) returns (r: Result<(), StoreError>, ghost proof: seq<Digest>)
      requires InHand()
      modifies this`current, this`trail, this`findings, this`notChecked, store`runs, store`log, store`cases,
               store`schedule
      ensures Grown(old(store.View()), store.View()) && store.leases == old(store.leases)
      ensures old(Honest(store.c, store.View())) ==> Honest(store.c, store.View())
      ensures InHand() && Followed(store.c.hash, old(store.View()), store.View(), old(trail), trail)
      ensures old(Fair(store.c, store.View(), current)) ==> AllStand(store.c.hash, store.View(), old(|trail|), trail)
      ensures findings == old(findings) || exists f :: IsAnchorFault(anchor, f) && findings == old(findings) + [f]
      ensures notChecked == old(notChecked) || notChecked == old(notChecked) + [AnchorUnpinned(anchor.obtainedFrom)]
      ensures r.Ok? && findings == old(findings) && notChecked == old(notChecked) ==>
                anchor.checkpoint.origin == old(current.origin) &&
                Consistent(store.c.hash, anchor.checkpoint.size, anchor.checkpoint.root, current.size, current.root,
                    proof)
      ensures old(Fair(store.c, store.View(), current)) ==>
                Fair(store.c, store.View(), current) && old(current.size) <= current.size
      ensures old(Fair(store.c, store.View(), current)) ==>
                Stands(store.c.hash, old(store.View()), anchor.checkpoint) &&
                    anchor.checkpoint.size <= old(current.size) ==>
                  findings == old(findings)
      ensures r.Ok? && notChecked != old(notChecked) ==> old(|store.log|) < |store.log|
      ensures old(store.schedule) == [] && old(current.size == |store.log|) ==>
                store.schedule == [] && store.View() == old(store.View()) && r.Ok? && current == old(current) &&
                trail == old(trail) && notChecked == old(notChecked) &&
                findings == old(findings) + AnchorFaultsOf(store.c.hash, store.View(), current, anchor)
    {
      hide Honest, Grown, Fair, Followed, Stands, Consistent, LogHashes, Merkle.ConsistencyProof, IsAnchorFault;
      ghost var start, cp := store.View(), current;
      NothingFollows(store.c.hash, start, start, trail);
      var prior := anchor.checkpoint;
      proof := [];
      GrownIsReflexive(start);
      FairFacts(store.c, start, cp);
      OriginsAgree(store.c.hash, start, prior);
      AnchorFaults(anchor);
      if prior.origin != current.origin {
        findings := findings + [WrongLog(anchor.obtainedFrom)];
        return Ok(()), proof;
      }
      if prior.size > current.size {
        findings := findings + [Shrunk(anchor.obtainedFrom)];
        return Ok(()), proof;
      }
      var pin := Pin(store, prior.size);
      if pin.Err? {
        return Err(pin.error), proof;
      }
      if pin.value.None? {
        notChecked := notChecked + [AnchorUnpinned(anchor.obtainedFrom)];
        return Ok(()), proof;
      }
      proof := pin.value.value;
      if Fair(store.c, start, cp) && Stands(store.c.hash, start, prior) {
        FairFacts(store.c, store.View(), current);
        PinnedIsFair(store.c, start, store.View(), cp, prior, current, proof);
      }
      if !Consistent(store.c.hash, prior.size, prior.root, current.size, current.root, pin.value.value) {
        findings := findings + [NotAppendOnly(anchor.obtainedFrom)];
      }
      return Ok(()), proof;
    }
  }

  /** What one anchor is blamed for by a store nobody writes to, with its live
      checkpoint in hand. */
  function AnchorFaultsOf(h: Hash, p: Plane, current: Checkpoint, anchor: Anchor): seq<Fault> {
    var prior := anchor.checkpoint;
    if prior.origin != current.origin then [WrongLog(anchor.obtainedFrom)]
    else if prior.size > |p.log| then [Shrunk(anchor.obtainedFrom)]
    else if !Consistent(h, prior.size, prior.root, |p.log|, current.root,
                        Merkle.ConsistencyProof(h, LogHashes(h, p, |p.log|), prior.size))
         then [NotAppendOnly(anchor.obtainedFrom)]
    else []
  }

  /** The checkpoints added to a trail since it had `from` are of the log as it
      stands. */
  ghost predicate AllStand(h: Hash, p: Plane, from: nat, trail: seq<Checkpoint>) {
    forall k :: from <= k < |trail| ==> Stands(h, p, trail[k])
  }

  lemma FairStands(c: Codec, p: Plane, cp: Checkpoint)
    ensures Fair(c, p, cp) ==> Stands(c.hash, p, cp)
  {
    hide Honest, Stands;
  }

  /** A refresh, once a path was seen at another size. */
  lemma {:induction false} TrailRefreshed(h: Hash, p: Plane, q: Plane, r: Plane, trail: seq<Checkpoint>)
    requires Grown(p, q) && Grown(q, r) && trail != [] && trail[|trail| - 1].size != |q.log|
    ensures Followed(h, p, r, trail, trail + [CheckpointOf(h, r)])
  {
    hide Grown, IssuedBy, CheckpointOf;
    GrownIsTransitive(p, q, r);
    GrownLog(p, q);
    GrownLog(q, r);
    LiveIsIssued(h, p, r);
  }

  /** A path proves a head's leaf under a checkpoint. */
  predicate Proves(h: Hash, head: Digest, inc: Inclusion, cp: Checkpoint) {
    Included(h, LeafHashOf(h, head), inc.index, inc.size, inc.proof, cp.root)
  }

  lemma {:induction false} FairThrough(c: Codec, p: Plane, q: Plane, cp: Checkpoint)
    requires Grown(p, q) && (Honest(c, p) ==> Honest(c, q))
    ensures Fair(c, p, cp) ==> Fair(c, q, cp)
  {
    hide Honest, Grown, Stands;
    if Fair(c, p, cp) {
      FairStays(c, p, q, cp);
    }
  }

  lemma FairFacts(c: Codec, p: Plane, cp: Checkpoint)
    ensures Fair(c, p, cp) ==> Honest(c, p) && cp.size <= |p.log| && cp.origin == p.origin
  {
    hide Fair, Honest;
    if Fair(c, p, cp) {
      FairSays(c, p, cp);
    }
  }

  lemma RefreshedIsFair(c: Codec, p: Plane, cp: Checkpoint)
    ensures Fair(c, p, cp) ==> Fair(c, p, CheckpointOf(c.hash, p)) && cp.size <= CheckpointOf(c.hash, p).size
  {
    hide Fair, Honest, CheckpointOf;
    FairFacts(c, p, cp);
    if Fair(c, p, cp) {
      LiveIsFair(c, p);
    }
  }

  lemma {:induction false} FairPath(c: Codec, q: Plane, p: Plane, run: RunId, cp: Checkpoint)
    requires Honest(c, q) && Grown(q, p) && Fair(c, p, cp) && InclusionAt(c.hash, q, run, |q.log|).Some?
    requires InclusionAt(c.hash, q, run, |q.log|).value.size == cp.size
    ensures var inc := InclusionAt(c.hash, q, run, |q.log|).value; Proves(c.hash, inc.seal, inc, cp)
  {
    hide Honest, Grown, Stands, InclusionAt, Included, LeafHashOf;
    AtSays(c.hash, q, run);
    PathFits(c, q, p, run, cp);
  }

  lemma {:induction false} PinnedIsFair(c: Codec, p: Plane, q: Plane, before: Checkpoint, prior: Checkpoint,
                                        current: Checkpoint, path: seq<Digest>)
    requires Fair(c, p, before) && Stands(c.hash, p, prior) && Grown(p, q) && Fair(c, q, current)
    requires prior.size <= current.size && current.size <= |q.log|
    requires path == Merkle.ConsistencyProof(c.hash, LogHashes(c.hash, q, current.size), prior.size)
    ensures Consistent(c.hash, prior.size, prior.root, current.size, current.root, path)
  {
    hide Honest, Grown, Stands, Consistent, LogHashes, Merkle.ConsistencyProof;
    StandsStays(c, p, q, prior);
    PinnedIsConsistent(c.hash, q, prior, current, path);
  }

  ghost predicate IsAnchorFault(anchor: Anchor, f: Fault) {
    f == WrongLog(anchor.obtainedFrom) || f == Shrunk(anchor.obtainedFrom) || f == NotAppendOnly(anchor.obtainedFrom)
  }

  lemma AnchorFaults(anchor: Anchor)
    ensures IsAnchorFault(anchor, WrongLog(anchor.obtainedFrom)) && IsAnchorFault(anchor, Shrunk(anchor.obtainedFrom))
    ensures IsAnchorFault(anchor, NotAppendOnly(anchor.obtainedFrom))
  {
  }

  lemma OriginsAgree(h: Hash, p: Plane, cp: Checkpoint)
    ensures Stands(h, p, cp) ==> cp.origin == p.origin
  {
    hide LogHashes, Root;
  }

  // ── What an honest, growing store can be blamed for ────────────────────

  /** The run was written to between two planes. */
  ghost predicate Moved(p: Plane, q: Plane, run: RunId) {
    RecordsOf(p, run) != RecordsOf(q, run)
  }

  /** A group left standing when the run was read. */
  ghost predicate LeftStanding(records: seq<Record>, group: string, n: nat, key: Key) {
    n <= |records| && key.2 == group && HasSealingConclusion(records[..n]) && Leftover(records[..n], key) > 0
  }

  /** A signature asked for was missing, or wrong, when the run was read. */
  ghost predicate Unsigned(evidence: Evidence, records: seq<Record>, n: nat) {
    n <= |records| && !SignaturesHold(evidence, records[..n])
  }

  /** What each finding says of a store that was honest throughout: that a
      signature asked for was missing or wrong, that a group really was left standing, that the run was
      written to while it was audited or had concluded and not been sealed when
      the audit began, or that an anchor was no checkpoint of this log. */
  ghost predicate Excused(h: Hash, p: Plane, q: Plane, evidence: Evidence, f: Fault) {
    match f
    case ChainFault(run) => exists n: nat :: Unsigned(evidence, RecordsOf(q, run), n)
    case SealClaim(run) => false
    case GroupUnsettled(run, group) => exists n: nat, key :: LeftStanding(RecordsOf(q, run), group, n, key)
    case NotInLog(run) => Moved(p, q, run) || (HasSealingConclusion(RecordsOf(p, run)) && run !in p.log)
    case LeafMismatch(run) => Moved(p, q, run)
    case BadInclusion(run) => false
    case WrongLog(from) => ForeignAnchor(h, p, evidence, from)
    case Shrunk(from) => ForeignAnchor(h, p, evidence, from)
    case NotAppendOnly(from) => ForeignAnchor(h, p, evidence, from)
  }

  ghost predicate ForeignAnchor(h: Hash, p: Plane, evidence: Evidence, from: string) {
    exists i :: 0 <= i < |evidence.anchors| && evidence.anchors[i].obtainedFrom == from &&
                !Stands(h, p, evidence.anchors[i].checkpoint)
  }

  ghost predicate AllExcused(h: Hash, p: Plane, q: Plane, evidence: Evidence, faults: seq<Fault>) {
    forall i :: 0 <= i < |faults| ==> Excused(h, p, q, evidence, faults[i])
  }

  lemma RecordsExtend(p: Plane, q: Plane, run: RunId)
    requires Grown(p, q)
    ensures RecordsOf(p, run) <= RecordsOf(q, run)
  {
  }

  lemma MovedStays(p: Plane, q: Plane, r: Plane, run: RunId)
    requires Grown(p, q) && Grown(q, r)
    ensures Moved(p, q, run) || Moved(q, r, run) <==> Moved(p, r, run)
  {
    hide Grown;
    RecordsExtend(p, q, run);
    RecordsExtend(q, r, run);
  }

  lemma {:induction false} ExcusedStays(h: Hash, p: Plane, q: Plane, r: Plane, evidence: Evidence, f: Fault)
    requires Grown(p, q) && Grown(q, r) && Excused(h, p, q, evidence, f)
    ensures Excused(h, p, r, evidence, f)
  {
    hide Grown, HasSealingConclusion, Leftover, ForeignAnchor, Moved;
    match f {
      case ChainFault(run) =>
        var n: nat :| Unsigned(evidence, RecordsOf(q, run), n);
        RecordsExtend(q, r, run);
        assert RecordsOf(r, run)[..n] == RecordsOf(q, run)[..n];
        assert Unsigned(evidence, RecordsOf(r, run), n);
      case GroupUnsettled(run, group) =>
        var n: nat, key :| LeftStanding(RecordsOf(q, run), group, n, key);
        RecordsExtend(q, r, run);
        assert RecordsOf(r, run)[..n] == RecordsOf(q, run)[..n];
        assert LeftStanding(RecordsOf(r, run), group, n, key);
      case NotInLog(run) => MovedStays(p, q, r, run);
      case LeafMismatch(run) => MovedStays(p, q, r, run);
      case _ =>
    }
  }

  lemma AllExcusedStay(h: Hash, p: Plane, q: Plane, r: Plane, evidence: Evidence, faults: seq<Fault>)
    requires Grown(p, q) && Grown(q, r) && AllExcused(h, p, q, evidence, faults)
    ensures AllExcused(h, p, r, evidence, faults)
  {
    hide Excused, Grown;
    forall i | 0 <= i < |faults| ensures Excused(h, p, r, evidence, faults[i]) {
      ExcusedStays(h, p, q, r, evidence, faults[i]);
    }
  }

  lemma HonestClaims(c: Codec, run: RunId, records: seq<Record>)
    requires HonestRun(c, run, records)
    ensures SealClaimHolds(records) && ChainVerifies(c.hash, records, ZERO)
  {
    HonestChain(c, run, records);
    HonestSeals(c, run, records);
  }

  lemma HonestSeals(c: Codec, run: RunId, records: seq<Record>)
    requires HonestRun(c, run, records)
    ensures SealClaimHolds(records)
  {
    hide Hashing.Head, Chain, Uncanonical, Raws;
    forall i | 0 <= i < |records| && records[i].body.kind.RunConcluded?
      ensures records[i].body.kind.chainHead == records[i].prev
    {
      assert HonestRecord(c, run, records, i);
    }
  }

  lemma HonestHistory(c: Codec, p: Plane, run: RunId)
    requires Honest(c, p) && RecordsOf(p, run) != []
    ensures HonestRun(c, run, RecordsOf(p, run))
  {
    hide HonestRun, Stamped, Concluded;
  }

  // ── When a run is misplaced ────────────────────────────────────────────

  /** A history's last link is among the strings hashed for any longer one. */
  lemma {:induction false} LastLinkIsHashed(h: Hash, records: seq<Record>, n: nat)
    requires 0 < n <= |records|
    ensures Link(Hashing.Head(h, Raws(records[..n - 1])), records[n - 1].raw) in ChainStrings(h, Raws(records))
  {
    hide Hashing.Head, Link;
    var m := |records| - 1;
    RawsOfAppend(records[..m], records[m]);
    assert records[..m] + [records[m]] == records;
    assert Raws(records)[..m] == Raws(records[..m]);
    if n <= m {
      assert records[..m][..n - 1] == records[..n - 1];
      LastLinkIsHashed(h, records[..m], n);
    }
  }

  /** A run sealed by the time it is placed is found to differ from what was
      read exactly when it was written to in between, or two of the strings its
      chain hashes collide. */
  lemma {:induction false} MismatchedExactly(c: Codec, q1: Plane, q: Plane, run: RunId)
    requires Honest(c, q1) && Honest(c, q) && Grown(q1, q) && RecordsOf(q1, run) != []
    requires Injective(c.hash, ChainStrings(c.hash, Raws(RecordsOf(q, run))))
    ensures SealOf(q, run) != HeadFrom(RecordsOf(q1, run), ZERO) <==> Moved(q1, q, run)
  {
    hide Honest, Grown, HonestRun, Hashing.Head, ChainStrings, Raws;
    var records, later := RecordsOf(q1, run), RecordsOf(q, run);
    RecordsExtend(q1, q, run);
    HonestHistory(c, q1, run);
    HonestHistory(c, q, run);
    HonestLast(c, run, records);
    HonestLast(c, run, later);
    if Moved(q1, q, run) && SealOf(q, run) == HeadFrom(records, ZERO) {
      LastLinkIsHashed(c.hash, later, |records|);
      LastLinkIsHashed(c.hash, later, |later|);
      assert later[..|records| - 1] == records[..|records| - 1];
      LinkIsInjective(records[|records| - 1].prev, records[|records| - 1].raw,
                      later[|later| - 1].prev, later[|later| - 1].raw);
      ReadsApart(c, run, later, |records| - 1, |later| - 1);
    }
  }

  lemma ReadsApart(c: Codec, run: RunId, records: seq<Record>, i: nat, j: nat)
    requires HonestRun(c, run, records) && i < j < |records|
    ensures records[i].raw != records[j].raw
  {
    hide Hashing.Head, Chain, Uncanonical, Raws;
    assert HonestRecord(c, run, records, i) && HonestRecord(c, run, records, j);
  }

  /** A run sealed before the audit began is never reported as misplaced. */
  lemma SealedBeforeIsPlaced(h: Hash, p: Plane, q: Plane, evidence: Evidence, run: RunId, f: Fault)
    requires Grown(p, q) && run in p.log && run in p.runs && Excused(h, p, q, evidence, f)
    ensures f != NotInLog(run) && f != LeafMismatch(run)
  {
  }

  // ── One run ────────────────────────────────────────────────────────────

  ghost predicate IsLeftStanding(run: RunId, records: seq<Record>, f: Fault) {
    f.GroupUnsettled? && f.run == run && exists key :: LeftStanding(records, f.group, |records|, key)
  }

  ghost predicate AreLeftStanding(run: RunId, records: seq<Record>, faults: seq<Fault>) {
    forall i :: 0 <= i < |faults| ==> IsLeftStanding(run, records, faults[i])
  }

  lemma StandsAtTheEnd(run: RunId, records: seq<Record>, key: Key)
    requires HasSealingConclusion(records) && Leftover(records, key) > 0
    ensures IsLeftStanding(run, records, GroupUnsettled(run, key.2))
  {
    hide HasSealingConclusion, Leftover;
    assert records[..|records|] == records;
    assert LeftStanding(records, key.2, |records|, key);
  }

  /** What a run left permanently undecided: its unsettled groups, under a
      sealing conclusion only. */
  method PermanentlyUndecided(run: RunId, records: seq<Record>) returns (faults: seq<Fault>)
    ensures !HasSealingConclusion(records) ==> faults == []
    ensures AreLeftStanding(run, records, faults)
    ensures HasSealingConclusion(records) && faults == [] ==> forall key :: Leftover(records, key) == 0
    ensures HasSealingConclusion(records) ==>
              forall key :: Leftover(records, key) > 0 ==> GroupUnsettled(run, key.2) in faults
  {
    hide HasSealingConclusion, Leftover, Within, OpenedKeys, IsLeftStanding;
    faults := [];
    if !HasSealingConclusion(records) {
      return;
    }
    var groups := UnsettledGroups(records);
    ghost var keys :| NamesLeftover(records, groups, keys);
    for i := 0 to |groups|
      invariant |faults| == i && AreLeftStanding(run, records, faults)
      invariant forall j :: 0 <= j < i ==> faults[j] == GroupUnsettled(run, groups[j])
    {
      assert keys[i] in multiset(keys);
      StandsAtTheEnd(run, records, keys[i]);
      faults := faults + [GroupUnsettled(run, groups[i])];
    }
    if faults == [] {
      assert keys == [];
    }
    forall key | Leftover(records, key) > 0 ensures GroupUnsettled(run, key.2) in faults {
      assert key in multiset(keys);
      var i :| 0 <= i < |keys| && keys[i] == key;
      assert faults[i] == GroupUnsettled(run, key.2);
    }
  }

  /** The fault a placement is, for the records it was decided on. */
  function PlacementFaults(run: RunId, placement: Placement): seq<Fault> {
    match placement
    case Absent => [NotInLog(run)]
    case Mismatched => [LeafMismatch(run)]
    case BadPath => [BadInclusion(run)]
    case _ => []
  }

  /** A placement is only ever a fault for a reason that holds. */
  lemma {:induction false} PlacementIsExcused(c: Codec, p: Plane, q1: Plane, q: Plane, r: Plane, evidence: Evidence,
                                              run: RunId, placement: Placement)
    requires Honest(c, q1) && Honest(c, q) && Grown(p, q1) && Grown(q1, q) && Grown(q, r)
    requires RecordsOf(q1, run) != [] && !placement.BadPath?
    requires placement.Absent? ==>
               InclusionAt(c.hash, q, run, |q.log|).None? && HasSealingConclusion(RecordsOf(q1, run))
    requires placement.Mismatched? ==>
               InclusionAt(c.hash, q, run, |q.log|).Some? &&
               InclusionAt(c.hash, q, run, |q.log|).value.seal != HeadFrom(RecordsOf(q1, run), ZERO)
    ensures AllExcused(c.hash, p, r, evidence, PlacementFaults(run, placement))
  {
    hide Honest, Grown, HasSealingConclusion, LogHashes, Merkle.InclusionProof, ForeignAnchor, Leftover;
    GrownIsTransitive(p, q1, q);
    GrownIsTransitive(q1, q, r);
    MovedStays(p, q1, r, run);
    MovedStays(q1, q, r, run);
    GrownLog(p, q);
    if placement.Absent? && !Moved(p, r, run) {
      NotSealedBefore(c.hash, p, q, run);
    }
    if placement.Mismatched? {
      AtSays(c.hash, q, run);
      RecordsExtend(q1, q, run);
    }
  }

  lemma NotSealedBefore(h: Hash, p: Plane, q: Plane, run: RunId)
    requires p.log <= q.log && InclusionAt(h, q, run, |q.log|).None?
    ensures run !in p.log
  {
    hide LogHashes, Merkle.InclusionProof;
    assert run !in q.log;
    forall i | 0 <= i < |p.log| ensures p.log[i] != run {
      assert q.log[i] == p.log[i];
    }
  }

  // ── What a run listed sound has been held to ───────────────────────────

  predicate Blames(f: Fault, run: RunId) {
    match f
    case ChainFault(r) => r == run
    case SealClaim(r) => r == run
    case GroupUnsettled(r, _) => r == run
    case NotInLog(r) => r == run
    case LeafMismatch(r) => r == run
    case BadInclusion(r) => r == run
    case _ => false
  }

  /** No run is passed over: it is listed sound, named as unread, or blamed. */
  ghost predicate Accounted(run: RunId, sound: seq<RunId>, notChecked: seq<Unchecked>, findings: seq<Fault>) {
    run in sound || NoRecords(run) in notChecked || exists f :: f in findings && Blames(f, run)
  }

  ghost predicate AllAccounted(runs: seq<RunId>, sound: seq<RunId>, notChecked: seq<Unchecked>, findings: seq<Fault>) {
    forall i :: 0 <= i < |runs| ==> Accounted(runs[i], sound, notChecked, findings)
  }

  lemma AllAccountedStay(runs: seq<RunId>, sound: seq<RunId>, notChecked: seq<Unchecked>, findings: seq<Fault>,
                         sound2: seq<RunId>, notChecked2: seq<Unchecked>, findings2: seq<Fault>)
    requires AllAccounted(runs, sound, notChecked, findings)
    requires sound <= sound2 && notChecked <= notChecked2 && findings <= findings2
    ensures AllAccounted(runs, sound2, notChecked2, findings2)
  {
    hide Blames;
    forall i | 0 <= i < |runs| ensures Accounted(runs[i], sound2, notChecked2, findings2) {
      assert Accounted(runs[i], sound, notChecked, findings);
    }
  }

  lemma OneMoreAccounted(runs: seq<RunId>, i: nat, sound: seq<RunId>, notChecked: seq<Unchecked>, findings: seq<Fault>,
                         sound2: seq<RunId>, notChecked2: seq<Unchecked>, findings2: seq<Fault>)
    requires i < |runs| && AllAccounted(runs[..i], sound, notChecked, findings)
    requires sound <= sound2 && notChecked <= notChecked2 && findings <= findings2
    requires Accounted(runs[i], sound2, notChecked2, findings2)
    ensures AllAccounted(runs[..i + 1], sound2, notChecked2, findings2)
  {
    hide Accounted;
    AllAccountedStay(runs[..i], sound, notChecked, findings, sound2, notChecked2, findings2);
    forall j | 0 <= j < i ensures Accounted(runs[j], sound2, notChecked2, findings2) {
      assert runs[..i][j] == runs[j];
    }
  }

  /** No anchor is passed over: a checkpoint the audit had in hand was proved to
      extend it, or it is named as unpinned, or blamed. */
  ghost predicate AnchorHeld(h: Hash, anchor: Anchor, trail: seq<Checkpoint>, notChecked: seq<Unchecked>,
                             findings: seq<Fault>)
  {
    AnchorUnpinned(anchor.obtainedFrom) in notChecked || (exists f :: f in findings && IsAnchorFault(anchor, f)) ||
    exists cp, path :: cp in trail && Extends(h, anchor, cp, path)
  }

  ghost predicate Extends(h: Hash, anchor: Anchor, cp: Checkpoint, path: seq<Digest>) {
    Consistent(h, anchor.checkpoint.size, anchor.checkpoint.root, cp.size, cp.root, path)
  }

  ghost predicate AllHeld(h: Hash, anchors: seq<Anchor>, trail: seq<Checkpoint>, notChecked: seq<Unchecked>,
                          findings: seq<Fault>)
  {
    forall i :: 0 <= i < |anchors| ==> AnchorHeld(h, anchors[i], trail, notChecked, findings)
  }

  lemma {:induction false} AllHeldStay(h: Hash, anchors: seq<Anchor>, i: nat, trail: seq<Checkpoint>,
                                       notChecked: seq<Unchecked>, findings: seq<Fault>, trail2: seq<Checkpoint>,
                                       notChecked2: seq<Unchecked>, findings2: seq<Fault>)
    requires i < |anchors| && AllHeld(h, anchors[..i], trail, notChecked, findings)
    requires trail <= trail2 && notChecked <= notChecked2 && findings <= findings2
    requires AnchorHeld(h, anchors[i], trail2, notChecked2, findings2)
    ensures AllHeld(h, anchors[..i + 1], trail2, notChecked2, findings2)
  {
    hide Extends, IsAnchorFault;
    forall j | 0 <= j < i ensures AnchorHeld(h, anchors[j], trail2, notChecked2, findings2) {
      assert anchors[..i][j] == anchors[j];
      assert AnchorHeld(h, anchors[j], trail, notChecked, findings);
    }
  }

  lemma {:induction false} FaultsBlame(run: RunId, records: seq<Record>, undecided: seq<Fault>, placement: Placement,
                                       before: seq<Fault>, faults: seq<Fault>)
    requires AreLeftStanding(run, records, undecided) && faults != []
    requires faults == (if SealClaimHolds(records) then [] else [SealClaim(run)]) + undecided +
                       PlacementFaults(run, placement)
    ensures exists f :: f in before + faults && Blames(f, run)
  {
    hide LeftStanding, SealClaimHolds;
    var f := faults[0];
    if SealClaimHolds(records) && undecided != [] {
      assert f == undecided[0] && IsLeftStanding(run, records, f);
    }
    assert Blames(f, run);
    assert f in before + faults;
  }

  /** A history that passed: its chain, its signatures and its conclusions' own
      claims hold, and nothing is left standing under a sealing conclusion. */
  ghost predicate Vouched(h: Hash, evidence: Evidence, records: seq<Record>) {
    records != [] && ChainVerifies(h, records, ZERO) && SignaturesHold(evidence, records) && SealClaimHolds(records) &&
    (HasSealingConclusion(records) ==> forall key :: Leftover(records, key) == 0)
  }

  /** The run was read at `q` and placed at `q2`: the history passed, and either
      it has no leaf and no sealing conclusion, or its leaf is its own head and,
      unless the run was named as unpinned, is proved under the one checkpoint the
      audit had in hand of the path's own size. */
  ghost predicate WasSound(h: Hash, p0: Plane, p1: Plane, evidence: Evidence, run: RunId, q: Plane, q2: Plane,
                           cp: Checkpoint, trail: seq<Checkpoint>, pinned: bool)
  {
    Grown(p0, q) && Grown(q, q2) && Grown(q2, p1) && Vouched(h, evidence, RecordsOf(q, run)) &&
    match InclusionAt(h, q2, run, |q2.log|)
    case None => !HasSealingConclusion(RecordsOf(q, run))
    case Some(inc) =>
      inc.seal == HeadFrom(RecordsOf(q, run), ZERO) &&
      (pinned ==> inc.size == cp.size && cp in trail && Proves(h, inc.seal, inc, cp))
  }

  ghost predicate Sound(h: Hash, p0: Plane, p1: Plane, evidence: Evidence, run: RunId, trail: seq<Checkpoint>,
                        pinned: bool)
  {
    exists q, q2, cp :: WasSound(h, p0, p1, evidence, run, q, q2, cp, trail, pinned)
  }

  ghost predicate SoundFor(h: Hash, p0: Plane, p1: Plane, evidence: Evidence, run: RunId, trail: seq<Checkpoint>,
                           notChecked: seq<Unchecked>)
  {
    Sound(h, p0, p1, evidence, run, trail, Pinned(run, notChecked))
  }

  predicate Pinned(run: RunId, notChecked: seq<Unchecked>) {
    RunUnpinned(run) !in notChecked
  }

  ghost predicate AllSound(h: Hash, p0: Plane, p1: Plane, evidence: Evidence, sound: seq<RunId>, trail: seq<Checkpoint>,
                           notChecked: seq<Unchecked>)
  {
    forall i :: 0 <= i < |sound| ==> SoundFor(h, p0, p1, evidence, sound[i], trail, notChecked)
  }

  lemma {:induction false} SoundStays(h: Hash, p0: Plane, p1: Plane, p2: Plane, evidence: Evidence, run: RunId,
                                      trail: seq<Checkpoint>, before: seq<Unchecked>, trail2: seq<Checkpoint>,
                                      after: seq<Unchecked>)
    requires SoundFor(h, p0, p1, evidence, run, trail, before) && Grown(p1, p2) && trail <= trail2 && before <= after
    ensures SoundFor(h, p0, p2, evidence, run, trail2, after)
  {
    hide Grown, Vouched, HasSealingConclusion, InclusionAt, HeadFrom, Proves;
    var q, q2, cp :| WasSound(h, p0, p1, evidence, run, q, q2, cp, trail, Pinned(run, before));
    GrownIsTransitive(q2, p1, p2);
    assert WasSound(h, p0, p2, evidence, run, q, q2, cp, trail2, Pinned(run, after));
  }

  lemma {:induction false} AllSoundStay(h: Hash, p0: Plane, p1: Plane, p2: Plane, evidence: Evidence, sound: seq<RunId>,
                                        trail: seq<Checkpoint>, before: seq<Unchecked>, trail2: seq<Checkpoint>,
                                        after: seq<Unchecked>)
    requires AllSound(h, p0, p1, evidence, sound, trail, before) && Grown(p1, p2) && trail <= trail2 && before <= after
    ensures AllSound(h, p0, p2, evidence, sound, trail2, after)
  {
    hide SoundFor, Grown;
    forall i | 0 <= i < |sound| ensures SoundFor(h, p0, p2, evidence, sound[i], trail2, after) {
      SoundStays(h, p0, p1, p2, evidence, sound[i], trail, before, trail2, after);
    }
  }

  /** A run placed without a fault is sound for what it was held to. */
  lemma {:induction false} PlacedIsSound(h: Hash, p0: Plane, q: Plane, q2: Plane, p1: Plane, evidence: Evidence,
                                         run: RunId, placement: Placement, cp: Checkpoint, trail: seq<Checkpoint>,
                                         notChecked: seq<Unchecked>)
    requires Grown(p0, q) && Grown(q, q2) && Grown(q2, p1) && Vouched(h, evidence, RecordsOf(q, run)) && cp in trail
    requires PlacementFaults(run, placement) == [] && (placement.Unpinned? ==> RunUnpinned(run) in notChecked)
    requires Decided(h, RecordsOf(q, run), HeadFrom(RecordsOf(q, run), ZERO), placement,
                     InclusionAt(h, q2, run, |q2.log|), cp)
    ensures SoundFor(h, p0, p1, evidence, run, trail, notChecked)
  {
    hide Grown, Vouched, HasSealingConclusion, InclusionAt, HeadFrom, Proves;
    assert WasSound(h, p0, p1, evidence, run, q, q2, cp, trail, Pinned(run, notChecked));
  }

  /** What holds between two runs of an audit, whatever the store: everything
      listed sound is, and the checkpoints in hand so far were given out, each
      larger than the last.  And of a store honest at the start: they are all of
      its log, and nothing is found that is not so. */
  ghost predicate Auditing(store: Store, p0: Plane, evidence: Evidence, report: AuditReport)
    reads store, report
  {
    AuditingOf(store.c, p0, store.View(), evidence, report.trail, report.current, report.findings, report.notChecked,
               report.sound)
  }

  ghost predicate AuditingOf(c: Codec, p0: Plane, p: Plane, evidence: Evidence, trail: seq<Checkpoint>,
                             current: Checkpoint, findings: seq<Fault>, notChecked: seq<Unchecked>, sound: seq<RunId>)
  {
    Grown(p0, p) && Trail(c.hash, p0, p, trail, current) && AllSound(c.hash, p0, p, evidence, sound, trail, notChecked) &&
    (Honest(c, p0) ==>
       Fair(c, p, current) && |p0.log| <= current.size && AllStand(c.hash, p, 0, trail) &&
       AllExcused(c.hash, p0, p, evidence, findings))
  }

  // ── A store nobody writes to ───────────────────────────────────────────

  /** A history links from zero and, with keys, every signature on it verifies
      and none that was asked for is missing. */
  ghost predicate Passes(c: Codec, evidence: Evidence, records: seq<Record>) {
    ChainVerifies(c.hash, records, ZERO) &&
    (evidence.verifier.Some? ==>
       forall i :: 0 <= i < |records| ==>
         (records[i].signature.Some? ==> evidence.verifier.value(records[i].hash, records[i].signature.value)) &&
         (evidence.requireSignatures ==> records[i].signature.Some?))
  }

  /** Conclusion `i` names a head other than the one it was chained to. */
  predicate MisClaims(records: seq<Record>, i: nat) {
    i < |records| && records[i].body.kind.RunConcluded? && records[i].body.kind.chainHead != records[i].prev
  }

  /** What is wrong with a run, read off the store's own rows. */
  ghost predicate Faulty(c: Codec, p: Plane, evidence: Evidence, run: RunId, f: Fault) {
    var records := RecordsOf(p, run);
    records != [] &&
    match f
    case ChainFault(r) => r == run && !Passes(c, evidence, records)
    case SealClaim(r) => r == run && Passes(c, evidence, records) && exists i: nat :: MisClaims(records, i)
    case GroupUnsettled(r, group) =>
      r == run && Passes(c, evidence, records) && HasSealingConclusion(records) &&
      exists key: Key :: key.2 == group && Leftover(records, key) > 0
    case NotInLog(r) => r == run && Passes(c, evidence, records) && run !in p.log && HasSealingConclusion(records)
    case LeafMismatch(r) =>
      r == run && Passes(c, evidence, records) && run in p.log && SealOf(p, run) != records[|records| - 1].hash
    case _ => false
  }

  ghost predicate Clean(c: Codec, p: Plane, evidence: Evidence, run: RunId) {
    RecordsOf(p, run) != [] && forall f :: !Faulty(c, p, evidence, run, f)
  }

  /** A run that passes, is not sealed and need not be. */
  ghost predicate StillOpen(c: Codec, p: Plane, evidence: Evidence, run: RunId) {
    RecordsOf(p, run) != [] && Passes(c, evidence, RecordsOf(p, run)) && run !in p.log &&
    !HasSealingConclusion(RecordsOf(p, run))
  }

  ghost predicate AnchorFaulty(h: Hash, p: Plane, anchor: Anchor, f: Fault) {
    var prior := anchor.checkpoint;
    match f
    case WrongLog(from) => from == anchor.obtainedFrom && prior.origin != p.origin
    case Shrunk(from) => from == anchor.obtainedFrom && prior.origin == p.origin && prior.size > |p.log|
    case NotAppendOnly(from) =>
      from == anchor.obtainedFrom && prior.origin == p.origin && prior.size <= |p.log| &&
      !Consistent(h, prior.size, prior.root, |p.log|, Root(h, LogHashes(h, p, |p.log|)),
                  Merkle.ConsistencyProof(h, LogHashes(h, p, |p.log|), prior.size))
    case _ => false
  }

  lemma AnchorFaultsMean(h: Hash, p: Plane, anchor: Anchor, f: Fault)
    ensures f in AnchorFaultsOf(h, p, CheckpointOf(h, p), anchor) <==> AnchorFaulty(h, p, anchor, f)
  {
    hide Consistent, LogHashes, Merkle.ConsistencyProof, Root;
  }

  lemma PassesMeans(c: Codec, evidence: Evidence, records: seq<Record>)
    ensures Passes(c, evidence, records) <==> ChainVerifies(c.hash, records, ZERO) && SignaturesHold(evidence, records)
  {
    hide ChainVerifies;
    if evidence.verifier.Some? {
      forall i | 0 <= i < |records|
        ensures SignedBy(evidence.verifier.value, evidence.requireSignatures, records[i]) <==>
                (records[i].signature.Some? ==> evidence.verifier.value(records[i].hash, records[i].signature.value)) &&
                (evidence.requireSignatures ==> records[i].signature.Some?)
      {
      }
    }
  }

  lemma ClaimsMean(records: seq<Record>)
    ensures SealClaimHolds(records) <==> !exists i: nat :: MisClaims(records, i)
  {
    if !SealClaimHolds(records) {
      var i: nat :| i < |records| && records[i].body.kind.RunConcluded? &&
                    records[i].body.kind.chainHead != records[i].prev;
      assert MisClaims(records, i);
    }
  }

  /** A store's own path is always accepted under its own root. */
  lemma {:induction false} OwnPathFits(h: Hash, p: Plane, run: RunId)
    requires InclusionAt(h, p, run, |p.log|).Some?
    ensures var inc := InclusionAt(h, p, run, |p.log|).value; Proves(h, inc.seal, inc, CheckpointOf(h, p))
  {
    hide LogHashes, Root, Included, Merkle.InclusionProof, LeafHashOf, SealOf;
    var inc := InclusionAt(h, p, run, |p.log|).value;
    LeafAt(h, p, |p.log|, inc.index);
    InclusionIsComplete(h, LogHashes(h, p, |p.log|), inc.index);
  }

  lemma {:induction false} LeafAt(h: Hash, p: Plane, n: nat, i: nat)
    requires i < n <= |p.log|
    ensures |LogHashes(h, p, n)| == n && LogHashes(h, p, n)[i] == LeafHashOf(h, SealOf(p, p.log[i]))
  {
    hide LeafHashOf, SealOf;
    if i < n - 1 {
      LeafAt(h, p, n - 1, i);
    }
  }

  /** What a verified history is filed for is exactly what is wrong with it. */
  lemma {:induction false} FiledExactly(c: Codec, p: Plane, evidence: Evidence, run: RunId, records: seq<Record>,
                                        undecided: seq<Fault>, placement: Placement)
    requires records != [] && records == RecordsOf(p, run) && Passes(c, evidence, records)
    requires AreLeftStanding(run, records, undecided) && (!HasSealingConclusion(records) ==> undecided == [])
    requires HasSealingConclusion(records) ==>
               forall key :: Leftover(records, key) > 0 ==> GroupUnsettled(run, key.2) in undecided
    requires Decided(c.hash, records, HeadFrom(records, ZERO), placement, InclusionAt(c.hash, p, run, |p.log|),
                     CheckpointOf(c.hash, p)) && !placement.Unpinned?
    ensures forall f :: f in Faults(run, records, undecided, placement) <==> Faulty(c, p, evidence, run, f)
    ensures placement.Open? <==> StillOpen(c, p, evidence, run)
  {
    hide Passes, HasSealingConclusion, Leftover, InclusionAt, SealOf, Proves, CheckpointOf;
    AtSays(c.hash, p, run);
    ClaimsMean(records);
    if InclusionAt(c.hash, p, run, |p.log|).Some? {
      OwnPathFits(c.hash, p, run);
    }
    forall f ensures f in undecided <==> f.GroupUnsettled? && Faulty(c, p, evidence, run, f) {
      UndecidedExactly(c, p, evidence, run, records, undecided, f);
    }
  }

  lemma UndecidedExactly(c: Codec, p: Plane, evidence: Evidence, run: RunId, records: seq<Record>,
                         undecided: seq<Fault>, f: Fault)
    requires records != [] && records == RecordsOf(p, run) && Passes(c, evidence, records)
    requires AreLeftStanding(run, records, undecided) && (!HasSealingConclusion(records) ==> undecided == [])
    requires HasSealingConclusion(records) ==>
               forall key :: Leftover(records, key) > 0 ==> GroupUnsettled(run, key.2) in undecided
    ensures f in undecided <==> f.GroupUnsettled? && Faulty(c, p, evidence, run, f)
  {
    hide Passes, HasSealingConclusion, Leftover, SealOf;
    if f in undecided {
      var i :| 0 <= i < |undecided| && undecided[i] == f;
      assert IsLeftStanding(run, records, undecided[i]);
      var key :| LeftStanding(records, f.group, |records|, key);
      assert records[..|records|] == records;
    }
  }

  /** What examining one run adds to a report over a store nobody writes to. */
  ghost predicate RunAdds(c: Codec, p: Plane, evidence: Evidence, run: RunId, before: seq<Fault>, findings: seq<Fault>,
                          uncheckedBefore: seq<Unchecked>, notChecked: seq<Unchecked>, soundBefore: seq<RunId>,
                          sound: seq<RunId>)
  {
    (forall f :: f in findings <==> f in before || Faulty(c, p, evidence, run, f)) &&
    notChecked == uncheckedBefore + (if RecordsOf(p, run) == [] then [NoRecords(run)] else []) &&
    sound == soundBefore + (if Clean(c, p, evidence, run) then [run] else [])
  }

  function Faults(run: RunId, records: seq<Record>, undecided: seq<Fault>, placement: Placement): seq<Fault> {
    (if SealClaimHolds(records) then [] else [SealClaim(run)]) + undecided + PlacementFaults(run, placement)
  }

  function AfterPlacing(run: RunId, placement: Placement, notChecked: seq<Unchecked>): seq<Unchecked> {
    if placement.Unpinned? then notChecked + [RunUnpinned(run)] else notChecked
  }

  lemma DecidedSays(h: Hash, records: seq<Record>, head: Digest, placement: Placement, inc: Option<Inclusion>,
                    cp: Checkpoint)
    requires Decided(h, records, head, placement, inc, cp)
    ensures placement.Absent? ==> inc.None? && HasSealingConclusion(records)
    ensures placement.Mismatched? ==> inc.Some? && inc.value.seal != head
  {
    hide HasSealingConclusion, Proves;
  }

  /** Filing a run's faults, or listing it when it has none, keeps what an audit
      keeps, and leaves the run accounted for. */
  lemma {:induction false} RunIsFiled(c: Codec, p0: Plane, q1: Plane, q: Plane, p: Plane, evidence: Evidence,
                                      run: RunId, records: seq<Record>, placement: Placement, undecided: seq<Fault>,
                                      trail: seq<Checkpoint>, current: Checkpoint, findings: seq<Fault>,
                                      before: seq<Unchecked>, sound: seq<RunId>)
    requires AuditingOf(c, p0, p, evidence, trail, current, findings, before, sound)
    requires Grown(p0, q1) && Grown(q1, q) && Grown(q, p) && records != [] && records == RecordsOf(q1, run)
    requires ChainVerifies(c.hash, records, ZERO) && SignaturesHold(evidence, records)
    requires AreLeftStanding(run, records, undecided)
    requires HasSealingConclusion(records) && undecided == [] ==> forall key :: Leftover(records, key) == 0
    requires Decided(c.hash, records, HeadFrom(records, ZERO), placement, InclusionAt(c.hash, q, run, |q.log|), current)
    requires Honest(c, p0) ==> Honest(c, q1) && Honest(c, q) && !placement.BadPath?
    ensures var faults, after := Faults(run, records, undecided, placement), AfterPlacing(run, placement, before);
            var listed := if faults == [] then sound + [run] else sound;
            AuditingOf(c, p0, p, evidence, trail, current, findings + faults, after, listed) &&
            Accounted(run, listed, after, findings + faults)
  {
    hide Honest, Grown, Fair, AllExcused, AllSound, Trail, AllStand, SealClaimHolds, Vouched, ChainVerifies,
         SignaturesHold, HeadFrom, HasSealingConclusion, InclusionAt, Proves, AreLeftStanding, Decided;
    var faults, after := Faults(run, records, undecided, placement), AfterPlacing(run, placement, before);
    if Honest(c, p0) {
      HonestRunIsExcused(c, p0, q1, q, p, evidence, run, records, placement, current, undecided, findings);
      assert faults == undecided + PlacementFaults(run, placement);
    }
    GrownIsReflexive(p);
    AllSoundStay(c.hash, p0, p, p, evidence, sound, trail, before, trail, after);
    if faults != [] {
      FaultsBlame(run, records, undecided, placement, findings, faults);
    } else {
      TrailSays(c.hash, p0, p, trail, current);
      FaultlessIsVouched(c.hash, evidence, records, undecided);
      PlacedIsSound(c.hash, p0, q1, q, p, evidence, run, placement, current, trail, after);
      OneMoreSound(c.hash, p0, p, evidence, sound, trail, after, run);
    }
  }

  /** A verified history: its own claims, what it left standing, and its place
      in the log. */
  method PlaceRun(store: Store, report: AuditReport, run: RunId, records: seq<Record>, head: Digest, evidence: Evidence,
                  ghost p0: Plane)
    returns (failed: Option<StoreError>, open: bool)
    requires Auditing(store, p0, evidence, report)
    requires records != [] && records == RecordsOf(store.View(), run)
    requires ChainVerifies(store.c.hash, records, ZERO) && SignaturesHold(evidence, records)
    requires head == HeadFrom(records, ZERO)
    modifies report, store`runs, store`log, store`cases, store`schedule
    ensures Auditing(store, p0, evidence, report)
    ensures Grown(old(store.View()), store.View()) && store.leases == old(store.leases)
    ensures failed.None? ==> Accounted(run, report.sound, report.notChecked, report.findings)
    ensures old(report.findings) <= report.findings && old(report.notChecked) <= report.notChecked
    ensures old(report.sound) <= report.sound
    ensures NeverDown(old(store.schedule)) ==> NeverDown(store.schedule) && failed.None?
    ensures failed.None? ==>
              Named(report.findings, Misplacement(Turned(store.c, old(store.View()), old(store.schedule)), run, records))
    ensures old(Still(store, report)) ==>
              Still(store, report) && store.View() == old(store.View()) && failed.None? &&
              report.current == old(report.current) && report.trail == old(report.trail) &&
              RunAdds(store.c, store.View(), evidence, run, old(report.findings), report.findings, old(report.notChecked),
                      report.notChecked, old(report.sound), report.sound) &&
              (open <==> StillOpen(store.c, store.View(), evidence, run))
  {
    hide Honest, Grown, Fair, AllExcused, AllSound, Trail, Followed, AllStand, SealClaimHolds, ChainVerifies, Faults,
         SignaturesHold, HeadFrom, HasSealingConclusion, InclusionAt, AreLeftStanding, CheckpointOf, Decided, Turned,
         Accounted, NeverDown, SealOf, Misplacement, RunAdds, StillOpen;
    open := false;
    ghost var q1, cp, was := store.View(), report.current, report.trail;
    TrailSays(store.c.hash, p0, q1, was, cp);
    CheckpointSize(store.c.hash, q1);
    var undecided := PermanentlyUndecided(run, records);
    var placed, inc, q := report.Place(store, run, records, head);
    MovesOn(store.c, p0, q1, store.View(), evidence, was, cp, report.trail, report.current, report.findings,
            report.notChecked, report.sound);
    if placed.Err? {
      return Some(placed.error), false;
    }
    FairFacts(store.c, q1, cp);
    RunIsFiled(store.c, p0, q1, q, store.View(), evidence, run, records, placed.value, undecided, report.trail,
               report.current, report.findings, report.notChecked, report.sound);
    MisplacedIsFiled(q, run, records, undecided, placed.value, report.findings);
    if old(Still(store, report)) {
      QuietlyFiled(store.c, q1, evidence, run, records, undecided, placed.value, report.findings, report.notChecked,
                   report.sound);
    }
    report.Close(run, placed.value, Faults(run, records, undecided, placed.value));
    return None, placed.value.Open?;
  }

  /** Nobody writes to the store, and its live checkpoint is in hand. */
  ghost predicate Still(store: Store, report: AuditReport)
    reads store, report
  {
    store.schedule == [] && report.current == CheckpointOf(store.c.hash, store.View())
  }

  lemma NothingRead(c: Codec, p: Plane, evidence: Evidence, run: RunId, before: seq<Fault>, unchecked: seq<Unchecked>,
                    sound: seq<RunId>)
    requires RecordsOf(p, run) == []
    ensures RunAdds(c, p, evidence, run, before, before, unchecked, unchecked + [NoRecords(run)], sound, sound)
    ensures !StillOpen(c, p, evidence, run) && Accounted(run, sound, unchecked + [NoRecords(run)], before)
  {
    hide Passes, HasSealingConclusion;
    assert sound + [] == sound;
  }

  lemma ChainIsFiled(c: Codec, p: Plane, evidence: Evidence, run: RunId, before: seq<Fault>, unchecked: seq<Unchecked>,
                     sound: seq<RunId>)
    requires RecordsOf(p, run) != []
    requires !(ChainVerifies(c.hash, RecordsOf(p, run), ZERO) && SignaturesHold(evidence, RecordsOf(p, run)))
    ensures RunAdds(c, p, evidence, run, before, before + [ChainFault(run)], unchecked, unchecked, sound, sound)
    ensures !StillOpen(c, p, evidence, run) && Accounted(run, sound, unchecked, before + [ChainFault(run)])
  {
    hide Passes, HasSealingConclusion, ChainVerifies, SignaturesHold;
    PassesMeans(c, evidence, RecordsOf(p, run));
    assert Faulty(c, p, evidence, run, ChainFault(run));
    assert sound + [] == sound && unchecked + [] == unchecked;
    assert Blames(ChainFault(run), run);
  }

  lemma {:induction false} QuietlyFiled(c: Codec, p: Plane, evidence: Evidence, run: RunId, records: seq<Record>,
                                        undecided: seq<Fault>, placement: Placement, before: seq<Fault>,
                                        unchecked: seq<Unchecked>, sound: seq<RunId>)
    requires records != [] && records == RecordsOf(p, run)
    requires ChainVerifies(c.hash, records, ZERO) && SignaturesHold(evidence, records)
    requires AreLeftStanding(run, records, undecided) && (!HasSealingConclusion(records) ==> undecided == [])
    requires HasSealingConclusion(records) ==>
               forall key :: Leftover(records, key) > 0 ==> GroupUnsettled(run, key.2) in undecided
    requires Decided(c.hash, records, HeadFrom(records, ZERO), placement, InclusionAt(c.hash, p, run, |p.log|),
                     CheckpointOf(c.hash, p)) && !placement.Unpinned?
    ensures var faults := Faults(run, records, undecided, placement);
            RunAdds(c, p, evidence, run, before, before + faults, unchecked, AfterPlacing(run, placement, unchecked),
                    sound, if faults == [] then sound + [run] else sound) &&
            (placement.Open? <==> StillOpen(c, p, evidence, run))
  {
    hide ChainVerifies, SignaturesHold, Passes, AreLeftStanding, Decided, HasSealingConclusion, Leftover, Faulty, Faults,
         StillOpen;
    PassesMeans(c, evidence, records);
    FiledExactly(c, p, evidence, run, records, undecided, placement);
    var faults := Faults(run, records, undecided, placement);
    if faults != [] {
      assert faults[0] in faults;
    }
    assert unchecked + [] == unchecked && sound + [] == sound;
  }

  /** The fault is among the findings, if there is one. */
  predicate Named(findings: seq<Fault>, f: Option<Fault>) {
    f.Some? ==> f.value in findings
  }

  lemma MisplacedIsFiled(q: Plane, run: RunId, records: seq<Record>, undecided: seq<Fault>, placement: Placement,
                         findings: seq<Fault>)
    requires placement.Absent? <==> run !in q.log && HasSealingConclusion(records)
    requires placement.Mismatched? <==> run in q.log && SealOf(q, run) != HeadFrom(records, ZERO)
    ensures Named(findings + Faults(run, records, undecided, placement), Misplacement(q, run, records))
  {
    hide SealOf, HasSealingConclusion, HeadFrom, SealClaimHolds;
    var f := Misplacement(q, run, records);
    if f.Some? {
      assert PlacementFaults(run, placement) == [f.value];
      assert f.value in Faults(run, records, undecided, placement);
    }
  }

  lemma {:induction false} OneMoreSound(h: Hash, p0: Plane, p1: Plane, evidence: Evidence, sound: seq<RunId>,
                                        trail: seq<Checkpoint>, notChecked: seq<Unchecked>, run: RunId)
    requires AllSound(h, p0, p1, evidence, sound, trail, notChecked)
    requires SoundFor(h, p0, p1, evidence, run, trail, notChecked)
    ensures AllSound(h, p0, p1, evidence, sound + [run], trail, notChecked)
  {
    hide SoundFor;
  }

  lemma FaultlessIsVouched(h: Hash, evidence: Evidence, records: seq<Record>, undecided: seq<Fault>)
    requires records != [] && ChainVerifies(h, records, ZERO) && SignaturesHold(evidence, records) &&
        SealClaimHolds(records)
    requires HasSealingConclusion(records) && undecided == [] ==> forall key :: Leftover(records, key) == 0
    requires undecided == []
    ensures Vouched(h, evidence, records)
  {
  }

  lemma TrailSays(h: Hash, p0: Plane, p1: Plane, trail: seq<Checkpoint>, current: Checkpoint)
    requires Trail(h, p0, p1, trail, current)
    ensures trail != [] && trail[|trail| - 1] == current && current in trail
    ensures current.size <= |p1.log|
  {
    hide IssuedBy;
    IssuedIsNoLarger(h, p0, p1, current);
  }

  /** The checkpoints in hand and everything found so far, once the store has
      moved on from `q` to `p`. */
  lemma {:induction false} MovesOn(c: Codec, p0: Plane, q: Plane, p: Plane, evidence: Evidence, was: seq<Checkpoint>,
                                   before: Checkpoint, trail: seq<Checkpoint>, current: Checkpoint,
                                   findings: seq<Fault>, notChecked: seq<Unchecked>, sound: seq<RunId>)
    requires Grown(q, p) && AuditingOf(c, p0, q, evidence, was, before, findings, notChecked, sound)
    requires Followed(c.hash, q, p, was, trail) && trail != [] && trail[|trail| - 1] == current
    requires Fair(c, q, before) ==>
               Fair(c, p, current) && before.size <= current.size && AllStand(c.hash, p, |was|, trail)
    ensures AuditingOf(c, p0, p, evidence, trail, current, findings, notChecked, sound)
  {
    hide Honest, Grown, Fair, Stands, AllExcused, AllSound, IssuedBy, Trail, Followed;
    GrownIsTransitive(p0, q, p);
    TrailGoesOn(c.hash, p0, q, p, was, before, trail, current);
    FollowedExtends(c.hash, q, p, was, trail);
    AllSoundStay(c.hash, p0, q, p, evidence, sound, was, notChecked, trail, notChecked);
    if Honest(c, p0) {
      AllExcusedStay(c.hash, p0, q, p, evidence, findings);
      FairFacts(c, q, before);
      forall k | 0 <= k < |trail| ensures Stands(c.hash, p, trail[k]) {
        if k < |was| {
          StandsStays(c, q, p, was[k]);
        }
      }
    }
  }

  lemma FollowedExtends(h: Hash, p: Plane, q: Plane, before: seq<Checkpoint>, after: seq<Checkpoint>)
    requires Followed(h, p, q, before, after)
    ensures before <= after
  {
    hide IssuedBy;
  }

  /** Of an honest store any two checkpoints an audit had in hand are of one log:
      the larger is proved to extend the smaller. */
  lemma {:induction false} HonestTrailIsJoined(h: Hash, p: Plane, trail: seq<Checkpoint>, a: Checkpoint, b: Checkpoint)
    requires AllStand(h, p, 0, trail) && a in trail && b in trail && a.size <= b.size
    ensures b.size <= |p.log|
    ensures Consistent(h, a.size, a.root, b.size, b.root,
                       Merkle.ConsistencyProof(h, LogHashes(h, p, b.size), a.size))
  {
    hide Consistent, LogHashes, Merkle.ConsistencyProof, Stands;
    StandsSays(h, p, b);
    PinnedIsConsistent(h, p, a, b, Merkle.ConsistencyProof(h, LogHashes(h, p, b.size), a.size));
  }

  lemma {:induction false} HonestRunIsExcused(c: Codec, p0: Plane, q1: Plane, q: Plane, end: Plane, evidence: Evidence,
                                              run: RunId, records: seq<Record>, placement: Placement, cp: Checkpoint,
                                              undecided: seq<Fault>, before: seq<Fault>)
    requires Honest(c, q1) && Honest(c, q) && Grown(p0, q1) && Grown(q1, q) && Grown(q, end)
    requires records != [] && records == RecordsOf(q1, run) && !placement.BadPath?
    requires AllExcused(c.hash, p0, end, evidence, before) && AreLeftStanding(run, records, undecided)
    requires Decided(c.hash, records, HeadFrom(records, ZERO), placement, InclusionAt(c.hash, q, run, |q.log|), cp)
    ensures SealClaimHolds(records)
    ensures AllExcused(c.hash, p0, end, evidence, before + (undecided + PlacementFaults(run, placement)))
  {
    hide *;
    HonestHistory(c, q1, run);
    HonestClaims(c, run, records);
    GrownIsTransitive(q1, q, end);
    DecidedSays(c.hash, records, HeadFrom(records, ZERO), placement, InclusionAt(c.hash, q, run, |q.log|), cp);
    PlacementIsExcused(c, p0, q1, q, end, evidence, run, placement);
    UndecidedIsExcused(c.hash, p0, q1, end, evidence, run, records, undecided);
    BothExcused(c.hash, p0, end, evidence, undecided, PlacementFaults(run, placement));
    BothExcused(c.hash, p0, end, evidence, before, undecided + PlacementFaults(run, placement));
  }

  /** One run of the audit. */
  method ExamineRun(store: Store, report: AuditReport, run: RunId, evidence: Evidence, ghost p0: Plane)
    returns (failed: Option<StoreError>, open: bool)
    requires Auditing(store, p0, evidence, report)
    modifies report, store`runs, store`log, store`cases, store`schedule
    ensures Auditing(store, p0, evidence, report)
    ensures Grown(old(store.View()), store.View()) && store.leases == old(store.leases)
    ensures failed.None? ==> Accounted(run, report.sound, report.notChecked, report.findings)
    ensures old(report.findings) <= report.findings && old(report.notChecked) <= report.notChecked
    ensures old(report.sound) <= report.sound
    ensures NeverDown(old(store.schedule)) ==> NeverDown(store.schedule) && failed.None?
    ensures failed.None? ==>
              Named(report.findings, MisplacedBy(store.c, old(store.View()), old(store.schedule), evidence, run))
    ensures old(Still(store, report)) ==>
              Still(store, report) && store.View() == old(store.View()) && failed.None? &&
              report.current == old(report.current) && report.trail == old(report.trail) &&
              RunAdds(store.c, store.View(), evidence, run, old(report.findings), report.findings, old(report.notChecked),
                      report.notChecked, old(report.sound), report.sound) &&
              (open <==> StillOpen(store.c, store.View(), evidence, run))
  {
    hide Honest, Grown, Fair, AllExcused, AllSound, Trail, AllStand, ChainVerifies, SignaturesHold, HeadFrom,
         CheckpointOf, Followed, Turned, Misplacement, RunAdds, StillOpen, Accounted;
    open := false;
    ghost var start := store.View();
    TrailSays(store.c.hash, p0, start, report.trail, report.current);
    var read := store.Read(run, 1);
    ghost var q1 := store.View();
    FairThrough(store.c, start, q1, report.current);
    NothingFollows(store.c.hash, start, q1, report.trail);
    NoneAdded(store.c.hash, q1, report.trail);
    MovesOn(store.c, p0, start, q1, evidence, report.trail, report.current, report.trail, report.current,
            report.findings, report.notChecked, report.sound);
    if read.Err? {
      return Some(read.error), false;
    }
    var records := read.value;
    if records == [] {
      GrownIsReflexive(q1);
      AllSoundStay(store.c.hash, p0, q1, q1, evidence, report.sound, report.trail, report.notChecked, report.trail,
                   report.notChecked + [NoRecords(run)]);
      NothingRead(store.c, q1, evidence, run, report.findings, report.notChecked, report.sound);
      report.notChecked := report.notChecked + [NoRecords(run)];
      return None, false;
    }
    var head := VerifyHistory(store.c.hash, evidence, records);
    if head.None? {
      if Honest(store.c, p0) {
        FairFacts(store.c, q1, report.current);
        HonestHistory(store.c, q1, run);
        HonestClaims(store.c, run, records);
        UnsignedIsExcused(store.c.hash, p0, q1, evidence, records, report.findings, run);
      }
      ChainIsFiled(store.c, q1, evidence, run, report.findings, report.notChecked, report.sound);
      report.findings := report.findings + [ChainFault(run)];
      return None, false;
    }
    failed, open := PlaceRun(store, report, run, records, head.value, evidence, p0);
    GrownIsTransitive(start, q1, store.View());
  }

  lemma NoneAdded(h: Hash, p: Plane, trail: seq<Checkpoint>)
    ensures AllStand(h, p, |trail|, trail)
  {
  }

  lemma UnsignedIsExcused(h: Hash, p: Plane, q: Plane, evidence: Evidence, records: seq<Record>, faults: seq<Fault>,
                          run: RunId)
    requires AllExcused(h, p, q, evidence, faults) && !SignaturesHold(evidence, records)
    requires records == RecordsOf(q, run)
    ensures AllExcused(h, p, q, evidence, faults + [ChainFault(run)])
  {
    hide SignaturesHold, Moved, ForeignAnchor;
    assert records[..|records|] == records;
    assert Unsigned(evidence, records, |records|);
    assert Excused(h, p, q, evidence, ChainFault(run));
  }

  lemma UndecidedIsExcused(h: Hash, p: Plane, q1: Plane, r: Plane, evidence: Evidence, run: RunId, records: seq<Record>,
                           faults: seq<Fault>)
    requires Grown(q1, r) && records == RecordsOf(q1, run)
    requires AreLeftStanding(run, records, faults)
    ensures AllExcused(h, p, r, evidence, faults)
  {
    hide Grown, HasSealingConclusion, Leftover;
    RecordsExtend(q1, r, run);
    forall i | 0 <= i < |faults| ensures Excused(h, p, r, evidence, faults[i]) {
      assert IsLeftStanding(run, records, faults[i]);
      var key :| LeftStanding(records, faults[i].group, |records|, key);
      assert RecordsOf(r, run)[..|records|] == records[..|records|];
      assert LeftStanding(RecordsOf(r, run), faults[i].group, |records|, key);
    }
  }

  lemma {:induction false} BothExcused(h: Hash, p: Plane, q: Plane, evidence: Evidence, a: seq<Fault>, b: seq<Fault>)
    requires AllExcused(h, p, q, evidence, a) && AllExcused(h, p, q, evidence, b)
    ensures AllExcused(h, p, q, evidence, a + b)
  {
    hide Excused;
  }

  /** The runs that have no records, those nothing is wrong with, and how many are
      still open. */
  ghost function Unseen(p: Plane, runs: seq<RunId>): seq<Unchecked> {
    if runs == [] then []
    else Unseen(p, runs[..|runs| - 1]) +
         (if RecordsOf(p, runs[|runs| - 1]) == [] then [NoRecords(runs[|runs| - 1])] else [])
  }

  ghost function CleanOf(c: Codec, p: Plane, evidence: Evidence, runs: seq<RunId>): seq<RunId> {
    if runs == [] then []
    else CleanOf(c, p, evidence, runs[..|runs| - 1]) +
         (if Clean(c, p, evidence, runs[|runs| - 1]) then [runs[|runs| - 1]] else [])
  }

  ghost function OpenOf(c: Codec, p: Plane, evidence: Evidence, runs: seq<RunId>): nat {
    if runs == [] then 0
    else OpenOf(c, p, evidence, runs[..|runs| - 1]) + (if StillOpen(c, p, evidence, runs[|runs| - 1]) then 1 else 0)
  }

  ghost predicate SomeRunFaulty(c: Codec, p: Plane, evidence: Evidence, runs: seq<RunId>, f: Fault) {
    exists i :: 0 <= i < |runs| && Faulty(c, p, evidence, runs[i], f)
  }

  ghost predicate SomeAnchorFaulty(h: Hash, p: Plane, anchors: seq<Anchor>, f: Fault) {
    exists i :: 0 <= i < |anchors| && AnchorFaulty(h, p, anchors[i], f)
  }

  ghost predicate RunsAdd(c: Codec, p: Plane, evidence: Evidence, runs: seq<RunId>, before: seq<Fault>,
                          findings: seq<Fault>, uncheckedBefore: seq<Unchecked>, notChecked: seq<Unchecked>,
                          soundBefore: seq<RunId>, sound: seq<RunId>, openRuns: nat)
  {
    (forall f :: f in findings <==> f in before || SomeRunFaulty(c, p, evidence, runs, f)) &&
    notChecked == uncheckedBefore + Unseen(p, runs) && sound == soundBefore + CleanOf(c, p, evidence, runs) &&
    openRuns == OpenOf(c, p, evidence, runs)
  }

  lemma {:induction false} OneMoreRunAdds(c: Codec, p: Plane, evidence: Evidence, runs: seq<RunId>, i: nat,
                                          before: seq<Fault>, mid: seq<Fault>, findings: seq<Fault>, u0: seq<Unchecked>,
                                          u1: seq<Unchecked>, u2: seq<Unchecked>, s0: seq<RunId>, s1: seq<RunId>,
                                          s2: seq<RunId>, openRuns: nat, open: bool)
    requires i < |runs| && RunsAdd(c, p, evidence, runs[..i], before, mid, u0, u1, s0, s1, openRuns)
    requires RunAdds(c, p, evidence, runs[i], mid, findings, u1, u2, s1, s2)
    requires open <==> StillOpen(c, p, evidence, runs[i])
    ensures RunsAdd(c, p, evidence, runs[..i + 1], before, findings, u0, u2, s0, s2, openRuns + if open then 1 else 0)
  {
    hide Faulty, StillOpen, Clean;
    var front := runs[..i + 1];
    assert front[..|front| - 1] == runs[..i] && front[|front| - 1] == runs[i];
    forall f ensures SomeRunFaulty(c, p, evidence, front, f) <==>
                     SomeRunFaulty(c, p, evidence, runs[..i], f) || Faulty(c, p, evidence, runs[i], f)
    {
      assert forall j :: 0 <= j < i ==> front[j] == runs[..i][j];
    }
  }

  lemma NoRunAdds(c: Codec, p: Plane, evidence: Evidence, runs: seq<RunId>, findings: seq<Fault>, u: seq<Unchecked>,
                  sound: seq<RunId>)
    ensures RunsAdd(c, p, evidence, runs[..0], findings, findings, u, u, sound, sound, 0)
  {
    hide Faulty;
    assert u + [] == u && sound + [] == sound;
  }

  /** Every run asked about, in order. */
  method ExamineRuns(store: Store, report: AuditReport, runs: seq<RunId>, evidence: Evidence, ghost p0: Plane)
    returns (failed: Option<StoreError>, openRuns: nat)
    requires Auditing(store, p0, evidence, report)
    modifies report, store`runs, store`log, store`cases, store`schedule
    ensures Auditing(store, p0, evidence, report)
    ensures Grown(old(store.View()), store.View()) && store.leases == old(store.leases)
    ensures failed.None? ==> AllAccounted(runs, report.sound, report.notChecked, report.findings)
    ensures NeverDown(old(store.schedule)) ==> NeverDown(store.schedule) && failed.None?
    ensures failed.None? && runs != [] ==>
              Named(report.findings, MisplacedBy(store.c, old(store.View()), old(store.schedule), evidence, runs[0]))
    ensures old(Still(store, report)) ==>
              Still(store, report) && store.View() == old(store.View()) && failed.None? &&
              report.current == old(report.current) && report.trail == old(report.trail) &&
              RunsAdd(store.c, store.View(), evidence, runs, old(report.findings), report.findings,
                      old(report.notChecked), report.notChecked, old(report.sound), report.sound, openRuns)
  {
    hide Honest, Grown, AuditingOf, Accounted, MisplacedBy, NeverDown, RunsAdd, RunAdds, StillOpen, CheckpointOf;
    openRuns := 0;
    GrownIsReflexive(store.View());
    NoRunAdds(store.c, store.View(), evidence, runs, report.findings, report.notChecked, report.sound);
    for i := 0 to |runs|
      invariant store.leases == old(store.leases) && Grown(old(store.View()), store.View())
      invariant Auditing(store, p0, evidence, report)
      invariant AllAccounted(runs[..i], report.sound, report.notChecked, report.findings)
      invariant NeverDown(old(store.schedule)) ==> NeverDown(store.schedule)
      invariant if i == 0 then store.View() == old(store.View()) && store.schedule == old(store.schedule)
                else Named(report.findings,
                           MisplacedBy(store.c, old(store.View()), old(store.schedule), evidence, runs[0]))
      invariant old(Still(store, report)) ==>
                  Still(store, report) && store.View() == old(store.View()) && report.current == old(report.current) &&
                  report.trail == old(report.trail) &&
                  RunsAdd(store.c, store.View(), evidence, runs[..i], old(report.findings), report.findings,
                          old(report.notChecked), report.notChecked, old(report.sound), report.sound, openRuns)
    {
      ghost var sound, notChecked, findings, q := report.sound, report.notChecked, report.findings, store.View();
      var open;
      failed, open := ExamineRun(store, report, runs[i], evidence, p0);
      GrownIsTransitive(old(store.View()), q, store.View());
      if failed.Some? {
        return failed, openRuns;
      }
      if old(Still(store, report)) {
        OneMoreRunAdds(store.c, q, evidence, runs, i, old(report.findings), findings, report.findings,
                       old(report.notChecked), notChecked, report.notChecked, old(report.sound), sound, report.sound,
                       openRuns, open);
      }
      openRuns := openRuns + (if open then 1 else 0);
      OneMoreAccounted(runs, i, sound, notChecked, findings, report.sound, report.notChecked, report.findings);
    }
    assert runs[..|runs|] == runs;
    return None, openRuns;
  }

  /** One anchor of the auditor's. */
  method HoldToAnchor(store: Store, report: AuditReport, evidence: Evidence, i: nat, ghost p0: Plane)
    returns (failed: Option<StoreError>)
    requires i < |evidence.anchors|
    requires Auditing(store, p0, evidence, report)
    modifies report, store`runs, store`log, store`cases, store`schedule
    ensures Auditing(store, p0, evidence, report)
    ensures Grown(old(store.View()), store.View()) && store.leases == old(store.leases)
    ensures old(report.findings) <= report.findings && old(report.notChecked) <= report.notChecked
    ensures report.sound == old(report.sound)
    ensures failed.None? ==>
              AnchorHeld(store.c.hash, evidence.anchors[i], report.trail, report.notChecked, report.findings)
    ensures old(report.trail) <= report.trail
    ensures failed.None? && report.notChecked != old(report.notChecked) ==> old(|store.log|) < |store.log|
    ensures old(Still(store, report)) ==>
              Still(store, report) && store.View() == old(store.View()) && failed.None? &&
              report.current == old(report.current) && report.trail == old(report.trail) &&
              report.notChecked == old(report.notChecked) &&
              forall f :: f in report.findings <==>
                          f in old(report.findings) || AnchorFaulty(store.c.hash, store.View(), evidence.anchors[i], f)
  {
    hide Honest, Grown, Fair, AllExcused, AllSound, Trail, Followed, AllStand, CheckpointOf, Stands, Consistent,
         IsAnchorFault, AnchorFaulty, AnchorFaultsOf;
    CheckpointSize(store.c.hash, store.View());
    ghost var q, cp, before, notChecked := store.View(), report.current, report.findings, report.notChecked;
    ghost var was := report.trail;
    TrailSays(store.c.hash, p0, q, was, cp);
    var anchor := evidence.anchors[i];
    AnchorStays(store.c, p0, q, anchor.checkpoint);
    var checked, proof := report.CheckAppendOnly(store, anchor);
    FollowedExtends(store.c.hash, q, store.View(), was, report.trail);
    MovesOn(store.c, p0, q, store.View(), evidence, was, cp, report.trail, report.current, before, notChecked,
            report.sound);
    TrailSays(store.c.hash, p0, store.View(), report.trail, report.current);
    GrownIsReflexive(store.View());
    AllSoundStay(store.c.hash, p0, store.View(), store.View(), evidence, report.sound, report.trail, notChecked,
                 report.trail, report.notChecked);
    if Honest(store.c, p0) {
      AnchorIsExcused(store.c.hash, p0, store.View(), evidence, i, before, report.findings);
    }
    if checked.Ok? && report.findings == before && report.notChecked == notChecked {
      assert Extends(store.c.hash, anchor, report.current, proof);
    }
    failed := if checked.Err? then Some(checked.error) else None;
    forall f ensures f in AnchorFaultsOf(store.c.hash, q, CheckpointOf(store.c.hash, q), anchor) <==>
                     AnchorFaulty(store.c.hash, q, anchor, f)
    {
      AnchorFaultsMean(store.c.hash, q, anchor, f);
    }
  }

  lemma {:induction false} AnchorStays(c: Codec, p0: Plane, q: Plane, cp: Checkpoint)
    requires Grown(p0, q)
    ensures Honest(c, p0) && Stands(c.hash, p0, cp) ==> Stands(c.hash, q, cp) && cp.size <= |p0.log|
  {
    hide Honest, Grown, Stands;
    if Honest(c, p0) && Stands(c.hash, p0, cp) {
      StandsStays(c, p0, q, cp);
      StandsSays(c.hash, p0, cp);
    }
  }

  lemma {:induction false} AuditStarts(c: Codec, p0: Plane, p: Plane, evidence: Evidence)
    requires Grown(p0, p) && (Honest(c, p0) ==> Honest(c, p))
    ensures AuditingOf(c, p0, p, evidence, [CheckpointOf(c.hash, p)], CheckpointOf(c.hash, p), [], [], [])
  {
    hide Honest, Grown, Fair, Stands, Excused, SoundFor, IssuedBy, CheckpointOf;
    LiveIsIssued(c.hash, p0, p);
    if Honest(c, p0) {
      LiveIsFair(c, p);
      FairStands(c, p, CheckpointOf(c.hash, p));
      GrownLog(p0, p);
    }
  }

  lemma {:induction false} AnchorIsExcused(h: Hash, p: Plane, q: Plane, evidence: Evidence, i: nat, before: seq<Fault>,
                                           after: seq<Fault>)
    requires i < |evidence.anchors| && AllExcused(h, p, q, evidence, before)
    requires Stands(h, p, evidence.anchors[i].checkpoint) ==> after == before
    requires after == before || exists f :: IsAnchorFault(evidence.anchors[i], f) && after == before + [f]
    ensures AllExcused(h, p, q, evidence, after)
  {
    hide Stands, Moved, HasSealingConclusion, LeftStanding;
    forall k | 0 <= k < |after| ensures Excused(h, p, q, evidence, after[k]) {
      if k < |before| {
        assert after[k] == before[k];
      } else {
        assert ForeignAnchor(h, p, evidence, evidence.anchors[i].obtainedFrom);
      }
    }
  }

  lemma OneMoreAnchor(h: Hash, p: Plane, anchors: seq<Anchor>, i: nat)
    requires i < |anchors|
    ensures forall f :: SomeAnchorFaulty(h, p, anchors[..i + 1], f) <==>
                        SomeAnchorFaulty(h, p, anchors[..i], f) || AnchorFaulty(h, p, anchors[i], f)
  {
    hide AnchorFaulty;
    assert forall j :: 0 <= j < i ==> anchors[..i + 1][j] == anchors[..i][j];
    assert anchors[..i + 1][i] == anchors[i];
  }

  /** Every anchor brought, in order. */
  method HoldToAnchors(store: Store, report: AuditReport, evidence: Evidence, ghost p0: Plane)
    returns (failed: Option<StoreError>)
    requires Auditing(store, p0, evidence, report)
    modifies report, store`runs, store`log, store`cases, store`schedule
    ensures Auditing(store, p0, evidence, report)
    ensures Grown(old(store.View()), store.View()) && store.leases == old(store.leases)
    ensures old(report.findings) <= report.findings && old(report.notChecked) <= report.notChecked
    ensures report.sound == old(report.sound)
    ensures failed.None? ==>
              AllHeld(store.c.hash, evidence.anchors, report.trail, report.notChecked, report.findings)
    ensures evidence.anchors == [] ==> failed.None?
    ensures failed.None? && report.notChecked != old(report.notChecked) ==> old(|store.log|) < |store.log|
    ensures old(Still(store, report)) ==>
              Still(store, report) && store.View() == old(store.View()) && failed.None? &&
              report.current == old(report.current) && report.trail == old(report.trail) &&
              report.notChecked == old(report.notChecked) &&
              forall f :: f in report.findings <==>
                          f in old(report.findings) || SomeAnchorFaulty(store.c.hash, store.View(), evidence.anchors, f)
  {
    hide Honest, Grown, AuditingOf, AnchorHeld, AnchorFaulty, CheckpointOf;
    GrownIsReflexive(store.View());
    for i := 0 to |evidence.anchors|
      invariant store.leases == old(store.leases) && Grown(old(store.View()), store.View())
      invariant Auditing(store, p0, evidence, report)
      invariant old(report.findings) <= report.findings && old(report.notChecked) <= report.notChecked
      invariant report.sound == old(report.sound)
      invariant AllHeld(store.c.hash, evidence.anchors[..i], report.trail, report.notChecked, report.findings)
      invariant report.notChecked != old(report.notChecked) ==> old(|store.log|) < |store.log|
      invariant old(Still(store, report)) ==>
                  Still(store, report) && store.View() == old(store.View()) && report.current == old(report.current) &&
                  report.trail == old(report.trail) && report.notChecked == old(report.notChecked) &&
                  forall f :: f in report.findings <==>
                    f in old(report.findings) || SomeAnchorFaulty(store.c.hash, store.View(), evidence.anchors[..i], f)
    {
      ghost var was, before, unchecked, q := report.trail, report.findings, report.notChecked, store.View();
      failed := HoldToAnchor(store, report, evidence, i, p0);
      GrownLog(old(store.View()), q);
      GrownLog(q, store.View());
      GrownIsTransitive(old(store.View()), q, store.View());
      OneMoreAnchor(store.c.hash, q, evidence.anchors, i);
      if failed.Some? {
        return;
      }
      AllHeldStay(store.c.hash, evidence.anchors, i, was, unchecked, before, report.trail, report.notChecked,
                  report.findings);
    }
    assert evidence.anchors[..|evidence.anchors|] == evidence.anchors;
    return None;
  }

  // ── The whole audit ────────────────────────────────────────────────────

  /** The whole report over a store nobody writes to, read off the store's rows. */
  ghost predicate ReportsExactly(c: Codec, p: Plane, runs: seq<RunId>, evidence: Evidence, findings: seq<Fault>,
                                 notChecked: seq<Unchecked>, sound: seq<RunId>)
  {
    (forall f :: f in findings <==>
       SomeRunFaulty(c, p, evidence, runs, f) || SomeAnchorFaulty(c.hash, p, evidence.anchors, f)) &&
    sound == CleanOf(c, p, evidence, runs) &&
    notChecked == Unseen(p, runs) +
      (if OpenOf(c, p, evidence, runs) > 0 then [OpenRuns(OpenOf(c, p, evidence, runs))] else []) +
      (if |runs| < |p.log| then [Scope(|runs|, |p.log|)] else [])
  }

  /** Whatever is appended, concluded and sealed while it goes on: an audit of an
      honest store reports nothing that is not so: no chain, claim or path is
      found wrong, no anchor this log gave out is contradicted, and a run is
      misplaced only if it was written to meanwhile or had concluded unsealed
      when the audit began.  And over any store, every run listed sound was held
      to its chain, its claims and a path under a checkpoint of its own size,
      every anchor to one too, and all of those are of one rising trail.  The last
      clause fixes what is found of the first run by the store's turns. */
  method Audit(store: Store, runs: seq<RunId>, evidence: Evidence)
    returns (r: Result<AuditReport, StoreError>)
    modifies store`runs, store`log, store`cases, store`schedule
    ensures Grown(old(store.View()), store.View()) && store.leases == old(store.leases)
    ensures r.Ok? ==>
              fresh(r.value) &&
              Trail(store.c.hash, old(store.View()), store.View(), r.value.trail, r.value.current) &&
              AllSound(store.c.hash, old(store.View()), store.View(), evidence, r.value.sound, r.value.trail,
                       r.value.notChecked)
    ensures r.Ok? && old(Honest(store.c, store.View())) ==>
              AllExcused(store.c.hash, old(store.View()), store.View(), evidence, r.value.findings) &&
              AllStand(store.c.hash, store.View(), 0, r.value.trail)
    ensures r.Ok? && old(Honest(store.c, store.View())) ==>
              forall run | run in old(store.log) ::
                NotInLog(run) !in r.value.findings && LeafMismatch(run) !in r.value.findings
    ensures r.Ok? ==>
              AllAccounted(runs, r.value.sound, r.value.notChecked, r.value.findings) &&
              AllHeld(store.c.hash, evidence.anchors, r.value.trail, r.value.notChecked, r.value.findings)
    ensures NeverDown(old(store.schedule)) && evidence.anchors == [] ==> r.Ok?
    ensures r.Ok? && runs != [] ==>
              Named(r.value.findings, MisplacedBy(store.c, Turned(store.c, old(store.View()), old(store.schedule)),
                                                  After(old(store.schedule), 1), evidence, runs[0]))
    ensures old(store.schedule) == [] ==>
              r.Ok? && store.View() == old(store.View()) && r.value.current == CheckpointOf(store.c.hash, store.View()) &&
              r.value.trail == [r.value.current] &&
              ReportsExactly(store.c, store.View(), runs, evidence, r.value.findings, r.value.notChecked, r.value.sound)
  {
    hide Honest, Grown, Fair, AllExcused, AllSound, Trail, AllStand, CheckpointOf, MisplacedBy, Turned, AllAccounted,
         AllHeld, SomeRunFaulty, SomeAnchorFaulty, Unseen, CleanOf, OpenOf;
    CheckpointSize(store.c.hash, store.View());
    ghost var p0 := store.View();
    GrownIsReflexive(p0);
    var live := store.Checkpoint();
    if live.Err? {
      return Err(live.error);
    }
    var report := new AuditReport(live.value);
    AuditStarts(store.c, p0, store.View(), evidence);
    ghost var p1 := store.View();
    var failed, openRuns := ExamineRuns(store, report, runs, evidence, p0);
    if failed.Some? {
      return Err(failed.value);
    }
    ghost var notChecked := report.notChecked;
    report.Conclude(openRuns, |runs|);
    GrownIsReflexive(store.View());
    AllSoundStay(store.c.hash, p0, store.View(), store.View(), evidence, report.sound, report.trail, notChecked,
                 report.trail, report.notChecked);
    AllAccountedStay(runs, report.sound, notChecked, report.findings, report.sound, report.notChecked, report.findings);
    ghost var findings := report.findings;
    notChecked := report.notChecked;
    failed := HoldToAnchors(store, report, evidence, p0);
    if failed.Some? {
      return Err(failed.value);
    }
    AllAccountedStay(runs, report.sound, notChecked, findings, report.sound, report.notChecked, report.findings);
    if Honest(store.c, p0) {
      NoneSealedMisplaced(store.c, p0, store.View(), evidence, report.findings);
    }
    return Ok(report);
  }

  lemma {:induction false} NoneSealedMisplaced(c: Codec, p: Plane, q: Plane, evidence: Evidence, findings: seq<Fault>)
    requires Honest(c, p) && Grown(p, q) && AllExcused(c.hash, p, q, evidence, findings)
    ensures forall run | run in p.log :: NotInLog(run) !in findings && LeafMismatch(run) !in findings
  {
    hide Grown, Excused, HonestRun, Stamped, Concluded;
    forall run | run in p.log ensures NotInLog(run) !in findings && LeafMismatch(run) !in findings {
      forall i | 0 <= i < |findings| ensures findings[i] != NotInLog(run) && findings[i] != LeafMismatch(run) {
        SealedBeforeIsPlaced(c.hash, p, q, evidence, run, findings[i]);
      }
    }
  }

  lemma AtSays(h: Hash, q: Plane, run: RunId)
    ensures InclusionAt(h, q, run, |q.log|).Some? <==> run in q.log
    ensures InclusionAt(h, q, run, |q.log|).Some? ==>
              var inc := InclusionAt(h, q, run, |q.log|).value;
              inc.size == |q.log| && inc.index < inc.size && inc.seal == SealOf(q, run)
  {
    hide LogHashes, SealOf, IndexIn, Merkle.InclusionProof;
  }

  lemma StandsSays(h: Hash, p: Plane, cp: Checkpoint)
    requires Stands(h, p, cp)
    ensures cp.size <= |p.log| && cp.origin == p.origin
  {
    hide LogHashes, Root;
  }
}
