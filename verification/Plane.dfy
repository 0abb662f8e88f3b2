/** What a plane's store holds, and how it may grow between two calls: the
    contract of JournalStore in src/journal/store.rs, as src/store/redb.rs
    keeps it. */
module Planes {
  import opened Wrappers
  import opened Hashing
  import opened Merkle
  import opened Wire

  datatype CaseRow = CaseRow(case_: Case, deadlines: Json, blobs: seq<Digest>, hold: Option<Json>, erasure: Option<Json>)

  /** Runs by id, sealed runs in seal order, and the case layer. */
  datatype Plane = Plane(origin: string, runs: map<RunId, seq<Record>>, log: seq<RunId>, cases: map<CaseId, CaseRow>)

  // ── An honest history ──────────────────────────────────────────────────

  /** Record `i` of a run is linked, reads back as written, is canonical and
      names its place; a conclusion names the head it is drawn over. */
  ghost predicate HonestRecord(c: Codec, run: RunId, records: seq<Record>, i: nat)
    requires i < |records|
  {
    var r := records[i];
    r.prev == Head(c.hash, Raws(records[..i])) && r.hash == Chain(c.hash, r.prev, r.raw) &&
    c.read(r.raw) == Readable(r.body) && c.json(r.raw).Some? && !Uncanonical(c, r.raw) &&
    r.body.seq_ == i + 1 && r.body.run == run && |r.raw| <= MAX_RECORD_BYTES &&
    (r.body.kind.RunConcluded? ==> r.body.kind.chainHead == r.prev)
  }

  ghost predicate HonestRun(c: Codec, run: RunId, records: seq<Record>) {
    records != [] && forall i :: 0 <= i < |records| ==> HonestRecord(c, run, records, i)
  }

  predicate Concluded(records: seq<Record>) {
    records != [] && records[|records| - 1].body.kind.RunConcluded?
  }

  ghost predicate Stamped(p: Plane, records: seq<Record>) {
    forall i :: 0 <= i < |records| && records[i].body.case_.Some? ==> records[i].body.case_.value in p.cases
  }

  /** Every history honest, every sealed run concluded and sealed once, every
      matter a record names held by the case layer. */
  ghost predicate Honest(c: Codec, p: Plane) {
    (forall run :: run in p.runs ==> HonestRun(c, run, p.runs[run]) && Stamped(p, p.runs[run])) &&
    (forall i :: 0 <= i < |p.log| ==> p.log[i] in p.runs && Concluded(p.runs[p.log[i]])) &&
    (forall i, j :: 0 <= i < j < |p.log| ==> p.log[i] != p.log[j]) &&
    (forall id :: id in p.cases ==> p.cases[id].case_.id == id)
  }

  lemma HonestPrefix(c: Codec, run: RunId, records: seq<Record>, n: nat)
    requires HonestRun(c, run, records) && 0 < n <= |records|
    ensures HonestRun(c, run, records[..n])
  {
    forall i | 0 <= i < n ensures HonestRecord(c, run, records[..n], i) {
      assert HonestRecord(c, run, records, i);
      assert records[..n][..i] == records[..i];
    }
  }

  /** What honesty says of the last record. */
  lemma HonestLast(c: Codec, run: RunId, records: seq<Record>)
    requires HonestRun(c, run, records)
    ensures var n := |records| - 1;
            n >= 0 && records[n].prev == Head(c.hash, Raws(records[..n])) &&
            records[n].hash == Chain(c.hash, records[n].prev, records[n].raw) && records[n].body.seq_ == |records|
  {
    hide Head, Chain, Uncanonical, Raws;
    assert HonestRecord(c, run, records, |records| - 1);
  }

  /** A run's terminal hash is the chain over all its bytes. */
  lemma {:induction false} TerminalHash(c: Codec, run: RunId, records: seq<Record>)
    requires HonestRun(c, run, records)
    ensures |records| > 0 && records[|records| - 1].hash == Head(c.hash, Raws(records))
  {
    hide *;
    HonestLast(c, run, records);
    LastLink(c.hash, records);
  }

  lemma LastLink(h: Hash, records: seq<Record>)
    requires records != []
    ensures var n := |records| - 1;
            Head(h, Raws(records)) == Chain(h, Head(h, Raws(records[..n])), records[n].raw)
  {
    hide Head, Chain;
    HeadOfAppend(h, Raws(records[..|records| - 1]), records[|records| - 1].raw);
  }

  // ── The log ────────────────────────────────────────────────────────────

  function SealOf(p: Plane, run: RunId): Digest {
    if run in p.runs && p.runs[run] != [] then p.runs[run][|p.runs[run]| - 1].hash else ZERO
  }

  /** The hashed leaves of the first `n` sealed runs. */
  function LogHashes(h: Hash, p: Plane, n: nat): (hashes: seq<LeafHash>)
    requires n <= |p.log|
    ensures |hashes| == n
    ensures forall i :: 0 <= i < n ==> hashes[i] == LeafHashOf(h, SealOf(p, p.log[i]))
  {
    if n == 0 then [] else LogHashes(h, p, n - 1) + [LeafHashOf(h, SealOf(p, p.log[n - 1]))]
  }

  function CheckpointAt(h: Hash, p: Plane, n: nat): Checkpoint
    requires n <= |p.log|
  {
    Checkpoint(p.origin, n, Root(h, LogHashes(h, p, n)))
  }

  function CheckpointOf(h: Hash, p: Plane): Checkpoint {
    CheckpointAt(h, p, |p.log|)
  }

  /** Where a run sits among the first `n` sealed runs. */
  function IndexIn(log: seq<RunId>, run: RunId): (index: Option<nat>)
    ensures index.Some? <==> run in log
    ensures index.Some? ==> index.value < |log| && log[index.value] == run
  {
    if log == [] then None
    else
      var rest := IndexIn(log[..|log| - 1], run);
      if rest.Some? then rest
      else if log[|log| - 1] == run then Some(|log| - 1) else None
  }

  function PositionOf(p: Plane, run: RunId): Option<(nat, Digest)> {
    match IndexIn(p.log, run)
    case Some(index) => Some((index, SealOf(p, run)))
    case None => None
  }

  // ── Growth ─────────────────────────────────────────────────────────────

  /** `q` is `p` some appends, conclusions and seals later: histories are
      extended, sealed ones are frozen, and the log is extended at its end. */
  ghost predicate Grown(p: Plane, q: Plane) {
    q.origin == p.origin && p.log <= q.log &&
    (forall run :: run in p.runs ==> run in q.runs && p.runs[run] <= q.runs[run]) &&
    (forall run :: run in p.runs && run in p.log ==> q.runs[run] == p.runs[run]) &&
    (forall id :: id in p.cases ==> id in q.cases)
  }

  lemma GrownIsTransitive(p: Plane, q: Plane, r: Plane)
    requires Grown(p, q) && Grown(q, r)
    ensures Grown(p, r)
  {
    forall run | run in p.runs ensures run in r.runs && p.runs[run] <= r.runs[run] {
      assert p.runs[run] <= q.runs[run] <= r.runs[run];
    }
    forall run | run in p.runs && run in p.log ensures r.runs[run] == p.runs[run] {
      var i :| 0 <= i < |p.log| && p.log[i] == run;
      assert q.log[i] == run;
    }
  }

  /** A seal never moves: what is below a checkpoint stays below it. */
  lemma SealsStay(c: Codec, p: Plane, q: Plane)
    requires Honest(c, p) && Grown(p, q)
    ensures forall i :: 0 <= i < |p.log| ==> q.log[i] == p.log[i] && SealOf(q, p.log[i]) == SealOf(p, p.log[i])
  {
    forall i | 0 <= i < |p.log| ensures q.log[i] == p.log[i] && SealOf(q, p.log[i]) == SealOf(p, p.log[i]) {
      assert p.log[i] in p.runs && p.log[i] in p.log;
    }
  }

  lemma {:induction false} LogHashesStay(c: Codec, p: Plane, q: Plane, n: nat)
    requires Honest(c, p) && Grown(p, q) && n <= |p.log|
    ensures LogHashes(c.hash, q, n) == LogHashes(c.hash, p, n)
  {
    hide Honest, Grown, LeafHashOf;
    if n > 0 {
      LogHashesStay(c, p, q, n - 1);
      GrownLog(p, q);
      SealsStay(c, p, q);
    }
  }

  lemma {:induction false} GrownLog(p: Plane, q: Plane)
    requires Grown(p, q)
    ensures |p.log| <= |q.log| && q.log[..|p.log|] == p.log && q.origin == p.origin
  {
  }

  lemma {:induction false} LogHashesPrefix(h: Hash, p: Plane, n: nat, m: nat)
    requires n <= m <= |p.log|
    ensures LogHashes(h, p, m)[..n] == LogHashes(h, p, n)
  {
    if n < m {
      LogHashesPrefix(h, p, n, m - 1);
      assert LogHashes(h, p, m)[..n] == LogHashes(h, p, m - 1)[..n];
    }
  }

  /** An index in a log of distinct runs is found wherever the log has grown to. */
  lemma IndexIsUnique(log: seq<RunId>, i: nat)
    requires i < |log| && forall a, b :: 0 <= a < b < |log| ==> log[a] != log[b]
    ensures IndexIn(log, log[i]) == Some(i)
  {
    var found := IndexIn(log, log[i]).value;
    assert log[found] == log[i];
  }

  // ── What the environment may do ────────────────────────────────────────

  /** One thing another writer does between two of our calls.  An action the
      store would refuse changes nothing. */
  datatype Action =
    | AppendAct(run: RunId, raw: Bytes, signature: Option<Signature>)
    | SealAct(run: RunId)
    | CaseAct(row: CaseRow)

  function RecordsOf(p: Plane, run: RunId): seq<Record> {
    if run in p.runs then p.runs[run] else []
  }

  /** The runtime writes `raw` next: the bytes read back, are canonical, name
      the position the store assigns, and a conclusion names the head. */
  predicate MayAppend(c: Codec, p: Plane, run: RunId, raw: Bytes) {
    var records := RecordsOf(p, run);
    run !in p.log && c.read(raw).Readable? && c.json(raw).Some? && !Uncanonical(c, raw) &&
    var body := c.read(raw).body;
    body.seq_ == |records| + 1 && body.run == run && |raw| <= MAX_RECORD_BYTES &&
    (body.kind.RunConcluded? ==> body.kind.chainHead == Head(c.hash, Raws(records))) &&
    (body.case_.Some? ==> body.case_.value in p.cases)
  }

  function Appended(c: Codec, records: seq<Record>, raw: Bytes, body: Body, signature: Option<Signature>): seq<Record> {
    var prev := Head(c.hash, Raws(records));
    records + [Record(body, prev, Chain(c.hash, prev, raw), signature, raw)]
  }

  function Apply(c: Codec, p: Plane, act: Action): Plane {
    match act
    case AppendAct(run, raw, signature) =>
      if MayAppend(c, p, run, raw)
      then p.(runs := p.runs[run := Appended(c, RecordsOf(p, run), raw, c.read(raw).body, signature)])
      else p
    case SealAct(run) =>
      if run in p.runs && run !in p.log && Concluded(p.runs[run]) then p.(log := p.log + [run]) else p
    case CaseAct(row) => p.(cases := p.cases[row.case_.id := row])
  }

  function ApplyAll(c: Codec, p: Plane, acts: seq<Action>): Plane {
    if acts == [] then p else Apply(c, ApplyAll(c, p, acts[..|acts| - 1]), acts[|acts| - 1])
  }

  lemma {:induction false} AppendKeepsHonest(c: Codec, p: Plane, run: RunId, raw: Bytes, signature: Option<Signature>)
    requires Honest(c, p) && MayAppend(c, p, run, raw)
    ensures HonestRun(c, run, Appended(c, RecordsOf(p, run), raw, c.read(raw).body, signature))
    ensures Stamped(p, Appended(c, RecordsOf(p, run), raw, c.read(raw).body, signature))
  {
    hide Head, Chain, Uncanonical;
    var records := RecordsOf(p, run);
    var grown := Appended(c, records, raw, c.read(raw).body, signature);
    forall i | 0 <= i < |grown| ensures HonestRecord(c, run, grown, i) {
      if i < |records| {
        assert HonestRecord(c, run, records, i);
        assert grown[..i] == records[..i];
      } else {
        assert grown[..i] == records;
      }
    }
  }

  lemma {:induction false} ApplyKeeps(c: Codec, p: Plane, act: Action)
    requires Honest(c, p)
    ensures Honest(c, Apply(c, p, act))
  {
    hide HonestRun, Appended;
    var q := Apply(c, p, act);
    match act {
      case AppendAct(run, raw, signature) =>
        if MayAppend(c, p, run, raw) {
          AppendKeepsHonest(c, p, run, raw, signature);
          assert forall i :: 0 <= i < |p.log| ==> p.log[i] in p.log;
        }
      case SealAct(run) =>
        if run in p.runs && run !in p.log && Concluded(p.runs[run]) {
          assert forall i :: 0 <= i < |p.log| ==> q.log[i] == p.log[i] && p.log[i] in p.log;
        }
      case CaseAct(row) =>
    }
  }

  /** Whatever a store holds, one action only grows it. */
  lemma {:induction false} ApplyGrows(c: Codec, p: Plane, act: Action)
    ensures Grown(p, Apply(c, p, act))
  {
    hide Appended;
    match act {
      case AppendAct(run, raw, signature) =>
        if MayAppend(c, p, run, raw) {
          AppendedExtends(c, RecordsOf(p, run), raw, c.read(raw).body, signature);
        }
      case _ =>
    }
  }

  lemma AppendedExtends(c: Codec, records: seq<Record>, raw: Bytes, body: Body, signature: Option<Signature>)
    ensures records <= Appended(c, records, raw, body, signature)
  {
  }

  lemma GrownIsReflexive(p: Plane)
    ensures Grown(p, p)
  {
  }
}
