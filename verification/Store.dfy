/** A journal store other writers keep using: before it answers any call, the
    next turn of a schedule is taken, in which the environment may append,
    conclude, seal and touch cases, and may leave the store unreachable for
    that call.  A schedule is any list of turns, so what is proved of a caller
    is proved for every interleaving. */
module Stores {
  import opened Wrappers
  import opened Hashing
  import opened Merkle
  import opened Wire
  import opened Planes

  datatype StoreError =
    | Unreachable | Backend | Fenced(held: nat, current: nat) | RunSealed | BatchSpansRuns | Corrupt
    | RecordTooLarge | NotConcluded | SizeNotReached | UnknownRecordVersion

  datatype Turn = Turn(acts: seq<Action>, outage: bool)

  /** What the environment makes of a plane on its next turn. */
  function Turned(c: Codec, p: Plane, schedule: seq<Turn>): Plane {
    if schedule == [] then p else ApplyAll(c, p, schedule[0].acts)
  }

  /** The store answers the next call. */
  predicate Up(schedule: seq<Turn>) {
    schedule == [] || !schedule[0].outage
  }

  /** What is left of a schedule after `n` calls. */
  function After(schedule: seq<Turn>, n: nat): seq<Turn> {
    if n <= |schedule| then schedule[n..] else []
  }

  /** Call `n`, counting from none, finds the store out of reach. */
  predicate DownAt(schedule: seq<Turn>, n: nat) {
    n < |schedule| && schedule[n].outage
  }

  predicate NeverDown(schedule: seq<Turn>) {
    forall n :: 0 <= n < |schedule| ==> !schedule[n].outage
  }

  /** One more call. */
  lemma AfterOne(full: seq<Turn>, n: nat)
    ensures After(full, n + 1) == if After(full, n) == [] then [] else After(full, n)[1..]
    ensures Up(After(full, n)) <==> !DownAt(full, n)
    ensures DownAt(full, n) ==> !NeverDown(full)
  {
  }

  datatype Inclusion = Inclusion(index: nat, size: nat, seal: Digest, proof: seq<Digest>)

  datatype Head = Head(seq_: nat, hash: Digest)

  const CASE_PAGE: nat := 256

  function HeadOf(records: seq<Record>): Head {
    if records == [] then Head.Head(0, ZERO)
    else Head.Head(records[|records| - 1].body.seq_, records[|records| - 1].hash)
  }

  /** The ids of `keys` strictly after `after`, least first, at most `limit`:
      one page of a listing by id. */
  ghost predicate IsPage(keys: set<nat>, after: Option<nat>, limit: nat, page: seq<nat>) {
    (forall i :: 0 <= i < |page| ==> page[i] in keys && (after.Some? ==> after.value < page[i])) &&
    (forall i, j :: 0 <= i < j < |page| ==> page[i] < page[j]) &&
    |page| <= limit &&
    (forall id :: id in keys && (after.Some? ==> after.value < id) ==>
       id in page || (|page| == limit && limit > 0 && page[limit - 1] < id) || limit == 0)
  }

  method PageOf(keys: set<nat>, after: Option<nat>, limit: nat) returns (page: seq<nat>)
    ensures IsPage(keys, after, limit, page)
  {
    page := [];
    var rest := set id | id in keys && (after.Some? ==> after.value < id);
    while rest != {} && |page| < limit
      invariant forall id :: id in rest ==> id in keys && (after.Some? ==> after.value < id)
      invariant forall i :: 0 <= i < |page| ==> page[i] in keys && (after.Some? ==> after.value < page[i])
      invariant forall i, j :: 0 <= i < j < |page| ==> page[i] < page[j]
      invariant forall i, id :: 0 <= i < |page| && id in rest ==> page[i] < id
      invariant forall id :: id in keys && (after.Some? ==> after.value < id) ==> id in page || id in rest
      invariant |page| <= limit
      decreases |rest|
    {
      var least := LeastOf(rest);
      page := page + [least];
      rest := rest - {least};
    }
  }

  method LeastOf(ids: set<nat>) returns (least: nat)
    requires ids != {}
    ensures least in ids && forall id :: id in ids ==> least <= id
  {
    least :| least in ids;
    var rest := ids - {least};
    while rest != {}
      invariant least in ids && rest <= ids
      invariant forall id :: id in ids ==> id in rest || least <= id
      decreases |rest|
    {
      var id :| id in rest;
      if id < least {
        least := id;
      }
      rest := rest - {id};
    }
  }

  class Store {
    const c: Codec
    const origin: string
    const sealsPayloads: bool
    var runs: map<RunId, seq<Record>>
    var log: seq<RunId>
    var cases: map<CaseId, CaseRow>
    var leases: map<RunId, nat>
    var schedule: seq<Turn>

    /** A store holding nothing, with no lease, that nobody else writes to. */
    constructor Empty(codec: Codec, name: string, seals: bool)
      ensures c == codec && origin == name && sealsPayloads == seals
      ensures View() == Plane(name, map[], [], map[]) && leases == map[] && schedule == []
    {
      c, origin, sealsPayloads := codec, name, seals;
      runs, log, cases, leases, schedule := map[], [], map[], map[], [];
    }

    /** A store holding `p`, to be written to as `turns` says. */
    constructor Holding(codec: Codec, p: Plane, turns: seq<Turn>)
      ensures c == codec && View() == p && leases == map[] && schedule == turns && !sealsPayloads
    {
      c, origin, sealsPayloads := codec, p.origin, false;
      runs, log, cases, leases, schedule := p.runs, p.log, p.cases, map[], turns;
    }

    function View(): Plane
      reads this
    {
      Plane(origin, runs, log, cases)
    }

    /** What every read leaves: a store that has only grown, and no further
        than one turn of the schedule takes it. */
    twostate predicate Advanced()
      reads this
    {
      Grown(old(View()), View()) && (old(Honest(c, View())) ==> Honest(c, View())) && leases == old(leases) &&
      (if old(schedule) == [] then schedule == [] && View() == old(View()) else schedule == old(schedule[1..])) &&
      View() == Turned(c, old(View()), old(schedule))
    }

    /** The environment takes its turn. */
    method Interleave() returns (outage: bool)
      modifies this`runs, this`log, this`cases, this`schedule
      ensures Advanced()
      ensures outage <==> !Up(old(schedule))
    {
      hide Honest, Grown, Apply;
      GrownIsReflexive(View());
      outage := false;
      if schedule != [] {
        var turn := schedule[0];
        schedule := schedule[1..];
        outage := turn.outage;
        for i := 0 to |turn.acts|
          invariant old(Honest(c, View())) ==> Honest(c, View())
          invariant Grown(old(View()), View())
          invariant schedule == old(schedule[1..])
          invariant View() == ApplyAll(c, old(View()), turn.acts[..i])
        {
          assert turn.acts[..i + 1][..i] == turn.acts[..i];
          var next := Apply(c, View(), turn.acts[i]);
          ApplyGrows(c, View(), turn.acts[i]);
          if Honest(c, View()) {
            ApplyKeeps(c, View(), turn.acts[i]);
          }
          GrownIsTransitive(old(View()), View(), next);
          runs, log, cases := next.runs, next.log, next.cases;
        }
        assert turn.acts[..|turn.acts|] == turn.acts;
      }
    }

    method Checkpoint() returns (r: Result<Checkpoint, StoreError>)
      modifies this`runs, this`log, this`cases, this`schedule
      ensures Advanced()
      ensures r.Ok? ==> r.value == CheckpointOf(c.hash, View())
      ensures Up(old(schedule)) ==> r.Ok?
    {
      var outage := Interleave();
      r := if outage then Err(Unreachable) else Ok(CheckpointOf(c.hash, View()));
    }

    /** Where each run sits in the log, in the order asked, from one walk. */
    method LogPositions(wanted: seq<RunId>) returns (r: Result<seq<Option<(nat, Digest)>>, StoreError>)
      modifies this`runs, this`log, this`cases, this`schedule
      ensures Advanced()
      ensures r.Ok? ==> |r.value| == |wanted| && forall i :: 0 <= i < |wanted| ==>
          r.value[i] == PositionOf(View(), wanted[i])
      ensures Up(old(schedule)) ==> r.Ok?
    {
      hide Honest, Grown;
      var outage := Interleave();
      if outage {
        return Err(Unreachable);
      }
      var found: seq<Option<(nat, Digest)>> := [];
      for i := 0 to |wanted|
        invariant |found| == i && forall j :: 0 <= j < i ==> found[j] == PositionOf(View(), wanted[j])
      {
        found := found + [PositionOf(View(), wanted[i])];
      }
      return Ok(found);
    }

    /** A path for a sealed run against the live log, read in one snapshot. */
    method InclusionProof(run: RunId) returns (r: Result<Option<Inclusion>, StoreError>)
      modifies this`runs, this`log, this`cases, this`schedule
      ensures Advanced()
      ensures r.Ok? ==> r.value == InclusionAt(c.hash, View(), run, |View().log|)
      ensures Up(old(schedule)) ==> r.Ok?
    {
      var outage := Interleave();
      r := if outage then Err(Unreachable) else Ok(InclusionAt(c.hash, View(), run, |log|));
    }

    /** A path for a sealed run against the log as it stood at `size`. */
    method InclusionProofAt(run: RunId, size: nat) returns (r: Result<Option<Inclusion>, StoreError>)
      modifies this`runs, this`log, this`cases, this`schedule
      ensures Advanced()
      ensures r.Ok? ==> size <= |View().log| && r.value == InclusionAt(c.hash, View(), run, size)
      ensures Up(old(schedule)) && size <= |View().log| ==> r.Ok?
    {
      var outage := Interleave();
      r := if outage then Err(Unreachable)
           else if size > |log| then Err(SizeNotReached)
           else Ok(InclusionAt(c.hash, View(), run, size));
    }

    method ConsistencyProof(oldSize: nat) returns (r: Result<seq<Digest>, StoreError>)
      modifies this`runs, this`log, this`cases, this`schedule
      ensures Advanced()
      ensures r.Ok? ==> oldSize <= |View().log| &&
                        r.value == Merkle.ConsistencyProof(c.hash, LogHashes(c.hash, View(), |View().log|), oldSize)
      ensures r.Ok? <==> Up(old(schedule)) && oldSize <= |View().log|
    {
      var outage := Interleave();
      r := if outage then Err(Unreachable)
           else if oldSize > |log| then Err(SizeNotReached)
           else Ok(Merkle.ConsistencyProof(c.hash, LogHashes(c.hash, View(), |log|), oldSize));
    }

    /** A run's records from sequence `from` on; none for a run not held. */
    method Read(run: RunId, from: nat) returns (r: Result<seq<Record>, StoreError>)
      requires from > 0
      modifies this`runs, this`log, this`cases, this`schedule
      ensures Advanced()
      ensures r.Ok? ==> r.value == ReadFrom(RecordsOf(View(), run), from)
      ensures r.Ok? <==> Up(old(schedule))
    {
      var outage := Interleave();
      r := if outage then Err(Unreachable) else Ok(ReadFrom(RecordsOf(View(), run), from));
    }

    method CurrentHead(run: RunId) returns (r: Result<Head, StoreError>)
      modifies this`runs, this`log, this`cases, this`schedule
      ensures Advanced()
      ensures r.Ok? ==> r.value == HeadOf(RecordsOf(View(), run))
      ensures Up(old(schedule)) ==> r.Ok?
    {
      var outage := Interleave();
      r := if outage then Err(Unreachable) else Ok(HeadOf(RecordsOf(View(), run)));
    }

    /** Every run held, by id, one page strictly after `after`. */
    method RunsById(after: Option<RunId>, limit: nat) returns (r: Result<seq<RunId>, StoreError>)
      modifies this`runs, this`log, this`cases, this`schedule
      ensures Advanced()
      ensures r.Ok? ==> IsPage(View().runs.Keys, after, limit, r.value)
      ensures Up(old(schedule)) ==> r.Ok?
    {
      var outage := Interleave();
      if outage {
        return Err(Unreachable);
      }
      var keys: set<nat> := runs.Keys;
      var page := PageOf(keys, after, limit);
      return Ok(page);
    }

    /** The runs whose last conclusion was under `outcome`, at most `limit`.
        Which ones a short page leaves out is not promised. */
    method RunsByOutcome(outcome: Outcome, limit: nat) returns (r: Result<seq<RunId>, StoreError>)
      modifies this`runs, this`log, this`cases, this`schedule
      ensures Advanced()
      ensures r.Ok? ==>
                |r.value| <= limit && (forall i, j :: 0 <= i < j < |r.value| ==> r.value[i] != r.value[j]) &&
                (forall i :: 0 <= i < |r.value| ==> Under(View(), outcome, r.value[i])) &&
                (|r.value| < limit ==> forall run :: Under(View(), outcome, run) ==> run in r.value)
      ensures Up(old(schedule)) ==> r.Ok?
    {
      hide Honest, Grown, ConcludedOutcome;
      var outage := Interleave();
      if outage {
        return Err(Unreachable);
      }
      var keys: set<nat> := set run | run in runs && ConcludedOutcome(runs[run]) == Some(outcome);
      var page := PageOf(keys, None, limit);
      return Ok(page);
    }

    /** Every case held, by id, one page strictly after `after`. */
    method CasePage(after: Option<CaseId>, limit: nat) returns (r: Result<seq<CaseRow>, StoreError>)
      modifies this`runs, this`log, this`cases, this`schedule
      ensures Advanced()
      ensures r.Ok? ==> exists page :: IsPage(View().cases.Keys, after, limit, page) && RowsAt(View(), page, r.value)
      ensures Up(old(schedule)) ==> r.Ok?
    {
      var outage := Interleave();
      if outage {
        return Err(Unreachable);
      }
      var page := PageOf(cases.Keys, after, limit);
      var rows := RowsOf(cases, page);
      return Ok(rows);
    }

    /** Append one run's batch as written: whole, or not at all.  `mid` is the
        store the call found. */
    method Append(epoch: nat, batch: seq<Record>) returns (r: Result<seq<Record>, StoreError>, ghost mid: Plane)
      modifies this`runs, this`log, this`cases, this`schedule
      ensures Grown(old(View()), mid) && mid == Turned(c, old(View()), old(schedule)) && leases == old(leases)
      ensures if old(schedule) == [] then schedule == [] && mid == old(View()) else schedule == old(schedule[1..])
      ensures r.Err? ==> View() == mid
      ensures r.Ok? || old(schedule) == [] ==> r == AppendTo(c, mid, leases, epoch, batch)
      ensures r.Ok? ==> View() == WithRecords(mid, batch, r.value)
    {
      hide Grown, Honest, AppendAll;
      var outage := Interleave();
      mid := View();
      if outage && batch != [] {
        return Err(Unreachable), mid;
      }
      var written := AppendChecked(c, View(), leases, epoch, batch);
      if written.Ok? && batch != [] {
        var run := batch[0].body.run;
        runs := runs[run := RecordsOf(View(), run) + written.value];
      }
      return written, mid;
    }

    /** Freeze a run that ends in its conclusion and enter it in the log; a run
        already there stays where it is. */
    method Seal(run: RunId, epoch: nat) returns (r: Result<Digest, StoreError>, ghost mid: Plane)
      modifies this`runs, this`log, this`cases, this`schedule
      ensures Grown(old(View()), mid) && mid == Turned(c, old(View()), old(schedule)) && leases == old(leases)
      ensures if old(schedule) == [] then schedule == [] && mid == old(View()) else schedule == old(schedule[1..])
      ensures r.Err? ==> View() == mid
      ensures r.Ok? || old(schedule) == [] ==> r == SealIn(mid, leases, run, epoch)
      ensures r.Ok? ==> Concluded(RecordsOf(mid, run)) && (run in leases ==> leases[run] == epoch)
      ensures Up(old(schedule)) && Concluded(RecordsOf(mid, run)) && (run in leases ==> leases[run] == epoch) ==> r.Ok?
      ensures r.Ok? ==> run in log && mid.log <= log && |log| <= |mid.log| + 1 && (run in mid.log ==> log == mid.log)
      ensures r.Ok? ==> View() == WithSeal(mid, run)
    {
      hide Grown, Honest;
      var outage := Interleave();
      mid := View();
      if outage {
        return Err(Unreachable), mid;
      }
      var head := SealIn(View(), leases, run, epoch);
      if head.Ok? && run !in log {
        log := log + [run];
      }
      return head, mid;
    }

    method CaseOf(id: CaseId) returns (r: Result<Option<CaseRow>, StoreError>)
      modifies this`runs, this`log, this`cases, this`schedule
      ensures Advanced()
      ensures r.Ok? ==> r.value == (if id in View().cases then Some(View().cases[id]) else None)
      ensures Up(old(schedule)) ==> r.Ok?
    {
      var outage := Interleave();
      r := if outage then Err(Unreachable) else Ok(if id in cases then Some(cases[id]) else None);
    }
  }

  /** What appending a batch answers: the records written, or a refusal. */
  function AppendTo(c: Codec, p: Plane, leases: map<RunId, nat>, epoch: nat, batch: seq<Record>)
    : Result<seq<Record>, StoreError>
  {
    if batch == [] then Ok([])
    else
      var run := batch[0].body.run;
      if !OneRun(batch) then Err(BatchSpansRuns)
      else if run in leases && leases[run] != epoch then Err(Fenced(epoch, leases[run]))
      else if run in p.log then Err(RunSealed)
      else
        match AppendAll(c, run, RecordsOf(p, run), epoch, Raws(batch))
        case Err(e) => Err(e)
        case Ok(grown) => Ok(grown[|RecordsOf(p, run)|..])
  }

  function WithRecords(p: Plane, batch: seq<Record>, written: seq<Record>): Plane {
    if batch == [] then p
    else
      var run := batch[0].body.run;
      p.(runs := p.runs[run := RecordsOf(p, run) + written])
  }

  function SealIn(p: Plane, leases: map<RunId, nat>, run: RunId, epoch: nat): Result<Digest, StoreError> {
    if run in leases && leases[run] != epoch then Err(Fenced(epoch, leases[run]))
    else if !Concluded(RecordsOf(p, run)) then Err(NotConcluded)
    else Ok(HeadOf(RecordsOf(p, run)).hash)
  }

  function WithSeal(p: Plane, run: RunId): Plane {
    if run in p.log then p else p.(log := p.log + [run])
  }

  /** The fence, the seal and then each record in turn. */
  method AppendChecked(c: Codec, p: Plane, leases: map<RunId, nat>, epoch: nat, batch: seq<Record>)
    returns (r: Result<seq<Record>, StoreError>)
    ensures r == AppendTo(c, p, leases, epoch, batch)
  {
    hide AppendAll;
    if batch == [] {
      return Ok([]);
    }
    var run := batch[0].body.run;
    if !OneRun(batch) {
      return Err(BatchSpansRuns);
    }
    if run in leases && leases[run] != epoch {
      return Err(Fenced(epoch, leases[run]));
    }
    if run in p.log {
      return Err(RunSealed);
    }
    r := AppendEach(c, run, RecordsOf(p, run), epoch, batch);
  }

  predicate OneRun(batch: seq<Record>) {
    forall i :: 0 <= i < |batch| ==> batch[i].body.run == batch[0].body.run
  }

  /** The record the store writes for bytes it is handed: they must read as a
      record of this run at the position it assigns, under the batch's epoch. */
  function AppendOne(c: Codec, run: RunId, records: seq<Record>, epoch: nat, raw: Bytes): Result<Record, StoreError> {
    var head := HeadOf(records);
    match c.read(raw)
    case Readable(body) =>
      if body.seq_ != head.seq_ + 1 || body.epoch != epoch || body.run != run then Err(Corrupt)
      else if |raw| > MAX_RECORD_BYTES then Err(RecordTooLarge)
      else Ok(Record(body, head.hash, Chain(c.hash, head.hash, raw), None, raw))
    case UnknownVersion => Err(UnknownRecordVersion)
    case _ => Err(Corrupt)
  }

  /** The history after a batch, or why the batch is refused. */
  function AppendAll(c: Codec, run: RunId, records: seq<Record>, epoch: nat, raws: seq<Bytes>)
    : (r: Result<seq<Record>, StoreError>)
    ensures r.Ok? ==> records <= r.value && |r.value| == |records| + |raws|
  {
    if raws == [] then Ok(records)
    else
      match AppendAll(c, run, records, epoch, raws[..|raws| - 1])
      case Err(e) => Err(e)
      case Ok(grown) =>
        match AppendOne(c, run, grown, epoch, raws[|raws| - 1])
        case Err(e) => Err(e)
        case Ok(record) => Ok(grown + [record])
  }

  lemma AppendAllOfAppend(c: Codec, run: RunId, records: seq<Record>, epoch: nat, raws: seq<Bytes>, raw: Bytes)
    ensures AppendAll(c, run, records, epoch, raws + [raw]) ==
            match AppendAll(c, run, records, epoch, raws)
            case Err(e) => Err(e)
            case Ok(grown) =>
              match AppendOne(c, run, grown, epoch, raw) case Err(e) => Err(e) case Ok(record) => Ok(grown + [record])
  {
    hide AppendOne;
    assert (raws + [raw])[..|raws|] == raws;
  }

  /** A refused prefix refuses the batch. */
  lemma {:induction false} AppendAllRefuses(c: Codec, run: RunId, records: seq<Record>, epoch: nat, raws: seq<Bytes>,
                                            n: nat, why: StoreError)
    requires n <= |raws| && AppendAll(c, run, records, epoch, raws[..n]) == Err(why)
    ensures AppendAll(c, run, records, epoch, raws) == Err(why)
  {
    hide AppendOne;
    if n < |raws| {
      assert raws[..|raws| - 1][..n] == raws[..n];
      AppendAllRefuses(c, run, records, epoch, raws[..|raws| - 1], n, why);
    } else {
      assert raws[..n] == raws;
    }
  }

  method AppendEach(c: Codec, run: RunId, records: seq<Record>, epoch: nat, batch: seq<Record>)
    returns (r: Result<seq<Record>, StoreError>)
    ensures var all := AppendAll(c, run, records, epoch, Raws(batch));
            r == match all case Err(e) => Err(e) case Ok(grown) => Ok(grown[|records|..])
  {
    hide AppendOne, AppendAll, HeadOf, Raws;
    var grown := records;
    var written := [];
    assert Raws(batch)[..0] == [];
    NothingAppended(c, run, records, epoch);
    for i := 0 to |batch|
      invariant AppendAll(c, run, records, epoch, Raws(batch)[..i]) == Ok(grown) && grown == records + written
    {
      var one := AppendOne(c, run, grown, epoch, batch[i].raw);
      assert Raws(batch)[..i + 1] == Raws(batch)[..i] + [batch[i].raw];
      AppendAllOfAppend(c, run, records, epoch, Raws(batch)[..i], batch[i].raw);
      if one.Err? {
        AppendAllRefuses(c, run, records, epoch, Raws(batch), i + 1, one.error);
        return Err(one.error);
      }
      grown, written := grown + [one.value], written + [one.value];
    }
    assert Raws(batch)[..|batch|] == Raws(batch);
    return Ok(written);
  }

  lemma NothingAppended(c: Codec, run: RunId, records: seq<Record>, epoch: nat)
    ensures AppendAll(c, run, records, epoch, []) == Ok(records)
  {
  }

  /** A run whose last conclusion was under an outcome. */
  predicate Under(p: Plane, outcome: Outcome, run: RunId) {
    run in p.runs && ConcludedOutcome(p.runs[run]) == Some(outcome)
  }

  function ReadFrom(records: seq<Record>, from: nat): seq<Record>
    requires from > 0
  {
    if from > |records| then [] else records[from - 1..]
  }

  function IdsOf(rows: seq<CaseRow>): (ids: seq<CaseId>)
    ensures |ids| == |rows|
    ensures forall i :: 0 <= i < |rows| ==> ids[i] == rows[i].case_.id
  {
    if rows == [] then [] else IdsOf(rows[..|rows| - 1]) + [rows[|rows| - 1].case_.id]
  }

  method RowsOf(cases: map<CaseId, CaseRow>, page: seq<CaseId>) returns (rows: seq<CaseRow>)
    requires forall i :: 0 <= i < |page| ==> page[i] in cases
    ensures |rows| == |page| && forall i :: 0 <= i < |page| ==> rows[i] == cases[page[i]]
  {
    rows := [];
    for i := 0 to |page|
      invariant |rows| == i && forall j :: 0 <= j < i ==> rows[j] == cases[page[j]]
    {
      rows := rows + [cases[page[i]]];
    }
  }

  /** `rows` are the cases a page of ids names, in order. */
  ghost predicate RowsAt(p: Plane, page: seq<CaseId>, rows: seq<CaseRow>) {
    |rows| == |page| && forall i :: 0 <= i < |page| ==> page[i] in p.cases && rows[i] == p.cases[page[i]]
  }

  /** The path of `run` in the log's first `size` leaves, for a run sealed
      below that size. */
  function InclusionAt(h: Hash, p: Plane, run: RunId, size: nat): Option<Inclusion>
    requires size <= |p.log|
  {
    match IndexIn(p.log, run)
    case None => None
    case Some(index) =>
      if index >= size then None
      else Some(Inclusion.Inclusion(index, size, SealOf(p, run), Merkle.InclusionProof(h, LogHashes(h, p, size), index)))
  }
}
