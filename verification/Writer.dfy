/** `write_file` and `package_to_jsonl`: the writer, against a store that keeps
    growing between its calls. */
module Writers {
  import opened Wrappers
  import opened Hashing
  import opened Merkle
  import opened Wire
  import opened Planes
  import opened Stores
  import opened WriterSpec
  import opened Taking

  /** A file's lines, and what the writer says of them besides. */
  datatype Written = Written(checkpoint: Checkpoint, lines: seq<Line>, cases: seq<CaseId>, trailer: TrailerFields,
                             unplaced: seq<RunId>)

  /** Every record line of a run, or none when some record's bytes are not
      JSON: nothing is written of a run that cannot be written whole. */
  method DeriveLines(c: Codec, found: seq<Record>) returns (fields: Option<seq<RecordFields>>)
    ensures fields.Some? <==> forall i :: 0 <= i < |found| ==> c.json(found[i].raw).Some?
    ensures fields.Some? ==> fields.value == RecordsFor(c, found)
  {
    var derived := [];
    for i := 0 to |found|
      invariant |derived| == i && forall j :: 0 <= j < i ==> derived[j] == RecordFor(c, found[j])
      invariant forall j :: 0 <= j < i ==> c.json(found[j].raw).Some?
    {
      if c.json(found[i].raw).None? {
        return None;
      }
      derived := derived + [RecordFor(c, found[i])];
    }
    return Some(derived);
  }

  /** Bytes a line can be derived from. */
  predicate AllJson(c: Codec, records: seq<Record>) {
    forall i :: 0 <= i < |records| ==> c.json(records[i].raw).Some?
  }

  /** Read one run.  A run that fails to read, that the store holds nothing
      for, or that cannot be written whole comes back with no records. */
  method ReadForExport(store: Store, run: RunId) returns (found: seq<Record>, fields: seq<RecordFields>)
    modifies store`runs, store`log, store`cases, store`schedule
    ensures store.Advanced()
    ensures found == if Up(old(store.schedule)) && AllJson(store.c, RecordsOf(store.View(), run))
                     then RecordsOf(store.View(), run) else []
    ensures fields == RecordsFor(store.c, found)
  {
    hide Honest, Grown, Turned;
    var read := store.Read(run, 1);
    if read.Ok? && read.value != [] {
      var derived := DeriveLines(store.c, read.value);
      if derived.Some? {
        return read.value, derived.value;
      }
    }
    return [], [];
  }

  /** A path against the header's size, which only a package carries. */
  method PathOf(store: Store, run: RunId, size: nat, wanted: bool) returns (r: Result<Option<seq<Digest>>, StoreError>)
    modifies store`runs, store`log, store`cases, store`schedule
    ensures Grown(old(store.View()), store.View()) && store.leases == old(store.leases)
    ensures old(Honest(store.c, store.View())) ==> Honest(store.c, store.View())
    ensures r.Ok? && !wanted ==> r.value == None
    ensures r.Ok? && wanted ==>
              size <= |store.View().log| &&
              var at := InclusionAt(store.c.hash, store.View(), run, size);
              r.value == (if at.Some? then Some(at.value.proof) else None)
    ensures store.schedule == if wanted then After(old(store.schedule), 1) else old(store.schedule)
    ensures r.Err? ==> wanted && (!Up(old(store.schedule)) || size > |store.View().log|)
    ensures old(store.schedule) == [] ==> store.schedule == [] && store.View() == old(store.View())
  {
    hide Honest, Grown, InclusionAt, Turned;
    GrownIsReflexive(store.View());
    if !wanted {
      return Ok(None);
    }
    var answer := store.InclusionProofAt(run, size);
    match answer {
      case Err(e) => return Err(e);
      case Ok(at) => return Ok(if at.Some? then Some(at.value.proof) else None);
    }
  }

  /** A run is taken with all it held when the checkpoint was read, and with
      nothing at all if the store was out of reach at call `at`, when it was
      read. */
  ghost predicate MissedFor(p0: Plane, t: Taken, full: seq<Turn>, at: nat) {
    if DownAt(full, at) then t.records == [] else RecordsOf(p0, t.run) <= t.records
  }

  /** One run block: its place, its path in a package, and its records.  `n` of
      the calls `full` answers have been made, and `m` once it is done. */
  method TakeRun(store: Store, ghost p0: Plane, size: nat, package: bool, run: RunId, live: Option<(nat, Digest)>,
                 ghost full: seq<Turn>, ghost n: nat)
    returns (r: Result<Taken, StoreError>, lines: seq<Line>, ghost m: nat)
    requires store.schedule == After(full, n)
    requires Honest(store.c, p0) && Honest(store.c, store.View()) && Grown(p0, store.View()) && size == |p0.log|
    requires Below(live, size) == PositionOf(p0, run)
    modifies store`runs, store`log, store`cases, store`schedule
    ensures Grown(old(store.View()), store.View()) && Honest(store.c, store.View()) && store.leases == old(store.leases)
    ensures r.Ok? ==>
              r.value.run == run && TakenFrom(store.c, p0, store.View(), package, r.value) &&
              StampsOf(r.value.records) <= store.View().cases.Keys && lines == BlockLines(store.c, r.value)
    ensures n < m && store.schedule == After(full, m)
    ensures r.Ok? ==> MissedFor(p0, r.value, full, m - 1)
    ensures old(store.schedule) == [] ==> store.schedule == [] && store.View() == old(store.View())
    ensures r.Err? ==> !NeverDown(full)
  {
    hide Honest, Grown, InclusionAt, PathFor, TakenFrom, PositionOf, RecordsFor, AsLines, BlockHeader, StampsOf, Turned,
         After, DownAt, NeverDown, Up;
    lines, m := [], n + 1;
    AfterOne(full, n);
    AfterOne(full, n + 1);
    OneCall(store.schedule);
    var placed := Below(live, size);
    var path := PathOf(store, run, size, package && placed.Some?);
    ghost var q := store.View();
    GrownIsTransitive(p0, old(store.View()), q);
    GrownLog(p0, q);
    if path.Err? {
      return Err(path.error), [], m;
    }
    m := if package && placed.Some? then n + 2 else n + 1;
    if package && placed.Some? {
      PathsStay(store.c, p0, q, run, package);
    }
    PathElsewhere(store.c.hash, p0, package, placed);
    var found, fields := ReadForExport(store, run);
    GrownIsTransitive(p0, q, store.View());
    GrownIsTransitive(old(store.View()), q, store.View());
    var t := Taken(run, placed, path.value, found);
    ReadIsTaken(store.c, p0, store.View(), package, t);
    HonestIsJson(store.c, p0, store.View(), run);
    return Ok(t), [RunLine(BlockHeader(t))] + AsLines(fields), m;
  }

  lemma OneCall(schedule: seq<Turn>)
    ensures After(schedule, 1) == if schedule == [] then [] else schedule[1..]
  {
  }

  /** Every record of an honest run can be written, and none is ever lost. */
  lemma {:induction false} HonestIsJson(c: Codec, p: Plane, q: Plane, run: RunId)
    requires Honest(c, q) && Grown(p, q)
    ensures AllJson(c, RecordsOf(q, run)) && RecordsOf(p, run) <= RecordsOf(q, run)
  {
    hide Hashing.Head, Chain, Uncanonical, Raws, Stamped, Concluded;
    if run in q.runs {
      assert HonestRun(c, run, q.runs[run]);
      forall i | 0 <= i < |q.runs[run]| ensures c.json(q.runs[run][i].raw).Some? {
        assert HonestRecord(c, run, q.runs[run], i);
      }
    }
    if run in p.runs {
      assert p.runs[run] <= q.runs[run];
    }
  }

  lemma {:induction false} PathElsewhere(h: Hash, p: Plane, package: bool, placed: Option<(nat, Digest)>)
    ensures !(package && placed.Some?) ==> PathFor(h, p, package, placed) == None
  {
  }

  /** What the walk over the runs has counted. */
  datatype Tally = Tally(lines: seq<Line>, records: nat, exported: nat, unreadable: seq<RunId>, unplaced: seq<RunId>,
                         stamped: set<CaseId>)

  ghost predicate Counted(c: Codec, package: bool, asked: set<CaseId>, tally: Tally, takens: seq<Taken>) {
    tally.lines == BlocksLines(c, takens) && tally.records == RecordTotal(takens) &&
    tally.exported == |Exported(takens)| && tally.unreadable == Unread(takens) &&
    tally.unplaced == (if package then Unplaced(takens) else []) &&
    tally.stamped == asked + (if package then StampsTaken(takens) else {})
  }

  /** One more run in the tally. */
  function CountRun(package: bool, tally: Tally, t: Taken, lines: seq<Line>): Tally {
    var written := tally.(lines := tally.lines + lines);
    if t.records == [] then written.(unreadable := tally.unreadable + [t.run])
    else
      var counted := written.(records := tally.records + |t.records|, exported := tally.exported + 1);
      if !package then counted
      else
        counted.(unplaced := tally.unplaced + (if t.placed.None? && HasSealingConclusion(t.records) then [t.run] else []),
                 stamped := tally.stamped + StampsOf(t.records))
  }

  lemma {:induction false} CountedGrows(c: Codec, package: bool, asked: set<CaseId>, tally: Tally, takens: seq<Taken>,
                                        t: Taken)
    requires Counted(c, package, asked, tally, takens)
    ensures Counted(c, package, asked, CountRun(package, tally, t, BlockLines(c, t)), takens + [t])
    ensures StampsTaken(takens + [t]) == StampsTaken(takens) + StampsOf(t.records)
  {
    hide BlockLines, StampsOf, HasSealingConclusion;
    assert (takens + [t])[..|takens|] == takens;
    if t.records == [] {
      NoStamps();
      NothingSeals();
    }
  }

  lemma NothingSeals()
    ensures !HasSealingConclusion([])
  {
  }

  /** Every run taken whole unless the store was out of reach, each at a call of
      its own. */
  ghost predicate Missed(p0: Plane, takens: seq<Taken>, full: seq<Turn>, at: seq<nat>) {
    |at| == |takens| && (forall i, j :: 0 <= i < j < |at| ==> at[i] < at[j]) &&
    forall i :: 0 <= i < |takens| ==> MissedFor(p0, takens[i], full, at[i])
  }

  /** Every run, in the order asked.  `at` is the call each was read at. */
  method TakeRuns(store: Store, ghost p0: Plane, size: nat, package: bool, asked: set<CaseId>, runs: seq<RunId>,
                  positions: seq<Option<(nat, Digest)>>, ghost full: seq<Turn>, ghost n: nat)
    returns (r: Result<Tally, StoreError>, ghost takens: seq<Taken>, ghost at: seq<nat>)
    requires store.schedule == After(full, n)
    requires Honest(store.c, p0) && Honest(store.c, store.View()) && Grown(p0, store.View()) && size == |p0.log|
    requires |positions| == |runs|
    requires forall i :: 0 <= i < |runs| ==> Below(positions[i], size) == PositionOf(p0, runs[i])
    modifies store`runs, store`log, store`cases, store`schedule
    ensures Grown(old(store.View()), store.View()) && Honest(store.c, store.View()) && store.leases == old(store.leases)
    ensures r.Ok? ==>
              |takens| == |runs| && Counted(store.c, package, asked, r.value, takens) &&
              StampsTaken(takens) <= store.View().cases.Keys &&
              forall i :: 0 <= i < |runs| ==>
                takens[i].run == runs[i] && TakenFrom(store.c, p0, store.View(), package, takens[i])
    ensures r.Ok? ==> Missed(p0, takens, full, at)
    ensures r.Err? ==> !NeverDown(full)
    ensures old(store.schedule) == [] ==> store.schedule == [] && store.View() == old(store.View())
    ensures NeverDown(full) ==> NeverDown(store.schedule)
  {
    hide Honest, Grown, TakenFrom, PositionOf, Counted, CountRun, BlockLines, StampsTaken, StampsOf, Below, MissedFor,
         NeverDown, After;
    takens, at := [], [];
    ghost var m := n;
    UpAfter(full, n);
    var tally := Tally([], 0, 0, [], [], asked);
    NothingCounted(store.c, package, asked);
    GrownIsReflexive(store.View());
    for i := 0 to |runs|
      invariant |takens| == i && Counted(store.c, package, asked, tally, takens)
      invariant Honest(store.c, store.View()) && Grown(old(store.View()), store.View()) &&
          store.leases == old(store.leases)
      invariant Grown(p0, store.View())
      invariant StampsTaken(takens) <= store.View().cases.Keys
      invariant forall j :: 0 <= j < i ==>
                  takens[j].run == runs[j] && TakenFrom(store.c, p0, store.View(), package, takens[j])
      invariant store.schedule == After(full, m) && Missed(p0, takens, full, at)
      invariant old(store.schedule) == [] ==> store.schedule == [] && store.View() == old(store.View())
      invariant forall j :: 0 <= j < i ==> at[j] < m
    {
      ghost var q := store.View();
      ghost var k := m;
      var taken, lines;
      taken, lines, m := TakeRun(store, p0, size, package, runs[i], positions[i], full, m);
      UpAfter(full, m);
      GrownIsTransitive(old(store.View()), q, store.View());
      GrownIsTransitive(p0, q, store.View());
      if taken.Err? {
        return Err(taken.error), [], at;
      }
      forall j | 0 <= j < i ensures TakenFrom(store.c, p0, store.View(), package, takens[j]) {
        TakenStays(store.c, p0, q, store.View(), package, takens[j]);
      }
      CasesStay(q, store.View());
      CountedGrows(store.c, package, asked, tally, takens, taken.value);
      tally := CountRun(package, tally, taken.value, lines);
      takens, at := takens + [taken.value], at + [m - 1];
    }
    UpAfter(full, m);
    return Ok(tally), takens, at;
  }

  lemma UpAfter(full: seq<Turn>, n: nat)
    ensures NeverDown(full) ==> NeverDown(After(full, n))
  {
  }

  lemma NothingCounted(c: Codec, package: bool, asked: set<CaseId>)
    ensures Counted(c, package, asked, Tally([], 0, 0, [], [], asked), []) && StampsTaken([]) == {}
  {
  }

  lemma CasesStay(p: Plane, q: Plane)
    requires Grown(p, q)
    ensures p.cases.Keys <= q.cases.Keys
  {
  }

  // ── The case layer ─────────────────────────────────────────────────────

  predicate Beyond(after: Option<CaseId>, id: CaseId) {
    after.Some? ==> after.value < id
  }

  ghost function Ahead(keys: set<CaseId>, after: Option<CaseId>): set<CaseId> {
    set id | id in keys && Beyond(after, id)
  }

  lemma RowsCarry(p: Plane, page: seq<CaseId>, rows: seq<CaseRow>, i: nat)
    requires RowsAt(p, page, rows) && (forall id :: id in p.cases ==> p.cases[id].case_.id == id) && i < |page|
    ensures page[i] in IdsCarried(rows) && rows[i].case_.id == page[i] && page[i] in p.cases.Keys
  {
    assert rows[i].case_.id == page[i];
    CarriedHasRow(rows, i);
  }

  lemma {:induction false} CarriedHasRow(rows: seq<CaseRow>, i: nat)
    requires i < |rows|
    ensures rows[i].case_.id in IdsCarried(rows)
  {
    if i < |rows| - 1 {
      CarriedHasRow(rows[..|rows| - 1], i);
    }
  }

  lemma {:induction false} CarriedOfConcat(a: seq<CaseRow>, b: seq<CaseRow>)
    ensures IdsCarried(a + b) == IdsCarried(a) + IdsCarried(b)
    decreases |b|
  {
    if b == [] {
      assert a + b == a;
    } else {
      CarriedOfConcat(a, b[..|b| - 1]);
      assert (a + b)[..|a + b| - 1] == a + b[..|b| - 1];
    }
  }

  /** A page carries every case between where it starts and where it ends, and
      a page that is not full carries every case there is. */
  lemma PageCarries(p: Plane, after: Option<CaseId>, limit: nat, page: seq<CaseId>, rows: seq<CaseRow>, id: CaseId)
    requires IsPage(p.cases.Keys, after, limit, page) && RowsAt(p, page, rows) && limit > 0
    requires forall k :: k in p.cases ==> p.cases[k].case_.id == k
    requires id in p.cases.Keys && Beyond(after, id)
    ensures page != []
    ensures id in IdsCarried(rows) || (|page| == limit && page[|page| - 1] < id)
  {
    if id in page {
      var i :| 0 <= i < |page| && page[i] == id;
      RowsCarry(p, page, rows, i);
    }
  }

  lemma IdsAreKeys(c: Codec, p: Plane)
    requires Honest(c, p)
    ensures forall k :: k in p.cases ==> p.cases[k].case_.id == k
  {
    hide HonestRun, Stamped, Concluded;
  }

  /** No row is past the cursor. */
  predicate NotPast(rows: seq<CaseRow>, after: Option<CaseId>) {
    forall i :: 0 <= i < |rows| ==> after.Some? && rows[i].case_.id <= after.value
  }

  lemma NoRows(p: Plane, after: Option<CaseId>)
    ensures RowsHeld(p, p, []) && NotPast([], after)
  {
  }

  /** One more page of rows the store holds now. */
  lemma {:induction false} PageIsHeld(p: Plane, q: Plane, after: Option<CaseId>, limit: nat, page: seq<CaseId>,
                                      rows: seq<CaseRow>, before: seq<CaseRow>)
    requires Grown(p, q) && IsPage(q.cases.Keys, after, limit, page) && RowsAt(q, page, rows) && rows != []
    requires forall k :: k in q.cases ==> q.cases[k].case_.id == k
    requires RowsHeld(p, q, before) && NotPast(before, after)
    ensures RowsHeld(p, q, before + rows) && NotPast(before + rows, Some(rows[|rows| - 1].case_.id))
  {
    hide Grown, HeldBetween;
    forall i | 0 <= i < |rows| ensures HeldBetween(p, q, rows[i]) && rows[i].case_.id == page[i] {
      RowIsHeld(p, q, rows[i]);
    }
    RowsHeldGrow(p, q, before, rows);
  }

  /** Every case, page by page.  A case added behind the cursor while the walk
      goes on may be missed; one that was there when it began is not. */
  method WalkCases(store: Store) returns (r: Result<seq<CaseRow>, StoreError>)
    requires Honest(store.c, store.View())
    modifies store`runs, store`log, store`cases, store`schedule
    ensures Grown(old(store.View()), store.View()) && Honest(store.c, store.View()) && store.leases == old(store.leases)
    ensures r.Ok? ==>
              old(store.View().cases.Keys) <= IdsCarried(r.value) && RowsHeld(old(store.View()), store.View(), r.value)
    ensures old(store.schedule) == [] ==> store.schedule == [] && store.View() == old(store.View())
    ensures NeverDown(old(store.schedule)) ==> r.Ok? && NeverDown(store.schedule)
  {
    hide Honest, Grown, IsPage, RowsAt, IdsCarried, Beyond, Turned, RowsHeld, NotPast;
    ghost var start := store.View();
    var rows: seq<CaseRow> := [];
    var after: Option<CaseId> := None;
    var full := true;
    GrownIsReflexive(store.View());
    BeyondNothing(start.cases.Keys);
    NoRows(start, after);
    while full
      invariant Honest(store.c, store.View()) && Grown(start, store.View()) && store.leases == old(store.leases)
      invariant forall id :: id in start.cases.Keys ==> id in IdsCarried(rows) || (full && Beyond(after, id))
      invariant RowsHeld(start, store.View(), rows) && NotPast(rows, after)
      invariant old(NeverDown(store.schedule)) ==> NeverDown(store.schedule)
      invariant old(store.schedule) == [] ==> store.schedule == [] && store.View() == start
      decreases |store.schedule|, |Ahead(store.cases.Keys, after)|, full
    {
      ghost var q := store.View();
      ghost var rest := store.schedule;
      var page := store.CasePage(after, CASE_PAGE);
      GrownIsTransitive(start, q, store.View());
      if page.Err? {
        return Err(page.error);
      }
      GrownIsReflexive(start);
      RowsHeldStay(start, start, q, store.View(), rows);
      ghost var ids :| IsPage(store.View().cases.Keys, after, CASE_PAGE, ids) && RowsAt(store.View(), ids, page.value);
      CasesStay(start, store.View());
      IdsAreKeys(store.c, store.View());
      CarriedOfConcat(rows, page.value);
      forall id | id in start.cases.Keys && Beyond(after, id)
        ensures ids != []
        ensures id in IdsCarried(page.value) || (|ids| == CASE_PAGE && ids[|ids| - 1] < id)
      {
        PageCarries(store.View(), after, CASE_PAGE, ids, page.value, id);
      }
      SameLength(store.View(), ids, page.value);
      if page.value == [] {
        return Ok(rows);
      }
      PageIsHeld(start, store.View(), after, CASE_PAGE, ids, page.value, rows);
      RowsCarry(store.View(), ids, page.value, |ids| - 1);
      var last := page.value[|page.value| - 1].case_.id;
      PageEnds(store.View().cases.Keys, after, CASE_PAGE, ids);
      AheadShrinks(store.cases.Keys, after, last);
      forall id | last < id ensures Beyond(Some(last), id) {
        BeyondSome(last, id);
      }
      after, rows := Some(last), rows + page.value;
      full := |page.value| >= CASE_PAGE;
    }
    return Ok(rows);
  }

  lemma SameLength(p: Plane, page: seq<CaseId>, rows: seq<CaseRow>)
    requires RowsAt(p, page, rows)
    ensures |page| == |rows|
  {
  }

  lemma BeyondNothing(keys: set<CaseId>)
    ensures forall id :: id in keys ==> Beyond(None, id)
  {
  }

  lemma BeyondSome(last: CaseId, id: CaseId)
    ensures Beyond(Some(last), id) <==> last < id
  {
  }

  lemma PageEnds(keys: set<CaseId>, after: Option<CaseId>, limit: nat, page: seq<CaseId>)
    requires IsPage(keys, after, limit, page) && page != []
    ensures page[|page| - 1] in keys && Beyond(after, page[|page| - 1]) && |page| <= limit
  {
  }

  /** Moving the cursor to a case ahead of it leaves fewer cases ahead. */
  lemma AheadShrinks(keys: set<CaseId>, after: Option<CaseId>, last: CaseId)
    requires last in keys && Beyond(after, last)
    ensures |Ahead(keys, Some(last))| < |Ahead(keys, after)|
  {
    assert Ahead(keys, Some(last)) <= Ahead(keys, after) - {last};
    SmallerSet(Ahead(keys, Some(last)), Ahead(keys, after) - {last});
  }

  lemma {:induction false} SmallerSet(a: set<CaseId>, b: set<CaseId>)
    requires a <= b
    ensures |a| <= |b|
  {
    if a != {} {
      var x :| x in a;
      SmallerSet(a - {x}, b - {x});
    }
  }

  /** The named cases, least id first; one the store no longer answers for is
      left out. */
  method CollectCases(store: Store, wanted: set<CaseId>) returns (r: Result<seq<CaseRow>, StoreError>)
    requires Honest(store.c, store.View())
    modifies store`runs, store`log, store`cases, store`schedule
    ensures Grown(old(store.View()), store.View()) && Honest(store.c, store.View()) && store.leases == old(store.leases)
    ensures r.Ok? ==>
              wanted * old(store.View().cases.Keys) <= IdsCarried(r.value) <= wanted &&
              RowsHeld(old(store.View()), store.View(), r.value)
    ensures old(store.schedule) == [] ==> store.schedule == [] && store.View() == old(store.View())
    ensures NeverDown(old(store.schedule)) ==> r.Ok? && NeverDown(store.schedule)
  {
    hide Honest, Grown, IdsCarried, Turned, RowsHeld;
    ghost var start := store.View();
    var rows: seq<CaseRow> := [];
    var rest := wanted;
    GrownIsReflexive(store.View());
    NoRows(start, None);
    NoneCarried();
    while rest != {}
      invariant rest <= wanted
      invariant Honest(store.c, store.View()) && Grown(start, store.View()) && store.leases == old(store.leases)
      invariant (wanted - rest) * start.cases.Keys <= IdsCarried(rows) <= wanted
      invariant RowsHeld(start, store.View(), rows)
      invariant forall i, id :: 0 <= i < |rows| && id in rest ==> rows[i].case_.id < id
      invariant old(NeverDown(store.schedule)) ==> NeverDown(store.schedule)
      invariant old(store.schedule) == [] ==> store.schedule == [] && store.View() == start
      decreases |rest|
    {
      var id := LeastOf(rest);
      ghost var q := store.View();
      var row := store.CaseOf(id);
      GrownIsTransitive(start, q, store.View());
      if row.Err? {
        return Err(row.error);
      }
      GrownIsReflexive(start);
      RowsHeldStay(start, start, q, store.View(), rows);
      CasesStay(start, store.View());
      IdsAreKeys(store.c, store.View());
      if row.value.Some? {
        CarriedOfConcat(rows, [row.value.value]);
        CarriedOfOne(row.value.value);
        OneMoreRow(start, q, store.View(), rows, row.value.value);
        rows := rows + [row.value.value];
      }
      rest := rest - {id};
    }
    return Ok(rows);
  }

  lemma OneMoreRow(start: Plane, q: Plane, p: Plane, rows: seq<CaseRow>, row: CaseRow)
    requires Grown(start, p) && RowsHeld(start, p, rows)
    requires row.case_.id in p.cases && p.cases[row.case_.id] == row
    requires forall i :: 0 <= i < |rows| ==> rows[i].case_.id < row.case_.id
    ensures RowsHeld(start, p, rows + [row])
  {
    hide Grown, HeldBetween;
    RowIsHeld(start, p, row);
    RowsHeldGrow(start, p, rows, [row]);
  }

  lemma NoneCarried()
    ensures IdsCarried([]) == {}
  {
  }

  lemma CarriedOfOne(row: CaseRow)
    ensures IdsCarried([row]) == {row.case_.id}
  {
    assert [row][..0] == [];
  }

  // ── One pass of the writer ─────────────────────────────────────────────

  /** What a file is written from: the planes the checkpoint was read from, and
      what was taken. */
  ghost predicate WroteFile(c: Codec, p0: Plane, p1: Plane, runs: seq<RunId>, package: Option<Selection>,
                            takens: seq<Taken>, rows: seq<CaseRow>, w: Written) {
    WrittenFrom(c, p0, p1, runs, package, takens, rows) &&
    w.checkpoint == CheckpointOf(c.hash, p0) &&
    w.lines == FileOf(c, w.checkpoint, package, takens, rows) &&
    w.cases == IdsOf(rows) && w.trailer == TrailerFor(takens, rows) &&
    w.unplaced == (if package.Some? then Unplaced(takens) else [])
  }

  method CaseLayer(store: Store, whole: bool, wanted: set<CaseId>) returns (r: Result<seq<CaseRow>, StoreError>)
    requires Honest(store.c, store.View())
    modifies store`runs, store`log, store`cases, store`schedule
    ensures Grown(old(store.View()), store.View()) && Honest(store.c, store.View()) && store.leases == old(store.leases)
    ensures r.Ok? ==>
              RowsHeld(old(store.View()), store.View(), r.value) &&
              if whole then old(store.View().cases.Keys) <= IdsCarried(r.value)
              else wanted * old(store.View().cases.Keys) <= IdsCarried(r.value) <= wanted
    ensures old(store.schedule) == [] ==> store.schedule == [] && store.View() == old(store.View())
    ensures NeverDown(old(store.schedule)) ==> r.Ok? && NeverDown(store.schedule)
  {
    hide Honest, Grown, IdsCarried, RowsHeld;
    if whole {
      r := WalkCases(store);
    } else {
      r := CollectCases(store, wanted);
    }
  }

  /** Checkpoint, header, runs, cases, trailer, for both kinds of file.  Every run is written
      with all it held at the checkpoint, unless the store was out of reach when
      it was read, at a call of its own that `at` names. */
  method WriteFile(store: Store, runs: seq<RunId>, package: Option<Selection>)
    returns (r: Result<Written, StoreError>, ghost p0: Plane, ghost takens: seq<Taken>, ghost rows: seq<CaseRow>,
             ghost at: seq<nat>)
    requires Honest(store.c, store.View())
    modifies store`runs, store`log, store`cases, store`schedule
    ensures Grown(old(store.View()), store.View()) && Honest(store.c, store.View()) && store.leases == old(store.leases)
    ensures r.Ok? ==>
              Honest(store.c, p0) && Grown(old(store.View()), p0) && Grown(p0, store.View()) &&
              WroteFile(store.c, p0, store.View(), runs, package, takens, rows, r.value) &&
              Missed(p0, takens, old(store.schedule), at)
    ensures NeverDown(old(store.schedule)) ==> r.Ok? && NeverDown(store.schedule)
    ensures old(store.schedule) == [] ==> store.schedule == [] && store.View() == p0 == old(store.View())
  {
    hide Honest, Grown, TakenFrom, PositionOf, Counted, IdsCarried, StampsTaken, CheckpointOf, WroteFile, Below, Missed,
         RowsHeld, NeverDown, Turned, After, Up, DownAt;
    ghost var start, full := store.View(), store.schedule;
    takens, rows, at := [], [], [];
    AfterOne(full, 0);
    AfterOne(full, 1);
    AfterNone(full);
    GrownIsReflexive(start);
    var checkpoint := store.Checkpoint();
    p0 := store.View();
    if checkpoint.Err? {
      return Err(checkpoint.error), p0, takens, rows, at;
    }
    var size := checkpoint.value.size;
    SizeIsTheLog(store.c.hash, p0);
    var asked := if package.Some? then AskedFor(package.value) else {};
    var positions := store.LogPositions(runs);
    ghost var p := store.View();
    GrownIsTransitive(start, p0, p);
    if positions.Err? {
      return Err(positions.error), p0, takens, rows, at;
    }
    forall i | 0 <= i < |runs| ensures Below(positions.value[i], size) == PositionOf(p0, runs[i]) {
      PositionsStay(store.c, p0, p, runs[i]);
    }
    var tally;
    tally, takens, at := TakeRuns(store, p0, size, package.Some?, asked, runs, positions.value, full, 2);
    ghost var q := store.View();
    GrownIsTransitive(start, p, q);
    GrownIsTransitive(p0, p, q);
    if tally.Err? {
      return Err(tally.error), p0, takens, rows, at;
    }
    var cases := CaseLayer(store, package.None?, tally.value.stamped);
    GrownIsTransitive(start, q, store.View());
    GrownIsTransitive(p0, q, store.View());
    if cases.Err? {
      return Err(cases.error), p0, takens, rows, at;
    }
    rows := cases.value;
    var trailer := TrailerFields(Some(|runs|), Some(tally.value.exported), Some(tally.value.records), Some(|cases.value|),
                                 tally.value.unreadable);
    var lines := [HeaderFor(checkpoint.value, package)] + tally.value.lines + CasesLines(cases.value) +
        [EndLine(trailer)];
    var written := Written(checkpoint.value, lines, IdsOf(cases.value), trailer, tally.value.unplaced);
    forall i | 0 <= i < |runs| ensures TakenFrom(store.c, p0, store.View(), package.Some?, takens[i]) {
      TakenStays(store.c, p0, q, store.View(), package.Some?, takens[i]);
    }
    CasesStay(p0, q);
    GrownIsReflexive(store.View());
    RowsHeldStay(p0, q, store.View(), store.View(), rows);
    FileIsWritten(store.c, p0, q, store.View(), runs, package, asked, tally.value, takens, rows, written);
    return Ok(written), p0, takens, rows, at;
  }

  lemma AfterNone(full: seq<Turn>)
    ensures After(full, 0) == full
  {
  }

  lemma SizeIsTheLog(h: Hash, p: Plane)
    ensures CheckpointOf(h, p).size == |p.log|
  {
    hide Root, LogHashes;
  }

  lemma {:induction false} FileIsWritten(c: Codec, p0: Plane, q: Plane, p1: Plane, runs: seq<RunId>,
                                         package: Option<Selection>, asked: set<CaseId>, tally: Tally,
                                         takens: seq<Taken>, rows: seq<CaseRow>, w: Written)
    requires |takens| == |runs| && Counted(c, package.Some?, asked, tally, takens)
    requires asked == if package.Some? then AskedFor(package.value) else {}
    requires forall i :: 0 <= i < |runs| ==> takens[i].run == runs[i] && TakenFrom(c, p0, p1, package.Some?, takens[i])
    requires StampsTaken(takens) <= q.cases.Keys && p0.cases.Keys <= q.cases.Keys
    requires if package.None? then q.cases.Keys <= IdsCarried(rows)
             else tally.stamped * q.cases.Keys <= IdsCarried(rows) <= tally.stamped
    requires RowsHeld(p0, p1, rows)
    requires w.checkpoint == CheckpointOf(c.hash, p0)
    requires w.trailer == TrailerFields(Some(|runs|), Some(tally.exported), Some(tally.records), Some(|rows|),
        tally.unreadable)
    requires w.lines == [HeaderFor(w.checkpoint, package)] + tally.lines + CasesLines(rows) + [EndLine(w.trailer)]
    requires w.cases == IdsOf(rows) && w.unplaced == tally.unplaced
    ensures WroteFile(c, p0, p1, runs, package, takens, rows, w)
  {
    hide TakenFrom, IdsCarried, StampsTaken, CheckpointOf, HeaderFor, BlocksLines, CasesLines, Exported, Unread,
         RecordTotal, Unplaced, RowsHeld;
  }
}
