/** `package_to_jsonl`: a bounded number of attempts, each under a checkpoint of
    its own, the last one kept only when it places every sealing conclusion. */
module Packages {
  import opened Wrappers
  import opened Hashing
  import opened Merkle
  import opened Wire
  import opened VerifySpec
  import opened Planes
  import opened Stores
  import opened WriterSpec
  import opened Writers
  import opened WriterMeetsVerifier
  import opened LogOrder
  import opened ExportVerifies

  datatype PackageError =
    | StoreFailed(store: StoreError) | NamesNothing | NoCase(case_: CaseId) | NoRun(run: RunId) | NotSealedYet(run: RunId)
    | WriteFailed

  /** Where a file is written.  It takes `room` more lines and then fails. */
  class Sink {
    var content: seq<Line>
    var room: nat

    method WriteAll(lines: seq<Line>) returns (ok: bool)
      modifies this
      ensures ok ==> content == old(content) + lines
      ensures ok <==> |lines| <= old(room)
    {
      ok := |lines| <= room;
      var taken := if ok then |lines| else room;
      content, room := content + lines[..taken], room - taken;
      assert lines[..|lines|] == lines;
    }
  }

  // ── Which runs a selection names ───────────────────────────────────────

  /** Each run once, where it is first named. */
  function Dedupe(runs: seq<RunId>): seq<RunId> {
    if runs == [] then [] else Push(Dedupe(runs[..|runs| - 1]), runs[|runs| - 1])
  }

  function Push(runs: seq<RunId>, run: RunId): seq<RunId> {
    if run in runs then runs else runs + [run]
  }

  lemma {:induction false} DedupeOnce(runs: seq<RunId>)
    ensures OnceEach(Dedupe(runs))
    ensures forall run :: run in Dedupe(runs) <==> run in runs
  {
    if runs != [] {
      var n := |runs| - 1;
      DedupeOnce(runs[..n]);
      assert runs == runs[..n] + [runs[n]];
    }
  }

  lemma DedupeOfAppend(runs: seq<RunId>, run: RunId)
    ensures Dedupe(runs + [run]) == Push(Dedupe(runs), run)
  {
    assert (runs + [run])[..|runs|] == runs;
  }

  /** The runs of the matters, in the order the matters are named. */
  function RunsNamed(matters: seq<CaseRow>): seq<RunId> {
    if matters == [] then [] else RunsNamed(matters[..|matters| - 1]) + matters[|matters| - 1].case_.runs
  }

  lemma RunsNamedOfAppend(matters: seq<CaseRow>, row: CaseRow)
    ensures RunsNamed(matters + [row]) == RunsNamed(matters) + row.case_.runs
  {
    assert (matters + [row])[..|matters|] == matters;
  }

  method PushAll(before: seq<RunId>, named: seq<RunId>, ghost listed: seq<RunId>) returns (runs: seq<RunId>)
    requires before == Dedupe(listed)
    ensures runs == Dedupe(listed + named)
  {
    runs := before;
    assert listed + named[..0] == listed;
    for i := 0 to |named|
      invariant runs == Dedupe(listed + named[..i])
    {
      DedupeOfAppend(listed + named[..i], named[i]);
      assert listed + named[..i + 1] == listed + named[..i] + [named[i]];
      if named[i] !in runs {
        runs := runs + [named[i]];
      }
    }
    assert named[..|named|] == named;
  }

  /** The cases named, as the store holds them. */
  ghost predicate AreMatters(p: Plane, cases: seq<CaseId>, matters: seq<CaseRow>) {
    |matters| == |cases| && forall i :: 0 <= i < |cases| ==> cases[i] in p.cases && matters[i] == p.cases[cases[i]]
  }

  /** What a refusal says, of a store that held `p` when it was asked and `q` when it
      answered. */
  ghost predicate Blames(p: Plane, q: Plane, selection: Selection, e: PackageError) {
    match e
    case NamesNothing => selection.cases == [] && selection.runs == []
    case NoCase(id) => id in selection.cases && id !in p.cases
    case NoRun(run) => run in selection.runs && RecordsOf(p, run) == []
    case NotSealedYet(run) => LeftUnsealed(p, q, run)
    case _ => true
  }

  /** The run was not in the log when the store was asked, and its history comes to
      an end for good somewhere. */
  ghost predicate LeftUnsealed(p: Plane, q: Plane, run: RunId) {
    run !in p.log && exists n :: 0 <= n <= |RecordsOf(q, run)| && HasSealingConclusion(RecordsOf(q, run)[..n])
  }

  lemma CaseWasMissing(p: Plane, q: Plane, id: CaseId)
    requires Grown(p, q) && id !in q.cases
    ensures id !in p.cases
  {
  }

  lemma RunWasMissing(p: Plane, q: Plane, run: RunId)
    requires Grown(p, q) && RecordsOf(q, run) == []
    ensures RecordsOf(p, run) == []
  {
  }

  lemma NeverDownLater(schedule: seq<Turn>)
    requires schedule != []
    ensures NeverDown(schedule) ==> Up(schedule) && NeverDown(schedule[1..])
  {
  }

  method ResolveCases(store: Store, cases: seq<CaseId>)
    returns (r: Result<seq<RunId>, PackageError>, ghost matters: seq<CaseRow>)
    requires Honest(store.c, store.View())
    modifies store`runs, store`log, store`cases, store`schedule
    ensures Grown(old(store.View()), store.View()) && Honest(store.c, store.View()) && store.leases == old(store.leases)
    ensures r.Ok? ==> r.value == Dedupe(RunsNamed(matters)) && |matters| == |cases|
    ensures r.Err? ==>
              r.error.StoreFailed? ||
              (r.error.NoCase? && r.error.case_ in cases && r.error.case_ !in old(store.View().cases))
    ensures NeverDown(old(store.schedule)) ==> NeverDown(store.schedule) && (r.Err? ==> !r.error.StoreFailed?)
    ensures r.Ok? ==>
              forall i :: 0 <= i < |cases| ==>
                matters[i].case_.id == cases[i] && cases[i] in store.View().cases.Keys &&
                HeldBetween(old(store.View()), store.View(), matters[i])
    ensures old(store.schedule) == [] ==> store.schedule == [] && store.View() == old(store.View())
    ensures old(store.schedule) == [] ==>
              (r.Ok? <==> forall i :: 0 <= i < |cases| ==> cases[i] in store.View().cases) &&
              (r.Ok? ==> AreMatters(store.View(), cases, matters))
  {
    hide Honest, Grown, Dedupe, RunsNamed, Turned, HeldBetween;
    var runs: seq<RunId> := [];
    matters := [];
    NothingNamed();
    GrownIsReflexive(store.View());
    for i := 0 to |cases|
      invariant Honest(store.c, store.View()) && Grown(old(store.View()), store.View()) &&
          store.leases == old(store.leases)
      invariant runs == Dedupe(RunsNamed(matters)) && |matters| == i
      invariant NeverDown(old(store.schedule)) ==> NeverDown(store.schedule)
      invariant forall j :: 0 <= j < i ==>
                  matters[j].case_.id == cases[j] && cases[j] in store.View().cases.Keys &&
                  HeldBetween(old(store.View()), store.View(), matters[j])
      invariant old(store.schedule) == [] ==>
                  store.schedule == [] && store.View() == old(store.View()) &&
                  AreMatters(store.View(), cases[..i], matters)
    {
      ghost var q := store.View();
      var row := store.CaseOf(cases[i]);
      GrownIsTransitive(old(store.View()), q, store.View());
      HeldLater(old(store.View()), q, store.View(), matters);
      CasesStay(q, store.View());
      IdsAreKeys(store.c, store.View());
      match row {
        case Err(e) => return Err(StoreFailed(e)), [];
        case Ok(None) =>
          CaseWasMissing(old(store.View()), store.View(), cases[i]);
          return Err(NoCase(cases[i])), [];
        case Ok(Some(found)) =>
          runs := PushAll(runs, found.case_.runs, RunsNamed(matters));
          RowIsHeld(old(store.View()), store.View(), found);
          RunsNamedOfAppend(matters, found);
          matters := matters + [found];
      }
    }
    assert cases[..|cases|] == cases;
    return Ok(runs), matters;
  }

  lemma {:induction false} HeldLater(p: Plane, q: Plane, r: Plane, rows: seq<CaseRow>)
    requires Grown(q, r) && forall i :: 0 <= i < |rows| ==> HeldBetween(p, q, rows[i])
    ensures forall i :: 0 <= i < |rows| ==> HeldBetween(p, r, rows[i])
  {
    hide Grown;
    forall i | 0 <= i < |rows| ensures HeldBetween(p, r, rows[i]) {
      assert HeldBetween(p, q, rows[i]);
      var m :| Grown(p, m) && Grown(m, q) && rows[i].case_.id in m.cases && m.cases[rows[i].case_.id] == rows[i];
      GrownIsTransitive(m, q, r);
    }
  }

  lemma NothingNamed()
    ensures Dedupe(RunsNamed([])) == []
  {
  }

  /** A selection that names something, every case of it held and every run of
      it with records. */
  predicate Held(p: Plane, selection: Selection) {
    (selection.cases != [] || selection.runs != []) &&
    (forall i :: 0 <= i < |selection.cases| ==> selection.cases[i] in p.cases) &&
    forall i :: 0 <= i < |selection.runs| ==> RecordsOf(p, selection.runs[i]) != []
  }

  /** A selection as a list without repeats: the matters' runs, then
      `selection.runs`.  A quiet store gives one exactly when it holds everything
      the selection names. */
  method Resolve(store: Store, selection: Selection)
    returns (r: Result<seq<RunId>, PackageError>, ghost matters: seq<CaseRow>)
    requires Honest(store.c, store.View())
    modifies store`runs, store`log, store`cases, store`schedule
    ensures Grown(old(store.View()), store.View()) && Honest(store.c, store.View()) && store.leases == old(store.leases)
    ensures selection.cases == [] && selection.runs == [] <==> r == Err(NamesNothing)
    ensures r.Err? ==>
              !r.error.WriteFailed? && !r.error.NotSealedYet? &&
              Blames(old(store.View()), store.View(), selection, r.error)
    ensures NeverDown(old(store.schedule)) ==> NeverDown(store.schedule) && (r.Err? ==> !r.error.StoreFailed?)
    ensures r.Ok? ==>
              r.value == Dedupe(RunsNamed(matters) + selection.runs) && OnceEach(r.value) &&
              |matters| == |selection.cases| &&
              (forall i :: 0 <= i < |selection.cases| ==>
                 matters[i].case_.id == selection.cases[i] && selection.cases[i] in store.View().cases.Keys &&
                 HeldBetween(old(store.View()), store.View(), matters[i])) &&
              (forall i :: 0 <= i < |selection.runs| ==> RecordsOf(store.View(), selection.runs[i]) != [])
    ensures old(store.schedule) == [] ==> store.schedule == [] && store.View() == old(store.View())
    ensures old(store.schedule) == [] ==>
              (r.Ok? <==> Held(store.View(), selection)) &&
              (r.Ok? ==> AreMatters(store.View(), selection.cases, matters))
  {
    hide Honest, Grown, Dedupe, RunsNamed, AreMatters, Turned, HeldBetween, NeverDown, RecordsOf;
    matters := [];
    GrownIsReflexive(store.View());
    if selection.cases == [] && selection.runs == [] {
      return Err(NamesNothing), [];
    }
    var named;
    named, matters := ResolveCases(store, selection.cases);
    if named.Err? {
      return Err(named.error), [];
    }
    var runs := named.value;
    assert RunsNamed(matters) + selection.runs[..0] == RunsNamed(matters);
    for i := 0 to |selection.runs|
      invariant Honest(store.c, store.View()) && Grown(old(store.View()), store.View()) &&
          store.leases == old(store.leases)
      invariant runs == Dedupe(RunsNamed(matters) + selection.runs[..i]) && |matters| == |selection.cases|
      invariant forall j :: 0 <= j < |selection.cases| ==>
                  matters[j].case_.id == selection.cases[j] && selection.cases[j] in store.View().cases.Keys &&
                  HeldBetween(old(store.View()), store.View(), matters[j])
      invariant forall j :: 0 <= j < i ==> RecordsOf(store.View(), selection.runs[j]) != []
      invariant NeverDown(old(store.schedule)) ==> NeverDown(store.schedule)
      invariant old(store.schedule) == [] ==>
                  store.schedule == [] && store.View() == old(store.View()) &&
                  AreMatters(store.View(), selection.cases, matters)
    {
      ghost var q := store.View();
      ghost var turns := store.schedule;
      var found := store.Read(selection.runs[i], 1);
      if turns != [] {
        NeverDownLater(turns);
      }
      GrownIsTransitive(old(store.View()), q, store.View());
      HeldLater(old(store.View()), q, store.View(), matters);
      CasesStay(q, store.View());
      forall j | 0 <= j < i ensures RecordsOf(store.View(), selection.runs[j]) != [] {
        HeldStays(q, store.View(), selection.runs[j]);
      }
      match found {
        case Err(e) => return Err(StoreFailed(e)), [];
        case Ok(records) =>
          if records == [] {
            RunWasMissing(old(store.View()), store.View(), selection.runs[i]);
            return Err(NoRun(selection.runs[i])), [];
          }
      }
      DedupeOfAppend(RunsNamed(matters) + selection.runs[..i], selection.runs[i]);
      assert RunsNamed(matters) + selection.runs[..i + 1] ==
             RunsNamed(matters) + selection.runs[..i] + [selection.runs[i]];
      if selection.runs[i] !in runs {
        runs := runs + [selection.runs[i]];
      }
    }
    assert selection.runs[..|selection.runs|] == selection.runs;
    DedupeOnce(RunsNamed(matters) + selection.runs);
    return Ok(runs), matters;
  }

  lemma HeldStays(p: Plane, q: Plane, run: RunId)
    requires Grown(p, q) && RecordsOf(p, run) != []
    ensures RecordsOf(q, run) != []
  {
    assert p.runs[run] <= q.runs[run];
  }

  // ── Attempts ───────────────────────────────────────────────────────────

  /** `WritePlaced` tries this often, under one checkpoint each time. */
  const PACKAGE_ATTEMPTS: nat := 3

  /** Write until no sealing conclusion is left unplaced. */
  /** One file, written from where the store stood. */
  datatype Attempt = Attempt(p0: Plane, p1: Plane, takens: seq<Taken>, rows: seq<CaseRow>, written: Written)

  /** Attempt `k` was made from where the one before it left off, and what it wrote
      holds a sealing conclusion with no place. */
  ghost predicate GaveUp(c: Codec, start: Plane, runs: seq<RunId>, selection: Selection, tries: seq<Attempt>, k: nat)
    requires k < |tries|
  {
    var t := tries[k];
    Grown(if k == 0 then start else tries[k - 1].p1, t.p0) && Grown(t.p0, t.p1) &&
    WroteFile(c, t.p0, t.p1, runs, Some(selection), t.takens, t.rows, t.written) && t.written.unplaced != []
  }

  ghost predicate AllGaveUp(c: Codec, start: Plane, runs: seq<RunId>, selection: Selection, tries: seq<Attempt>) {
    forall k: nat :: k < |tries| ==> GaveUp(c, start, runs, selection, tries, k)
  }

  lemma OneMoreGaveUp(c: Codec, start: Plane, q: Plane, runs: seq<RunId>, selection: Selection, tries: seq<Attempt>,
                      t: Attempt)
    requires AllGaveUp(c, start, runs, selection, tries) && q == (if tries == [] then start else tries[|tries| - 1].p1)
    requires Grown(q, t.p0) && Grown(t.p0, t.p1) && t.written.unplaced != []
    requires WroteFile(c, t.p0, t.p1, runs, Some(selection), t.takens, t.rows, t.written)
    ensures AllGaveUp(c, start, runs, selection, tries + [t])
  {
    hide Grown, WroteFile;
    var grown := tries + [t];
    forall k: nat | k < |grown| ensures GaveUp(c, start, runs, selection, grown, k) {
      if k < |tries| {
        assert GaveUp(c, start, runs, selection, tries, k);
      }
    }
  }

  /** Its first unplaced run was left unsealed. */
  lemma {:induction false} UnplacedIsUnsealed(c: Codec, start: Plane, p0: Plane, p1: Plane, runs: seq<RunId>,
                                              selection: Selection, takens: seq<Taken>, rows: seq<CaseRow>, w: Written)
    requires WroteFile(c, p0, p1, runs, Some(selection), takens, rows, w) && w.unplaced != [] && Grown(start, p0)
    ensures w.unplaced[0] in runs && LeftUnsealed(start, p1, w.unplaced[0])
  {
    hide IdsCarried, StampsTaken, CheckpointOf, FileOf, TrailerFor, HasSealingConclusion, HonestRun, PathFor;
    var i := UnplacedTaken(takens, w.unplaced[0]);
    assert TakenFrom(c, p0, p1, true, takens[i]) && takens[i].run == runs[i];
    NothingSeals();
    var records := RecordsOf(p1, runs[i]);
    assert records[..|takens[i].records|] == takens[i].records;
    NotPlaced(p0, runs[i]);
  }

  lemma UnsealedEarlier(p: Plane, q: Plane, q1: Plane, run: RunId)
    requires Grown(p, q) && LeftUnsealed(q, q1, run)
    ensures LeftUnsealed(p, q1, run)
  {
    hide HasSealingConclusion;
  }

  lemma NothingSeals()
    ensures !HasSealingConclusion([])
  {
  }

  lemma NotPlaced(p: Plane, run: RunId)
    requires PositionOf(p, run).None?
    ensures run !in p.log
  {
  }

  method WritePlaced(store: Store, runs: seq<RunId>, selection: Selection)
    returns (r: Result<Written, PackageError>, ghost p0: Plane, ghost p1: Plane, ghost takens: seq<Taken>,
             ghost rows: seq<CaseRow>, ghost tries: seq<Attempt>)
    requires Honest(store.c, store.View())
    modifies store`runs, store`log, store`cases, store`schedule
    ensures Grown(old(store.View()), store.View()) && Honest(store.c, store.View()) && store.leases == old(store.leases)
    ensures r.Ok? ==>
              Honest(store.c, p0) && Grown(old(store.View()), p0) && Grown(p0, p1) &&
              WroteFile(store.c, p0, p1, runs, Some(selection), takens, rows, r.value) && r.value.unplaced == []
    ensures r.Err? ==> r.error.StoreFailed? || (r.error.NotSealedYet? && r.error.run in runs)
    ensures NeverDown(old(store.schedule)) && r.Err? ==> !r.error.StoreFailed?
    ensures AllGaveUp(store.c, old(store.View()), runs, selection, tries)
    ensures r.Err? && r.error.NotSealedYet? ==>
              |tries| == PACKAGE_ATTEMPTS && [r.error.run] <= tries[|tries| - 1].written.unplaced &&
              LeftUnsealed(old(store.View()), store.View(), r.error.run)
    ensures old(store.schedule) == [] ==> store.schedule == [] && store.View() == old(store.View())
    ensures old(store.schedule) == [] ==> (r.Ok? <==> AllSettled(store.View(), runs))
  {
    hide Honest, Grown, WroteFile, Missed, AllSettled, LeftUnsealed;
    ghost var start := store.View();
    GrownIsReflexive(start);
    var attempts := 0;
    tries := [];
    while true
      invariant Honest(store.c, store.View()) && Grown(start, store.View()) && store.leases == old(store.leases)
      invariant attempts < PACKAGE_ATTEMPTS && attempts == |tries|
      invariant NeverDown(old(store.schedule)) ==> NeverDown(store.schedule)
      invariant AllGaveUp(store.c, start, runs, selection, tries)
      invariant store.View() == (if tries == [] then start else tries[|tries| - 1].p1)
      invariant old(store.schedule) == [] ==> store.schedule == [] && store.View() == start
      decreases PACKAGE_ATTEMPTS - attempts
    {
      ghost var q := store.View();
      var written;
      ghost var at;
      written, p0, takens, rows, at := WriteFile(store, runs, Some(selection));
      p1 := store.View();
      attempts := attempts + 1;
      GrownIsTransitive(start, q, p1);
      match written {
        case Err(e) => return Err(StoreFailed(e)), p0, p1, takens, rows, tries;
        case Ok(w) =>
          GrownIsTransitive(start, q, p0);
          if old(store.schedule) == [] {
            QuietUnplaced(store.c, start, runs, Some(selection), takens, rows, at, w);
          }
          if w.unplaced == [] {
            return Ok(w), p0, p1, takens, rows, tries;
          }
          ghost var failed := Attempt(p0, p1, takens, rows, w);
          OneMoreGaveUp(store.c, start, q, runs, selection, tries, failed);
          UnplacedIsUnsealed(store.c, start, p0, p1, runs, selection, takens, rows, w);
          tries := tries + [failed];
          if attempts >= PACKAGE_ATTEMPTS {
            return Err(NotSealedYet(w.unplaced[0])), p0, p1, takens, rows, tries;
          }
      }
    }
  }

  /** No run concluded under an outcome that seals and not yet sealed. */
  ghost predicate AllSettled(p: Plane, runs: seq<RunId>) {
    forall i :: 0 <= i < |runs| && HasSealingConclusion(RecordsOf(p, runs[i])) ==> runs[i] in p.log
  }

  /** Over a quiet store a package is left with nothing unplaced exactly when no
      run of it is between its conclusion and its seal. */
  lemma {:induction false} QuietUnplaced(c: Codec, p: Plane, runs: seq<RunId>, package: Option<Selection>,
                                         takens: seq<Taken>, rows: seq<CaseRow>, at: seq<nat>, w: Written)
    requires WroteFile(c, p, p, runs, package, takens, rows, w) && package.Some? && Missed(p, takens, [], at)
    ensures w.unplaced == [] <==> AllSettled(p, runs)
  {
    hide IdsCarried, StampsTaken, CheckpointOf, FileOf, TrailerFor, HasSealingConclusion, HonestRun;
    forall i | 0 <= i < |runs|
      ensures takens[i].run == runs[i] && takens[i].records == RecordsOf(p, runs[i]) &&
              (takens[i].placed.Some? <==> runs[i] in p.log)
    {
      assert MissedFor(p, takens[i], [], at[i]);
    }
    if w.unplaced != [] {
      var i := UnplacedTaken(takens, w.unplaced[0]);
      assert takens[i].run == runs[i];
    } else {
      forall i | 0 <= i < |runs| && HasSealingConclusion(RecordsOf(p, runs[i])) ensures runs[i] in p.log {
        NoneUnplaced(takens, i);
      }
    }
  }

  lemma {:induction false} UnplacedTaken(takens: seq<Taken>, run: RunId) returns (i: nat)
    requires run in Unplaced(takens)
    ensures i < |takens| && takens[i].run == run && takens[i].placed.None? && HasSealingConclusion(takens[i].records)
  {
    hide HasSealingConclusion;
    var n := |takens| - 1;
    if run in Unplaced(takens[..n]) {
      i := UnplacedTaken(takens[..n], run);
    } else {
      i := n;
    }
  }

  /** What a package carried, for the act that records it. */
  datatype Package = Package(checkpoint: Checkpoint, runs: seq<RunId>, cases: seq<CaseId>, trailer: TrailerFields,
                             lines: seq<Line>)

  /** `runs` are exactly those the selection names or its cases held, as the store
      held them at some time between two planes. */
  ghost predicate NamesOnly(p: Plane, q: Plane, selection: Selection, runs: seq<RunId>) {
    exists matters :: NamedThrough(p, q, selection, matters, runs)
  }

  ghost predicate NamedThrough(p: Plane, q: Plane, selection: Selection, matters: seq<CaseRow>, runs: seq<RunId>) {
    |matters| == |selection.cases| &&
    (forall i :: 0 <= i < |matters| ==> matters[i].case_.id == selection.cases[i] && HeldBetween(p, q, matters[i])) &&
    forall run :: run in runs <==>
      run in selection.runs || exists i :: 0 <= i < |matters| && run in matters[i].case_.runs
  }

  /** A package fit to be handed over: the writer's file over every run of the
      selection, each once, with every sealing conclusion placed. */
  ghost predicate Fit(c: Codec, selection: Selection, package: Package, p0: Plane, p1: Plane, takens: seq<Taken>,
                      rows: seq<CaseRow>) {
    package.checkpoint == CheckpointOf(c.hash, p0) && package.trailer == TrailerFor(takens, rows) &&
    package.cases == IdsOf(rows) &&
    package.lines == FileOf(c, package.checkpoint, Some(selection), takens, rows) &&
    ExportVerifies.Written(c, None, [], p0, p1, package.runs, Some(selection), takens, rows) &&
    Unplaced(takens) == [] && (forall i :: 0 <= i < |selection.runs| ==> selection.runs[i] in package.runs) &&
    IsSound(Verify(c, None, [], package.lines))
  }

  /** A run the selection names, or a case it names does. */
  predicate NamedBy(p: Plane, selection: Selection, run: RunId) {
    run in selection.runs ||
    exists i :: 0 <= i < |selection.cases| && selection.cases[i] in p.cases &&
        run in p.cases[selection.cases[i]].case_.runs
  }

  /** A package a quiet store can be asked for: everything it names is held, and
      none of its runs is between its conclusion and its seal. */
  ghost predicate Buildable(p: Plane, selection: Selection) {
    Held(p, selection) &&
    forall run: RunId :: NamedBy(p, selection, run) && HasSealingConclusion(RecordsOf(p, run)) ==> run in p.log
  }

  lemma {:induction false} RunsNamedHolds(matters: seq<CaseRow>, run: RunId)
    ensures run in RunsNamed(matters) <==> exists i :: 0 <= i < |matters| && run in matters[i].case_.runs
  {
    if matters != [] {
      RunsNamedHolds(matters[..|matters| - 1], run);
      assert run in RunsNamed(matters) <==>
             run in RunsNamed(matters[..|matters| - 1]) || run in matters[|matters| - 1].case_.runs;
    }
  }

  /** The runs resolved are those named, so they are settled together. */
  lemma SettledRuns(p: Plane, selection: Selection, matters: seq<CaseRow>, runs: seq<RunId>)
    requires AreMatters(p, selection.cases, matters) && runs == Dedupe(RunsNamed(matters) + selection.runs)
    ensures AllSettled(p, runs) <==>
            forall run: RunId :: NamedBy(p, selection, run) && HasSealingConclusion(RecordsOf(p, run)) ==> run in p.log
  {
    hide HasSealingConclusion, Dedupe, RunsNamed;
    DedupeOnce(RunsNamed(matters) + selection.runs);
    forall run: RunId ensures run in runs <==> NamedBy(p, selection, run) {
      RunsNamedHolds(matters, run);
    }
    forall i | 0 <= i < |runs| ensures NamedBy(p, selection, runs[i]) {
      assert runs[i] in runs;
    }
  }

  lemma {:induction false} NamedAre(p: Plane, q: Plane, p0: Plane, selection: Selection, matters: seq<CaseRow>,
                                    runs: seq<RunId>)
    requires Grown(q, p0) && runs == Dedupe(RunsNamed(matters) + selection.runs) && |matters| == |selection.cases|
    requires forall i :: 0 <= i < |matters| ==> matters[i].case_.id == selection.cases[i] && HeldBetween(p, q, matters[i])
    ensures NamesOnly(p, p0, selection, runs)
  {
    hide Grown, Dedupe, RunsNamed, HeldBetween;
    HeldLater(p, q, p0, matters);
    DedupeOnce(RunsNamed(matters) + selection.runs);
    forall run ensures run in runs <==>
                       run in selection.runs || exists i :: 0 <= i < |matters| && run in matters[i].case_.runs
    {
      RunsNamedHolds(matters, run);
    }
    assert NamedThrough(p, p0, selection, matters, runs);
  }

  /** Build a package in memory.  Over a quiet store that is refused exactly when
      the selection names nothing or something not held, or one of its runs is
      between its conclusion and its seal. */
  method BuildPackage(store: Store, selection: Selection)
    returns (r: Result<Package, PackageError>, ghost p0: Plane, ghost p1: Plane, ghost takens: seq<Taken>,
             ghost rows: seq<CaseRow>)
    requires Honest(store.c, store.View())
    modifies store`runs, store`log, store`cases, store`schedule
    ensures Grown(old(store.View()), store.View()) && Honest(store.c, store.View()) && store.leases == old(store.leases)
    ensures r.Ok? ==>
              Fit(store.c, selection, r.value, p0, p1, takens, rows) && Grown(old(store.View()), p0) &&
              NamesOnly(old(store.View()), p0, selection, r.value.runs)
    ensures r.Err? ==> !r.error.WriteFailed? && Blames(old(store.View()), store.View(), selection, r.error)
    ensures NeverDown(old(store.schedule)) && r.Err? ==> !r.error.StoreFailed?
    ensures selection.cases == [] && selection.runs == [] ==> r == Err(NamesNothing)
    ensures old(store.schedule) == [] ==> store.View() == old(store.View())
    ensures old(store.schedule) == [] ==> (r.Ok? <==> Buildable(store.View(), selection))
  {
    hide Honest, Grown, WroteFile, AllSettled, AreMatters, Dedupe, NamedBy, Held, FileOf, CheckpointOf,
         ExportVerifies.Written, Verify, Unplaced, OnceEach, TrailerFor;
    p0, p1, takens, rows := store.View(), store.View(), [], [];
    var resolved; ghost var matters;
    resolved, matters := Resolve(store, selection);
    ghost var q := store.View();
    if resolved.Err? {
      return Err(resolved.error), p0, p1, takens, rows;
    }
    var runs := resolved.value;
    if store.schedule == [] && AreMatters(q, selection.cases, matters) {
      SettledRuns(q, selection, matters, runs);
    }
    var written;
    ghost var tries;
    written, p0, p1, takens, rows, tries := WritePlaced(store, runs, selection);
    GrownIsTransitive(old(store.View()), q, store.View());
    if written.Err? {
      if written.error.NotSealedYet? {
        UnsealedEarlier(old(store.View()), q, store.View(), written.error.run);
      }
      return Err(written.error), p0, p1, takens, rows;
    }
    CasesStay(q, p0);
    GrownIsTransitive(old(store.View()), q, p0);
    NamedAre(old(store.View()), q, p0, selection, matters, runs);
    PackageIsWritten(store.c, p0, p1, runs, selection, takens, rows, written.value);
    PackageVerifies(store.c, None, [], p0, p1, runs, selection, takens, rows);
    DedupeOnce(RunsNamed(matters) + selection.runs);
    forall i | 0 <= i < |selection.runs| ensures selection.runs[i] in runs {
      assert (RunsNamed(matters) + selection.runs)[|RunsNamed(matters)| + i] == selection.runs[i];
    }
    var w := written.value;
    return Ok(Package.Package(w.checkpoint, runs, w.cases, w.trailer, w.lines)), p0, p1, takens, rows;
  }

  /** A package handed over carries every run of the selection, each once, with
      every sealing conclusion it carries placed and proved below the header's
      size, and verifies sound.  Any refusal but a failed write leaves the
      destination as it was. */
  method PackageToJsonl(store: Store, selection: Selection, out_: Sink)
    returns (r: Result<Package, PackageError>, ghost p0: Plane, ghost p1: Plane, ghost takens: seq<Taken>,
             ghost rows: seq<CaseRow>)
    requires Honest(store.c, store.View())
    modifies store`runs, store`log, store`cases, store`schedule, out_
    ensures Grown(old(store.View()), store.View()) && Honest(store.c, store.View()) && store.leases == old(store.leases)
    ensures r.Ok? ==>
              out_.content == old(out_.content) + r.value.lines &&
              Fit(store.c, selection, r.value, p0, p1, takens, rows) && Grown(old(store.View()), p0) &&
              NamesOnly(old(store.View()), p0, selection, r.value.runs)
    ensures r.Err? && !r.error.WriteFailed? ==>
              out_.content == old(out_.content) && Blames(old(store.View()), store.View(), selection, r.error)
    ensures selection.cases == [] && selection.runs == [] ==> r.Err?
  {
    hide Honest, Grown, Fit, NamesOnly;
    r, p0, p1, takens, rows := BuildPackage(store, selection);
    if r.Ok? {
      var ok := out_.WriteAll(r.value.lines);
      if !ok {
        r := Err(WriteFailed);
      }
    }
  }

  /** Every sealing conclusion of a package fit to be handed over is placed and
      proved below the header's size. */
  lemma {:induction false} FitIsProved(c: Codec, selection: Selection, package: Package, p0: Plane, p1: Plane,
                                       takens: seq<Taken>, rows: seq<CaseRow>, i: nat)
    requires Fit(c, selection, package, p0, p1, takens, rows) && i < |takens|
    requires HasSealingConclusion(takens[i].records)
    ensures takens[i].placed.Some? && takens[i].placed.value.0 < package.checkpoint.size
    ensures LeafIsProved(c.hash, takens[i].placed.value.1, Some(takens[i].placed.value.0), takens[i].proof,
        package.checkpoint)
  {
    hide HonestRun, HasSealingConclusion, PositionOf, LogHashes, Merkle.InclusionProof, LeafIsProved, Verify, FileOf,
         TrailerFor, Root, IsSound;
    NoneUnplaced(takens, i);
    WrittenSays(c, None, [], p0, p1, package.runs, Some(selection), takens, rows);
    ProvesLeaf(c, p0, takens[i]);
    PositionSays(p0, takens[i].run);
  }

  lemma PackageIsWritten(c: Codec, p0: Plane, p1: Plane, runs: seq<RunId>, selection: Selection, takens: seq<Taken>,
                         rows: seq<CaseRow>, w: Written)
    requires Honest(c, p0) && Grown(p0, p1) && OnceEach(runs)
    requires WroteFile(c, p0, p1, runs, Some(selection), takens, rows, w) && w.unplaced == []
    ensures ExportVerifies.Written(c, None, [], p0, p1, runs, Some(selection), takens, rows)
    ensures w.lines == FileOf(c, CheckpointOf(c.hash, p0), Some(selection), takens, rows) && Unplaced(takens) == []
    ensures w.checkpoint == CheckpointOf(c.hash, p0) && w.trailer == TrailerFor(takens, rows) && w.cases == IdsOf(rows)
  {
    hide Honest, Grown, WrittenFrom, FileOf, CheckpointOf, Unplaced, TrailerFor, OnceEach;
  }
}
