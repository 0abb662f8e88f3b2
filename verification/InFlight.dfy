/** Selecting what to export: the walk over runs still in flight, by id cursor,
    while runs are admitted and written to, and the listing that joins it to
    the outcome indexes. */
module InFlight {
  import opened Wrappers
  import opened Hashing
  import opened Wire
  import opened Planes
  import opened Stores
  import opened Writers
  import opened ExportVerifies
  import opened Flights

  /** In flight at every moment between two planes. */
  ghost predicate Throughout(p: Plane, q: Plane, run: RunId) {
    run in p.runs &&
    forall n: nat :: |RecordsOf(p, run)| <= n <= |RecordsOf(q, run)| ==> Going(RecordsOf(q, run)[..n])
  }

  /** In flight at some moment up to `q`. */
  ghost predicate Once(q: Plane, run: RunId) {
    exists n: nat :: n <= |RecordsOf(q, run)| && Going(RecordsOf(q, run)[..n])
  }

  lemma ThroughoutAt(p: Plane, q: Plane, r: Plane, run: RunId)
    requires Grown(p, q) && Grown(q, r) && Throughout(p, r, run)
    ensures Going(RecordsOf(q, run))
  {
    RecordsGrow(p, q, run);
    RecordsGrow(q, r, run);
    assert RecordsOf(r, run)[..|RecordsOf(q, run)|] == RecordsOf(q, run);
  }

  lemma ThroughoutEarlier(p: Plane, q: Plane, r: Plane, run: RunId)
    requires Grown(p, q) && Grown(q, r) && Throughout(p, r, run)
    ensures Throughout(p, q, run)
  {
    hide Going;
    RecordsGrow(p, q, run);
    RecordsGrow(q, r, run);
    forall n: nat | |RecordsOf(p, run)| <= n <= |RecordsOf(q, run)| ensures Going(RecordsOf(q, run)[..n]) {
      assert RecordsOf(r, run)[..n] == RecordsOf(q, run)[..n];
    }
  }

  lemma OnceStays(q: Plane, r: Plane, run: RunId)
    requires Grown(q, r) && Once(q, run)
    ensures Once(r, run)
  {
    hide Going;
    var n: nat :| n <= |RecordsOf(q, run)| && Going(RecordsOf(q, run)[..n]);
    RecordsGrow(q, r, run);
    assert RecordsOf(r, run)[..n] == RecordsOf(q, run)[..n];
  }

  lemma RecordsGrow(p: Plane, q: Plane, run: RunId)
    requires Grown(p, q)
    ensures RecordsOf(p, run) <= RecordsOf(q, run)
  {
  }

  lemma HeldHasHead(c: Codec, p: Plane, run: RunId)
    requires Honest(c, p)
    ensures HeadOf(RecordsOf(p, run)).seq_ == |RecordsOf(p, run)|
    ensures run in p.runs ==> RecordsOf(p, run) != []
  {
    hide HonestRecord, Stamped, Concluded;
    if run in p.runs {
      HonestLast(c, run, p.runs[run]);
    }
  }

  lemma RunsStay(p: Plane, q: Plane)
    requires Grown(p, q)
    ensures p.runs.Keys <= q.runs.Keys
  {
  }

  /** Listed in id order, each at most once, each in flight when it was read. */
  ghost predicate Listing(q: Plane, runs: seq<RunId>) {
    (forall i, j :: 0 <= i < j < |runs| ==> runs[i] < runs[j]) && forall i :: 0 <= i < |runs| ==> Once(q, runs[i])
  }

  /** Everything the cursor has passed is accounted for. */
  ghost predicate Covered(p: Plane, q: Plane, found: Flight, after: Option<RunId>) {
    forall run: RunId :: run in p.runs && !Beyond(after, run) && Throughout(p, q, run) ==>
      run in found.runs || run in found.unreadable
  }

  /** One candidate: its head's sequence, then that record on. */
  method Look(store: Store, run: RunId, found: Flight, ghost p0: Plane) returns (r: Result<Flight, StoreError>)
    requires Honest(store.c, store.View()) && Grown(p0, store.View()) && Listing(store.View(), found.runs)
    requires found.runs != [] ==> found.runs[|found.runs| - 1] < run
    modifies store`runs, store`log, store`cases, store`schedule
    ensures Grown(old(store.View()), store.View()) && Honest(store.c, store.View()) && store.leases == old(store.leases)
    ensures |store.schedule| <= old(|store.schedule|)
    ensures old(store.schedule) == [] ==> store.schedule == [] && store.View() == old(store.View())
    ensures r.Ok? ==>
              Listing(store.View(), r.value.runs) && |r.value.runs| <= |found.runs| + 1 &&
              (r.value.runs == found.runs || r.value.runs == found.runs + [run]) &&
              found.unreadable <= r.value.unreadable && r.value.truncated == found.truncated &&
              (run in p0.runs && Throughout(p0, store.View(), run) ==> run in r.value.runs || run in r.value.unreadable)
    ensures old(store.schedule) == [] ==>
              r.Ok? && r.value.unreadable == found.unreadable &&
              r.value.runs == if Going(RecordsOf(store.View(), run)) then found.runs + [run] else found.runs
  {
    hide Honest, Grown, Listing, Throughout, Going, HeadOf;
    NothingGoes();
    ghost var start := store.View();
    var head := store.CurrentHead(run);
    ghost var q1 := store.View();
    GrownIsTransitive(p0, start, q1);
    HeldHasHead(store.c, q1, run);
    ListingStays(start, q1, found.runs);
    if head.Err? {
      return Err(head.error);
    }
    if head.value.seq_ == 0 {
      if run in p0.runs {
        RunsStay(p0, q1);
      }
      return Ok(found);
    }
    var last := store.Read(run, head.value.seq_);
    ghost var q2 := store.View();
    GrownIsTransitive(start, q1, q2);
    GrownIsTransitive(p0, q1, q2);
    GrownIsReflexive(q2);
    ListingStays(q1, q2, found.runs);
    if last.Err? {
      assert (found.unreadable + [run])[|found.unreadable|] == run;
      return Ok(found.(unreadable := found.unreadable + [run]));
    }
    RecordsGrow(q1, q2, run);
    LastTells(q2, run, head.value.seq_);
    if Going(last.value) {
      ListingGrows(q2, found.runs, run);
      assert (found.runs + [run])[|found.runs|] == run;
      return Ok(found.(runs := found.runs + [run]));
    }
    if run in p0.runs && Throughout(p0, q2, run) {
      ThroughoutAt(p0, q2, q2, run);
    }
    return Ok(found);
  }

  lemma NothingGoes()
    ensures !Going([])
  {
  }

  lemma LastTells(q: Plane, run: RunId, from: nat)
    requires 0 < from <= |RecordsOf(q, run)|
    ensures Going(ReadFrom(RecordsOf(q, run), from)) == Going(RecordsOf(q, run))
  {
  }

  lemma ListingStays(q: Plane, r: Plane, runs: seq<RunId>)
    requires Grown(q, r) && Listing(q, runs)
    ensures Listing(r, runs)
  {
    hide Grown, Once;
    forall i | 0 <= i < |runs| ensures Once(r, runs[i]) {
      OnceStays(q, r, runs[i]);
    }
  }

  lemma ListingGrows(q: Plane, runs: seq<RunId>, run: RunId)
    requires Listing(q, runs) && Going(RecordsOf(q, run)) && (runs != [] ==> runs[|runs| - 1] < run)
    ensures Listing(q, runs + [run])
  {
    hide Going;
    assert RecordsOf(q, run)[..|RecordsOf(q, run)|] == RecordsOf(q, run);
    assert Once(q, run);
  }

  /** On a quiet store, what the first `n` runs of a page add to a listing. */
  ghost predicate Looked(p: Plane, page: seq<RunId>, n: nat, before: Flight, found: Flight)
    requires n <= |page|
  {
    found.unreadable == before.unreadable &&
    (forall run :: run in found.runs ==> run in before.runs || Going(RecordsOf(p, run))) &&
    forall j :: 0 <= j < n && Going(RecordsOf(p, page[j])) ==> page[j] in found.runs
  }

  lemma LooksOn(p: Plane, page: seq<RunId>, n: nat, before: Flight, found: Flight, grown: Flight)
    requires n < |page| && Looked(p, page, n, before, found) && grown.unreadable == found.unreadable
    requires grown.runs == if Going(RecordsOf(p, page[n])) then found.runs + [page[n]] else found.runs
    ensures Looked(p, page, n + 1, before, grown)
  {
    hide Going;
    if Going(RecordsOf(p, page[n])) {
      assert grown.runs[|found.runs|] == page[n];
    }
  }

  /** Where the walk through a page stands before its run `i`. */
  ghost predicate Looking(p: Plane, q: Plane, page: seq<RunId>, i: nat, before: Flight, found: Flight, limit: nat)
    requires i <= |page|
  {
    Listing(q, found.runs) && |found.runs| <= limit && !found.truncated &&
    before.runs <= found.runs && before.unreadable <= found.unreadable &&
    (found.runs != [] ==> (i > 0 && found.runs[|found.runs| - 1] <= page[i - 1]) || found.runs == before.runs) &&
    (|found.runs| == limit ==> i > 0 && limit > 0 && found.runs[limit - 1] == page[i - 1]) &&
    forall j :: 0 <= j < i && page[j] in p.runs && Throughout(p, q, page[j]) ==>
      page[j] in found.runs || page[j] in found.unreadable
  }

  lemma {:induction false} LookingOn(p: Plane, q: Plane, r: Plane, page: seq<RunId>, i: nat, before: Flight,
                                     found: Flight, grown: Flight, limit: nat)
    requires i < |page| && Looking(p, q, page, i, before, found, limit) && |found.runs| < limit
    requires Grown(p, q) && Grown(q, r) && (forall a, b :: 0 <= a < b < |page| ==> page[a] < page[b])
    requires Listing(r, grown.runs) && !grown.truncated && found.unreadable <= grown.unreadable
    requires grown.runs == found.runs || grown.runs == found.runs + [page[i]]
    requires page[i] in p.runs && Throughout(p, r, page[i]) ==> page[i] in grown.runs || page[i] in grown.unreadable
    ensures Looking(p, r, page, i + 1, before, grown, limit)
  {
    hide Grown, Listing, Throughout;
    forall j | 0 <= j <= i && page[j] in p.runs && Throughout(p, r, page[j])
      ensures page[j] in grown.runs || page[j] in grown.unreadable
    {
      if j < i {
        ThroughoutEarlier(p, q, r, page[j]);
      }
    }
  }

  /** One page of candidates; the walk stops in it once the limit is reached.
      `n` is how many of them were looked at. */
  method LookThrough(store: Store, page: seq<RunId>, before: Flight, limit: nat, ghost p0: Plane,
                     ghost after: Option<RunId>)
    returns (r: Result<Flight, StoreError>, stopped: bool, ghost n: nat)
    requires Honest(store.c, store.View()) && Grown(p0, store.View()) && Listing(store.View(), before.runs)
    requires |before.runs| < limit && !before.truncated
    requires forall i, j :: 0 <= i < j < |page| ==> page[i] < page[j]
    requires forall i :: 0 <= i < |page| ==> Beyond(after, page[i])
    requires before.runs != [] ==> after.Some? && before.runs[|before.runs| - 1] <= after.value
    modifies store`runs, store`log, store`cases, store`schedule
    ensures Grown(old(store.View()), store.View()) && Honest(store.c, store.View()) && store.leases == old(store.leases)
    ensures |store.schedule| <= old(|store.schedule|)
    ensures old(store.schedule) == [] ==> store.schedule == [] && store.View() == old(store.View())
    ensures r.Ok? ==>
              n <= |page| && Looking(p0, store.View(), page, n, before, r.value.(truncated := false), limit) &&
              r.value.truncated == stopped && (stopped <==> |r.value.runs| == limit && n < |page|) &&
              (!stopped ==> n == |page|)
    ensures old(store.schedule) == [] ==> r.Ok? && n <= |page| && Looked(store.View(), page, n, before, r.value)
  {
    hide Honest, Grown, Listing, Throughout, Going, Looked, Looking;
    var found := before;
    stopped, n := false, 0;
    NothingLooked(p0, store.View(), page, before, limit);
    GrownIsReflexive(store.View());
    for i := 0 to |page|
      invariant Honest(store.c, store.View()) && store.leases == old(store.leases)
      invariant Grown(old(store.View()), store.View()) && Grown(p0, store.View())
      invariant |store.schedule| <= old(|store.schedule|)
      invariant old(store.schedule) == [] ==> store.schedule == [] && store.View() == old(store.View())
      invariant n == i && Looking(p0, store.View(), page, i, before, found, limit)
      invariant old(store.schedule) == [] ==> Looked(store.View(), page, i, before, found)
    {
      LookingSays(p0, store.View(), page, i, before, found, limit, after);
      if |found.runs| == limit {
        if old(store.schedule) == [] {
          FlagAside(store.View(), page, i, before, found);
        }
        return Ok(found.(truncated := true)), true, n;
      }
      ghost var q := store.View();
      var looked := Look(store, page[i], found, p0);
      GrownIsTransitive(old(store.View()), q, store.View());
      GrownIsTransitive(p0, q, store.View());
      if looked.Err? {
        return Err(looked.error), false, n;
      }
      LookingOn(p0, q, store.View(), page, i, before, found, looked.value, limit);
      if old(store.schedule) == [] {
        LooksOn(store.View(), page, i, before, found, looked.value);
      }
      found, n := looked.value, i + 1;
    }
    LookedToTheEnd(p0, store.View(), page, before, found, limit);
    return Ok(found), false, n;
  }

  lemma LookingSays(p: Plane, q: Plane, page: seq<RunId>, i: nat, before: Flight, found: Flight, limit: nat,
                    after: Option<RunId>)
    requires i < |page| && Looking(p, q, page, i, before, found, limit)
    requires (forall a, b :: 0 <= a < b < |page| ==> page[a] < page[b]) && Beyond(after, page[i])
    requires before.runs != [] ==> after.Some? && before.runs[|before.runs| - 1] <= after.value
    ensures Listing(q, found.runs) && |found.runs| <= limit && !found.truncated && found == found.(truncated := false)
    ensures found.runs != [] ==> found.runs[|found.runs| - 1] < page[i]
  {
    hide Listing, Throughout;
  }

  lemma LookedSays(p: Plane, q: Plane, page: seq<RunId>, n: nat, before: Flight, found: Flight, limit: nat)
    requires n <= |page| && Looking(p, q, page, n, before, found.(truncated := false), limit)
    requires forall i, j :: 0 <= i < j < |page| ==> page[i] < page[j]
    ensures Listing(q, found.runs) && |found.runs| <= limit && before.runs <= found.runs &&
            before.unreadable <= found.unreadable
    ensures |found.runs| == limit ==> n > 0 && limit > 0 && found.runs[limit - 1] == page[n - 1]
    ensures found.runs != [] ==>
              found.runs == before.runs || (page != [] && found.runs[|found.runs| - 1] <= page[|page| - 1])
    ensures n == |page| ==>
              forall i :: 0 <= i < |page| && page[i] in p.runs && Throughout(p, q, page[i]) ==>
                page[i] in found.runs || page[i] in found.unreadable
  {
    hide Listing, Throughout;
  }

  lemma {:induction false} LookedToTheEnd(p: Plane, q: Plane, page: seq<RunId>, before: Flight, found: Flight,
                                          limit: nat)
    requires Looking(p, q, page, |page|, before, found, limit)
    ensures found == found.(truncated := false) && !found.truncated
  {
    hide Listing, Throughout;
  }

  lemma NothingLooked(p: Plane, q: Plane, page: seq<RunId>, before: Flight, limit: nat)
    requires Listing(q, before.runs) && |before.runs| < limit && !before.truncated
    ensures Looked(q, page, 0, before, before) && Looking(p, q, page, 0, before, before, limit)
  {
    hide Listing, Throughout;
  }

  lemma FlagAside(p: Plane, page: seq<RunId>, n: nat, before: Flight, found: Flight)
    requires n <= |page| && Looked(p, page, n, before, found)
    ensures Looked(p, page, n, before, found.(truncated := true))
  {
  }

  lemma CoveredGrows(c: Codec, p: Plane, q: Plane, r: Plane, before: Flight, found: Flight, after: Option<RunId>,
                     page: seq<RunId>, keys: set<nat>)
    requires Grown(p, q) && Grown(q, r) && Covered(p, q, before, after)
    requires before.runs <= found.runs && before.unreadable <= found.unreadable
    requires IsPage(keys, after, CASE_PAGE, page) && page != [] && p.runs.Keys <= keys
    requires forall i :: 0 <= i < |page| && page[i] in p.runs && Throughout(p, r, page[i]) ==>
               page[i] in found.runs || page[i] in found.unreadable
    ensures Covered(p, r, found, Some(page[|page| - 1]))
  {
    hide Grown, Throughout;
    forall run: RunId | run in p.runs && !Beyond(Some(page[|page| - 1]), run) && Throughout(p, r, run)
      ensures run in found.runs || run in found.unreadable
    {
      if !Beyond(after, run) {
        ThroughoutEarlier(p, q, r, run);
      } else {
        assert run in page;
      }
    }
  }

  /** Where the walk stands: what it lists is listed in order, no further than
      the cursor, and nothing the cursor passed is missing. */
  ghost predicate Walked(p: Plane, q: Plane, found: Flight, after: Option<RunId>, limit: nat) {
    Listing(q, found.runs) && |found.runs| <= limit && !found.truncated && Covered(p, q, found, after) &&
    (found.runs != [] ==> after.Some? && found.runs[|found.runs| - 1] <= after.value)
  }

  /** What the walk ends with. */
  ghost predicate Ended(p: Plane, q: Plane, found: Flight, limit: nat) {
    Listing(q, found.runs) && |found.runs| <= limit && (found.truncated ==> |found.runs| == limit) &&
    (|found.runs| < limit ==>
       forall run: RunId :: Throughout(p, q, run) ==> run in found.runs || run in found.unreadable)
  }

  /** A page of all runs, read while the walk went on. */
  ghost predicate WasPage(p: Plane, q: Plane, page: seq<RunId>) {
    exists r, after: Option<RunId> :: Grown(p, r) && Grown(r, q) && IsPage(r.runs.Keys, after, CASE_PAGE, page)
  }

  /** A full listing is said to be cut short exactly when the page that held its
      last run held another one behind it. */
  ghost predicate CutRight(p: Plane, q: Plane, f: Flight, limit: nat, page: seq<RunId>) {
    |f.runs| == limit && limit > 0 ==>
      WasPage(p, q, page) && page != [] && f.runs[limit - 1] in page &&
      (f.truncated <==> f.runs[limit - 1] != page[|page| - 1])
  }

  /** Where the walk over a quiet store stands. */
  ghost predicate QuietWalk(p: Plane, found: Flight, after: Option<RunId>) {
    found.unreadable == [] && (forall run :: run in found.runs ==> Going(RecordsOf(p, run))) &&
    (forall run: RunId :: Going(RecordsOf(p, run)) && !Beyond(after, run) ==> run in found.runs) &&
    Aligned(p.runs.Keys, after)
  }

  /** A page looked through to its end. */
  lemma QuietOn(p: Plane, before: Flight, found: Flight, after: Option<RunId>, page: seq<RunId>)
    requires QuietWalk(p, before, after) && IsPage(p.runs.Keys, after, CASE_PAGE, page) && page != []
    requires Looked(p, page, |page|, before, found) && before.runs <= found.runs
    ensures QuietWalk(p, found, Some(page[|page| - 1]))
  {
    hide Aligned, Going;
    PageAligns(p.runs.Keys, after, page, |page| - 1);
    forall run: RunId | Going(RecordsOf(p, run)) && !Beyond(Some(page[|page| - 1]), run) ensures run in found.runs {
      if Beyond(after, run) {
        GoingIsHeld(p, run);
        assert run in page;
      } else {
        assert run in before.runs;
      }
    }
  }

  lemma GoingIsHeld(p: Plane, run: RunId)
    requires Going(RecordsOf(p, run))
    ensures run in p.runs.Keys
  {
  }

  /** The walk ends at an empty page. */
  lemma QuietAtTheEnd(p: Plane, found: Flight, after: Option<RunId>, limit: nat)
    requires QuietWalk(p, found, after) && IsPage(p.runs.Keys, after, CASE_PAGE, [])
    requires |found.runs| < limit && !found.truncated && Rising(found.runs)
    ensures IsFlight(p, limit, found)
  {
    hide Aligned, Going, CutAt;
    forall run: RunId | Going(RecordsOf(p, run)) ensures run in found.runs {
      GoingIsHeld(p, run);
    }
  }

  ghost predicate Rising(runs: seq<RunId>) {
    forall i, j :: 0 <= i < j < |runs| ==> runs[i] < runs[j]
  }

  lemma ListingRises(q: Plane, runs: seq<RunId>)
    requires Listing(q, runs)
    ensures Rising(runs)
  {
  }

  /** The walk stops inside a page. */
  lemma QuietAtTheLimit(p: Plane, before: Flight, found: Flight, after: Option<RunId>, page: seq<RunId>, n: nat,
                        limit: nat)
    requires QuietWalk(p, before, after) && IsPage(p.runs.Keys, after, CASE_PAGE, page) && 0 < n < |page|
    requires Looked(p, page, n, before, found) && before.runs <= found.runs && Rising(found.runs)
    requires |found.runs| == limit && limit > 0 && found.runs[limit - 1] == page[n - 1] && found.truncated
    ensures IsFlight(p, limit, found)
  {
    hide Aligned, Going, CutAt;
    PageCuts(p.runs.Keys, after, page, n - 1);
    forall run: RunId | Going(RecordsOf(p, run)) ensures run in found.runs || found.runs[limit - 1] < run {
      GoingIsHeld(p, run);
      if Beyond(after, run) {
        if run in page {
          var j :| 0 <= j < |page| && page[j] == run;
          assert j >= n ==> page[n - 1] < page[j];
        }
      } else {
        assert run in before.runs;
      }
    }
  }

  lemma PageCuts(keys: set<nat>, after: Option<nat>, page: seq<nat>, i: nat)
    requires IsPage(keys, after, CASE_PAGE, page) && Aligned(keys, after) && i < |page|
    ensures CutAt(keys, page[i]) <==> i < |page| - 1
  {
    PageAligns(keys, after, page, i);
  }

  /** The walk stops between two pages. */
  lemma QuietBetweenPages(p: Plane, found: Flight, after: Option<RunId>, limit: nat)
    requires QuietWalk(p, found, after) && |found.runs| == limit && !found.truncated && Rising(found.runs)
    requires limit > 0 ==> after == Some(found.runs[limit - 1])
    ensures IsFlight(p, limit, found)
  {
    hide Going, Rank, AnyAfter;
  }

  /** One page of the walk; `more` unless there was none or the limit stopped
      it.  `page` is the page read. */
  method NextPage(store: Store, before: Flight, after: Option<RunId>, limit: nat, ghost p0: Plane)
    returns (r: Result<Flight, StoreError>, next: Option<RunId>, more: bool, ghost page: seq<RunId>)
    requires Honest(store.c, store.View()) && Grown(p0, store.View()) && Walked(p0, store.View(), before, after, limit)
    requires |before.runs| < limit
    modifies store`runs, store`log, store`cases, store`schedule
    ensures Grown(p0, store.View()) && Honest(store.c, store.View()) && store.leases == old(store.leases)
    ensures r.Ok? && more ==> Walked(p0, store.View(), r.value, next, limit)
    ensures r.Ok? && !more ==> Ended(p0, store.View(), r.value, limit)
    ensures r.Ok? && more ==>
              |store.schedule| < old(|store.schedule|) ||
              (store.schedule == [] && old(store.schedule) == [] &&
               |Ahead(store.runs.Keys, next)| < old(|Ahead(store.runs.Keys, after)|))
    ensures r.Ok? ==> CutRight(p0, store.View(), r.value, limit, page)
    ensures r.Ok? && more && |r.value.runs| == limit ==> next == Some(r.value.runs[limit - 1])
    ensures old(store.schedule) == [] ==> r.Ok? && store.schedule == [] && store.View() == old(store.View())
    ensures old(store.schedule) == [] && QuietWalk(store.View(), before, after) ==>
              if more then QuietWalk(store.View(), r.value, next) else IsFlight(store.View(), limit, r.value)
  {
    hide Honest, Grown, Listing, Throughout, IsPage, Covered, Beyond, Ahead, Looked, Looking, QuietWalk, IsFlight,
         WasPage;
    next, more, page := after, false, [];
    ghost var q := store.View();
    var read := store.RunsById(after, CASE_PAGE);
    ghost var q1 := store.View();
    GrownIsTransitive(p0, q, q1);
    if read.Err? {
      return Err(read.error), next, false, page;
    }
    page := read.value;
    ListingStays(q, q1, before.runs);
    CoveredStays(p0, q, q1, before, after);
    RunsStay(p0, q1);
    if read.value == [] {
      EmptyPage(p0, q1, before, after, q1.runs.Keys);
      ListingRises(q1, before.runs);
      if old(store.schedule) == [] && QuietWalk(q1, before, after) {
        QuietAtTheEnd(q1, before, after, limit);
      }
      return Ok(before), next, false, page;
    }
    PageInOrder(q1.runs.Keys, after, page);
    PageEnds(q1.runs.Keys, after, CASE_PAGE, page);
    AheadShrinks(q1.runs.Keys, after, page[|page| - 1]);
    var looked, stopped, n := LookThrough(store, read.value, before, limit, p0, after);
    GrownIsTransitive(p0, q1, store.View());
    if looked.Err? {
      return looked, next, false, page;
    }
    PageWasRead(p0, q1, store.View(), after, page);
    LastOfPage(page, n);
    LookedSays(p0, store.View(), page, n, before, looked.value, limit);
    ListingRises(store.View(), looked.value.runs);
    if stopped {
      if old(store.schedule) == [] && QuietWalk(q1, before, after) {
        QuietAtTheLimit(q1, before, looked.value, after, page, n, limit);
      }
      return looked, next, false, page;
    }
    CoveredGrows(store.c, p0, q1, store.View(), before, looked.value, after, page, q1.runs.Keys);
    if old(store.schedule) == [] && QuietWalk(q1, before, after) {
      QuietOn(q1, before, looked.value, after, page);
    }
    return looked, Some(read.value[|read.value| - 1]), true, page;
  }

  lemma PageWasRead(p: Plane, r: Plane, q: Plane, after: Option<RunId>, page: seq<RunId>)
    requires Grown(p, r) && Grown(r, q) && IsPage(r.runs.Keys, after, CASE_PAGE, page)
    ensures WasPage(p, q, page)
  {
    hide Grown, IsPage;
  }

  lemma LastOfPage(page: seq<RunId>, n: nat)
    requires n <= |page| && forall i, j :: 0 <= i < j < |page| ==> page[i] < page[j]
    ensures n > 0 ==> page[n - 1] in page && (page[n - 1] == page[|page| - 1] <==> n == |page|)
  {
  }

  /** Every run still in flight, by id.  However runs are admitted and written to
      meanwhile, the walk ends, lists each run at most once and only runs that
      were in flight when they were read; and when it stops short of its limit
      with nothing unreadable, no run in flight throughout is missing.  At its
      limit it is said to be cut short exactly when `page`, which held the last
      run listed, held another behind it; over a quiet store the answer is
      fixed. */
  method RunsInFlight(store: Store, limit: nat) returns (r: Result<Flight, StoreError>, ghost page: seq<RunId>)
    requires Honest(store.c, store.View())
    modifies store`runs, store`log, store`cases, store`schedule
    ensures Grown(old(store.View()), store.View()) && Honest(store.c, store.View()) && store.leases == old(store.leases)
    ensures r.Ok? ==>
              Listing(store.View(), r.value.runs) && |r.value.runs| <= limit &&
                  (r.value.truncated ==> |r.value.runs| == limit)
    ensures r.Ok? && |r.value.runs| < limit && r.value.unreadable == [] ==>
              forall run: RunId :: Throughout(old(store.View()), store.View(), run) ==> run in r.value.runs
    ensures r.Ok? ==> CutRight(old(store.View()), store.View(), r.value, limit, page)
    ensures old(store.schedule) == [] ==>
              r.Ok? && store.View() == old(store.View()) && IsFlight(store.View(), limit, r.value)
  {
    hide Honest, Grown, Listing, Throughout, Covered, Ahead, CutRight, QuietWalk, IsFlight;
    ghost var p0 := store.View();
    page := [];
    QuietFromTheStart(p0, limit);
    var found := Flight([], false, []);
    var after: Option<RunId> := None;
    GrownIsReflexive(p0);
    NothingListed(p0);
    while |found.runs| < limit
      invariant Honest(store.c, store.View()) && Grown(p0, store.View()) && store.leases == old(store.leases)
      invariant Walked(p0, store.View(), found, after, limit) && CutRight(p0, store.View(), found, limit, page)
      invariant |found.runs| == limit && limit > 0 ==> after == Some(found.runs[limit - 1])
      invariant old(store.schedule) == [] ==>
                  store.schedule == [] && store.View() == p0 && QuietWalk(p0, found, after)
      decreases |store.schedule|, |Ahead(store.runs.Keys, after)|
    {
      var looked, next, more;
      looked, next, more, page := NextPage(store, found, after, limit, p0);
      if looked.Err? || !more {
        return looked, page;
      }
      found, after := looked.value, next;
    }
    ListingRises(store.View(), found.runs);
    if old(store.schedule) == [] {
      QuietBetweenPages(p0, found, after, limit);
    }
    return Ok(found), page;
  }

  lemma QuietFromTheStart(p: Plane, limit: nat)
    ensures QuietWalk(p, Flight([], false, []), None) && CutRight(p, p, Flight([], false, []), limit, [])
  {
  }

  lemma NothingListed(p: Plane)
    ensures Listing(p, []) && Covered(p, p, Flight([], false, []), None)
  {
  }

  lemma CoveredStays(p: Plane, q: Plane, r: Plane, found: Flight, after: Option<RunId>)
    requires Grown(p, q) && Grown(q, r) && Covered(p, q, found, after)
    ensures Covered(p, r, found, after)
  {
    hide Grown, Throughout;
    forall run: RunId | run in p.runs && !Beyond(after, run) && Throughout(p, r, run)
      ensures run in found.runs || run in found.unreadable
    {
      ThroughoutEarlier(p, q, r, run);
    }
  }

  /** Nothing lies beyond a cursor whose page is empty. */
  lemma EmptyPage(p: Plane, q: Plane, found: Flight, after: Option<RunId>, keys: set<nat>)
    requires IsPage(keys, after, CASE_PAGE, []) && p.runs.Keys <= keys && Covered(p, q, found, after)
    ensures forall run: RunId :: Throughout(p, q, run) ==> run in found.runs || run in found.unreadable
  {
    hide Going;
  }

  lemma PageInOrder(keys: set<nat>, after: Option<nat>, page: seq<nat>)
    requires IsPage(keys, after, CASE_PAGE, page)
    ensures forall i, j :: 0 <= i < j < |page| ==> page[i] < page[j]
    ensures forall i :: 0 <= i < |page| ==> Beyond(after, page[i])
  {
  }

  // ── What to read ───────────────────────────────────────────────────────

  datatype Listed = Outcomes(outcome: Outcome) | InFlightRuns

  /** `reached` names the listings that overran, and `unreadable` the runs in
      flight whose head gave no record. */
  datatype RunsToReadResult = RunsToReadResult(runs: seq<RunId>, reached: seq<Listed>, unreadable: seq<RunId>,
      inFlight: nat)

  /** Those of `runs` not listed yet, in order, each once. */
  method Fresh(runs: seq<RunId>, listed: set<RunId>) returns (added: seq<RunId>, after: set<RunId>)
    ensures OnceEach(added) && forall i :: 0 <= i < |added| ==> added[i] in runs && added[i] !in listed
    ensures after == listed + (set run | run in added)
    ensures forall i :: 0 <= i < |runs| ==> runs[i] in after
  {
    added, after := [], listed;
    for i := 0 to |runs|
      invariant OnceEach(added) && forall j :: 0 <= j < |added| ==> added[j] in runs && added[j] !in listed
      invariant after == listed + (set run | run in added)
      invariant forall j :: 0 <= j < i ==> runs[j] in after
    {
      if runs[i] !in after {
        assert (added + [runs[i]])[|added|] == runs[i];
        added, after := added + [runs[i]], after + {runs[i]};
      }
    }
  }

  lemma OnceTogether(a: seq<RunId>, b: seq<RunId>)
    requires OnceEach(a) && OnceEach(b) && forall i :: 0 <= i < |b| ==> b[i] !in a
    ensures OnceEach(a + b)
  {
  }

  function FirstOf(runs: seq<RunId>, limit: nat): seq<RunId> {
    if |runs| > limit then runs[..limit] else runs
  }

  lemma FirstFits(runs: seq<RunId>, limit: nat)
    ensures |FirstOf(runs, limit)| <= limit
  {
  }

  lemma NothingAnswered(p: Plane, outcomes: seq<Outcome>, limit: nat)
    ensures Grown(p, p) && OnceEach([]) && AllAnswer(p, p, outcomes[..0], limit, [])
    ensures forall run :: !TakenFrom([], limit, run)
    ensures forall l :: !OverranFor(outcomes, [], limit, l)
  {
    GrownIsReflexive(p);
  }

  lemma IsAnswer(p0: Plane, outcome: Outcome, limit: nat, a: Answer)
    requires Grown(p0, a.q) && |a.page| <= limit + 1
    requires forall i, j :: 0 <= i < j < |a.page| ==> a.page[i] != a.page[j]
    requires forall i :: 0 <= i < |a.page| ==> Under(a.q, outcome, a.page[i])
    requires |a.page| <= limit ==> forall run :: Under(a.q, outcome, run) ==> run in a.page
    ensures Answers(p0, a.q, outcome, limit, a)
  {
    hide Grown, Under;
    GrownIsReflexive(a.q);
  }

  /** A page of runs under an outcome, and the plane it was read from. */
  datatype Answer = Answer(q: Plane, page: seq<RunId>)

  ghost predicate Answers(p0: Plane, p1: Plane, outcome: Outcome, limit: nat, a: Answer) {
    Grown(p0, a.q) && Grown(a.q, p1) && OnceEach(a.page) && |a.page| <= limit + 1 &&
    (forall i :: 0 <= i < |a.page| ==> Under(a.q, outcome, a.page[i])) &&
    (|a.page| <= limit ==> forall run :: Under(a.q, outcome, run) ==> run in a.page)
  }

  ghost predicate AllAnswer(p0: Plane, p1: Plane, outcomes: seq<Outcome>, limit: nat, answers: seq<Answer>) {
    |answers| == |outcomes| && forall i :: 0 <= i < |answers| ==> Answers(p0, p1, outcomes[i], limit, answers[i])
  }

  /** Among the first `limit` runs of some page. */
  ghost predicate TakenFrom(answers: seq<Answer>, limit: nat, run: RunId) {
    exists i :: 0 <= i < |answers| && run in FirstOf(answers[i].page, limit)
  }

  /** A listing is said to reach its limit exactly when a page overran it. */
  ghost predicate OverranFor(outcomes: seq<Outcome>, answers: seq<Answer>, limit: nat, l: Listed) {
    exists i :: 0 <= i < |answers| && i < |outcomes| && l == Outcomes(outcomes[i]) && |answers[i].page| > limit
  }

  lemma AnswersStay(p0: Plane, p1: Plane, p2: Plane, outcomes: seq<Outcome>, limit: nat, answers: seq<Answer>)
    requires AllAnswer(p0, p1, outcomes, limit, answers) && Grown(p1, p2)
    ensures AllAnswer(p0, p2, outcomes, limit, answers)
  {
    hide Grown, Under, OnceEach;
    forall i | 0 <= i < |answers| ensures Answers(p0, p2, outcomes[i], limit, answers[i]) {
      assert Answers(p0, p1, outcomes[i], limit, answers[i]);
      GrownIsTransitive(answers[i].q, p1, p2);
    }
  }

  lemma OneMoreAnswer(p0: Plane, p1: Plane, p2: Plane, outcomes: seq<Outcome>, limit: nat, answers: seq<Answer>,
                      a: Answer)
    requires |answers| < |outcomes| && AllAnswer(p0, p1, outcomes[..|answers|], limit, answers) && Grown(p1, p2)
    requires Answers(p0, p2, outcomes[|answers|], limit, a)
    ensures AllAnswer(p0, p2, outcomes[..|answers| + 1], limit, answers + [a])
  {
    hide Answers, Grown;
    AnswersStay(p0, p1, p2, outcomes[..|answers|], limit, answers);
  }

  lemma OneMoreTaken(limit: nat, answers: seq<Answer>, a: Answer)
    ensures forall run ::
              TakenFrom(answers + [a], limit, run) <==> TakenFrom(answers, limit, run) || run in FirstOf(a.page, limit)
  {
    hide FirstOf;
    var more := answers + [a];
    assert more[|answers|] == a;
    assert forall i :: 0 <= i < |answers| ==> more[i] == answers[i];
  }

  lemma OneMoreOverran(outcomes: seq<Outcome>, limit: nat, answers: seq<Answer>, a: Answer)
    requires |answers| < |outcomes|
    ensures forall l ::
              OverranFor(outcomes, answers + [a], limit, l) <==>
              OverranFor(outcomes, answers, limit, l) || (l == Outcomes(outcomes[|answers|]) && |a.page| > limit)
  {
    var more := answers + [a];
    assert more[|answers|] == a;
    assert forall i :: 0 <= i < |answers| ==> more[i] == answers[i];
  }

  /** The first `limit` of every listing, each run where it first comes.  `answers`
      is what the store answered for each. */
  method ReadByOutcome(store: Store, outcomes: seq<Outcome>, limit: nat)
    returns (r: Result<(seq<RunId>, seq<Listed>), StoreError>, ghost answers: seq<Answer>)
    requires Honest(store.c, store.View())
    modifies store`runs, store`log, store`cases, store`schedule
    ensures Grown(old(store.View()), store.View()) && Honest(store.c, store.View()) && store.leases == old(store.leases)
    ensures r.Ok? ==> AllAnswer(old(store.View()), store.View(), outcomes, limit, answers)
    ensures r.Ok? ==> OnceEach(r.value.0) && |r.value.0| <= |outcomes| * limit
    ensures r.Ok? ==> forall run :: run in r.value.0 <==> TakenFrom(answers, limit, run)
    ensures r.Ok? ==> forall l :: l in r.value.1 <==> OverranFor(outcomes, answers, limit, l)
    ensures old(store.schedule) == [] ==> r.Ok? && store.schedule == [] && store.View() == old(store.View())
  {
    hide Honest, Grown, OnceEach, Under, AllAnswer, TakenFrom, OverranFor, FirstOf;
    ghost var p0 := store.View();
    NothingAnswered(p0, outcomes, limit);
    answers := [];
    var runs: seq<RunId> := [];
    var listed: set<RunId> := {};
    var reached: seq<Listed> := [];
    for i := 0 to |outcomes|
      invariant Honest(store.c, store.View()) && Grown(p0, store.View()) && store.leases == old(store.leases)
      invariant |answers| == i && AllAnswer(p0, store.View(), outcomes[..i], limit, answers)
      invariant OnceEach(runs) && listed == (set run | run in runs) && |runs| <= i * limit
      invariant forall run :: run in runs <==> TakenFrom(answers, limit, run)
      invariant forall l :: l in reached <==> OverranFor(outcomes, answers, limit, l)
      invariant old(store.schedule) == [] ==> store.schedule == [] && store.View() == p0
    {
      ghost var q := store.View();
      var page := store.RunsByOutcome(outcomes[i], limit + 1);
      GrownIsTransitive(p0, q, store.View());
      if page.Err? {
        return Err(page.error), answers;
      }
      ghost var answer := Answer(store.View(), page.value);
      IsAnswer(p0, outcomes[i], limit, answer);
      OneMoreAnswer(p0, q, store.View(), outcomes, limit, answers, answer);
      OneMoreTaken(limit, answers, answer);
      OneMoreOverran(outcomes, limit, answers, answer);
      if |page.value| > limit {
        reached := reached + [Outcomes(outcomes[i])];
      }
      var taken := FirstOf(page.value, limit);
      var added, after := Fresh(taken, listed);
      OnceFits(added, taken);
      FirstFits(page.value, limit);
      OnceTogether(runs, added);
      runs, listed, answers := runs + added, after, answers + [answer];
    }
    assert outcomes[..|outcomes|] == outcomes;
    return Ok((runs, reached)), answers;
  }

  /** The listings by outcome and then the walk in flight, put together: no
      run twice, though a run concluded and then resumed is in both.
      `answers` and `flight` are the listings it was put together from, and
      `page` held the last run listed as in flight. */
  method RunsToRead(store: Store, outcomes: seq<Outcome>, includeInFlight: bool, limit: nat)
    returns (r: Result<RunsToReadResult, StoreError>, ghost answers: seq<Answer>, ghost flight: Flight,
             ghost page: seq<RunId>)
    requires Honest(store.c, store.View())
    modifies store`runs, store`log, store`cases, store`schedule
    ensures Grown(old(store.View()), store.View()) && Honest(store.c, store.View()) && store.leases == old(store.leases)
    ensures r.Ok? ==> AllAnswer(old(store.View()), store.View(), outcomes, limit, answers)
    ensures r.Ok? ==>
              OnceEach(r.value.runs) && r.value.inFlight <= |r.value.runs| &&
              |r.value.runs| - r.value.inFlight <= |outcomes| * limit
    ensures r.Ok? ==> forall run ::
              run in r.value.runs <==> TakenFrom(answers, limit, run) || (includeInFlight && run in flight.runs)
    ensures r.Ok? ==> forall i :: 0 <= i < |r.value.runs| ==>
              (TakenFrom(answers, limit, r.value.runs[i]) <==> i < |r.value.runs| - r.value.inFlight)
    ensures r.Ok? ==> forall l ::
              l in r.value.reached <==>
              OverranFor(outcomes, answers, limit, l) || (includeInFlight && flight.truncated && l == InFlightRuns)
    ensures r.Ok? ==> r.value.unreadable == if includeInFlight then flight.unreadable else []
    ensures r.Ok? && includeInFlight ==>
              Listing(store.View(), flight.runs) && |flight.runs| <= limit &&
              (flight.truncated ==> |flight.runs| == limit) &&
              CutRight(old(store.View()), store.View(), flight, limit, page)
    ensures old(store.schedule) == [] ==>
              r.Ok? && store.View() == old(store.View()) && (includeInFlight ==> IsFlight(store.View(), limit, flight))
    ensures r.Ok? && includeInFlight && |flight.runs| < limit && flight.unreadable == [] ==>
              forall run: RunId :: Throughout(old(store.View()), store.View(), run) ==> run in r.value.runs
  {
    hide Honest, Grown, Throughout, OnceEach, Listing, AllAnswer, TakenFrom, OverranFor, CutRight, IsFlight;
    ghost var p0 := store.View();
    flight, page := Flight([], false, []), [];
    var concluded;
    concluded, answers := ReadByOutcome(store, outcomes, limit);
    if concluded.Err? {
      return Err(concluded.error), answers, flight, page;
    }
    var runs, reached := concluded.value.0, concluded.value.1;
    if !includeInFlight {
      return Ok(RunsToReadResult(runs, reached, [], 0)), answers, flight, page;
    }
    ghost var q := store.View();
    var found;
    found, page := RunsInFlight(store, limit);
    GrownIsTransitive(p0, q, store.View());
    AnswersStay(p0, q, store.View(), outcomes, limit, answers);
    if found.Err? {
      return Err(found.error), answers, flight, page;
    }
    flight := found.value;
    CutRightSince(p0, q, store.View(), flight, limit, page);
    if found.value.truncated {
      reached := reached + [InFlightRuns];
    }
    var added, after := Fresh(found.value.runs, set run | run in runs);
    OnceTogether(runs, added);
    forall i | 0 <= i < |flight.runs| ensures flight.runs[i] in runs + added {
      assert flight.runs[i] in after;
    }
    forall run: RunId | |flight.runs| < limit && flight.unreadable == [] && Throughout(p0, store.View(), run)
      ensures run in runs + added
    {
      ThroughoutLater(p0, q, store.View(), run);
    }
    return Ok(RunsToReadResult(runs + added, reached, found.value.unreadable, |added|)), answers, flight, page;
  }

  lemma CutRightSince(p: Plane, q: Plane, r: Plane, f: Flight, limit: nat, page: seq<RunId>)
    requires Grown(p, q) && CutRight(q, r, f, limit, page)
    ensures CutRight(p, r, f, limit, page)
  {
    hide Grown, IsPage;
    if WasPage(q, r, page) {
      var at, after: Option<RunId> :| Grown(q, at) && Grown(at, r) && IsPage(at.runs.Keys, after, CASE_PAGE, page);
      GrownIsTransitive(p, q, at);
    }
  }

  lemma ThroughoutLater(p: Plane, q: Plane, r: Plane, run: RunId)
    requires Grown(p, q) && Grown(q, r) && Throughout(p, r, run)
    ensures Throughout(q, r, run)
  {
    hide Going;
    RecordsGrow(p, q, run);
    RunsStay(p, q);
  }

  lemma {:induction false} OnceFits(a: seq<RunId>, b: seq<RunId>)
    requires OnceEach(a) && forall i :: 0 <= i < |a| ==> a[i] in b
    ensures |a| <= |b|
    decreases |a|
  {
    if a != [] {
      var n := |a| - 1;
      var k :| 0 <= k < |b| && b[k] == a[n];
      var rest := b[..k] + b[k + 1..];
      forall i | 0 <= i < n ensures a[i] in rest {
        var m :| 0 <= m < |b| && b[m] == a[i];
        if m < k {
          assert rest[m] == a[i];
        } else {
          assert rest[m - 1] == a[i];
        }
      }
      OnceFits(a[..n], rest);
    }
  }
}
