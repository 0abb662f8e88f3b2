/** What a walk over the runs in flight comes to, and exactly when it says that
    it was cut short: by where the run that fills its limit falls among all
    runs, not by whether another one is left. */
module Flights {
  import opened Wrappers
  import opened Hashing
  import opened Wire
  import opened Planes
  import opened Stores

  /** A run that has records and whose last one is no conclusion: working, or
      suspended. */
  predicate Going(records: seq<Record>) {
    records != [] && !records[|records| - 1].body.kind.RunConcluded?
  }

  /** What the walk found: the runs in flight, and those whose records would not
      read. */
  datatype Flight = Flight(runs: seq<RunId>, truncated: bool, unreadable: seq<RunId>)

  // ── Pages and ranks ────────────────────────────────────────────────────

  /** How many of `keys` are at or below `id`. */
  ghost function Rank(keys: set<nat>, id: nat): nat {
    |set k | k in keys && k <= id|
  }

  ghost function RankOf(keys: set<nat>, after: Option<nat>): nat {
    match after case Some(id) => Rank(keys, id) case None => 0
  }

  ghost predicate AnyAfter(keys: set<nat>, id: nat) {
    exists k :: k in keys && id < k
  }

  /** The cursor stands between two pages, or behind everything. */
  ghost predicate Aligned(keys: set<nat>, after: Option<nat>) {
    RankOf(keys, after) % CASE_PAGE == 0 || (after.Some? && !AnyAfter(keys, after.value))
  }

  /** One id after another, the next rank. */
  lemma RankNext(keys: set<nat>, a: nat, b: nat)
    requires b in keys && a < b && forall k :: k in keys && a < k ==> b <= k
    ensures Rank(keys, b) == Rank(keys, a) + 1
  {
    var upTo := set k | k in keys && k <= a;
    assert (set k | k in keys && k <= b) == upTo + {b};
  }

  lemma RankFirst(keys: set<nat>, b: nat)
    requires b in keys && forall k :: k in keys ==> b <= k
    ensures Rank(keys, b) == 1
  {
    assert (set k | k in keys && k <= b) == {b};
  }

  /** Nothing lies between a cursor and its page, nor between two neighbours. */
  lemma PageIsTight(keys: set<nat>, after: Option<nat>, limit: nat, page: seq<nat>, i: nat)
    requires IsPage(keys, after, limit, page) && i < |page|
    ensures i > 0 ==> forall k :: k in keys && page[i - 1] < k ==> page[i] <= k
    ensures i == 0 ==> forall k :: k in keys && (after.Some? ==> after.value < k) ==> page[0] <= k
  {
  }

  lemma {:induction false} RankInPage(keys: set<nat>, after: Option<nat>, limit: nat, page: seq<nat>, i: nat)
    requires IsPage(keys, after, limit, page) && i < |page|
    ensures Rank(keys, page[i]) == RankOf(keys, after) + i + 1
  {
    hide Rank;
    PageIsTight(keys, after, limit, page, i);
    if i > 0 {
      RankInPage(keys, after, limit, page, i - 1);
      RankNext(keys, page[i - 1], page[i]);
    } else if after.Some? {
      RankNext(keys, after.value, page[0]);
    } else {
      RankFirst(keys, page[0]);
    }
  }

  /** A page that is not full is the last one. */
  lemma ShortPageEnds(keys: set<nat>, after: Option<nat>, limit: nat, page: seq<nat>)
    requires IsPage(keys, after, limit, page) && page != [] && |page| < limit
    ensures !AnyAfter(keys, page[|page| - 1])
  {
  }

  /** The cursor left by a page, and every run inside it, by rank. */
  lemma PageAligns(keys: set<nat>, after: Option<nat>, page: seq<nat>, i: nat)
    requires IsPage(keys, after, CASE_PAGE, page) && Aligned(keys, after) && i < |page|
    ensures Aligned(keys, Some(page[|page| - 1]))
    ensures Rank(keys, page[i]) % CASE_PAGE != 0 && AnyAfter(keys, page[i]) <==> i < |page| - 1
  {
    hide Rank;
    assert page[0] in keys && (after.Some? ==> after.value < page[0]);
    RankInPage(keys, after, CASE_PAGE, page, i);
    RankInPage(keys, after, CASE_PAGE, page, |page| - 1);
    if |page| < CASE_PAGE {
      ShortPageEnds(keys, after, CASE_PAGE, page);
    }
    if i < |page| - 1 {
      assert page[i + 1] in keys && page[i] < page[i + 1];
    }
  }

  // ── The walk over a quiet store ────────────────────────────────────────

  /** The limit fell on a run with another run, in flight or not, behind it in
      its page. */
  ghost predicate CutAt(keys: set<nat>, last: nat) {
    Rank(keys, last) % CASE_PAGE != 0 && AnyAfter(keys, last)
  }

  /** What the walk over a store nobody writes to answers. */
  ghost predicate IsFlight(p: Plane, limit: nat, f: Flight) {
    f.unreadable == [] && |f.runs| <= limit &&
    (forall i, j :: 0 <= i < j < |f.runs| ==> f.runs[i] < f.runs[j]) &&
    (forall run :: run in f.runs ==> Going(RecordsOf(p, run))) &&
    (forall run: RunId :: Going(RecordsOf(p, run)) ==>
       run in f.runs || (|f.runs| == limit && (limit > 0 ==> f.runs[limit - 1] < run))) &&
    (f.truncated <==> |f.runs| == limit && limit > 0 && CutAt(p.runs.Keys, f.runs[limit - 1]))
  }

  ghost function GoingRuns(p: Plane): set<RunId> {
    set run | run in p.runs && Going(RecordsOf(p, run))
  }

  /** `last` is the run in flight that fills the limit. */
  ghost predicate Fills(p: Plane, limit: nat, last: RunId) {
    last in GoingRuns(p) && Rank(GoingRuns(p), last) == limit
  }

  ghost predicate Hides(p: Plane, f: Flight) {
    !f.truncated && exists run: RunId :: Going(RecordsOf(p, run)) && run !in f.runs
  }

  /** More runs are in flight than the limit, and the one that fills it ends a
      page of all runs. */
  ghost predicate Overlooked(p: Plane, limit: nat) {
    |GoingRuns(p)| > limit &&
    (limit > 0 ==> exists last: RunId :: Fills(p, limit, last) && Rank(p.runs.Keys, last) % CASE_PAGE == 0)
  }

  lemma {:induction false} RankOfListed(runs: seq<RunId>, going: set<RunId>, n: nat)
    requires 0 < n <= |runs| && forall i, j :: 0 <= i < j < |runs| ==> runs[i] < runs[j]
    requires forall run :: run in runs ==> run in going
    requires forall run :: run in going && run <= runs[|runs| - 1] ==> run in runs
    ensures Rank(going, runs[n - 1]) == n
  {
    hide Rank;
    var i := n - 1;
    if i > 0 {
      RankOfListed(runs, going, i);
      RankNext(going, runs[i - 1], runs[i]);
    } else {
      RankFirst(going, runs[0]);
    }
  }

  lemma RankGrows(keys: set<nat>, a: nat, b: nat)
    requires b in keys && a < b
    ensures Rank(keys, a) < Rank(keys, b)
  {
    var low, high := set k | k in keys && k <= a, set k | k in keys && k <= b;
    assert low <= high && b in high && b !in low;
    Smaller(low, high);
  }

  lemma Smaller(a: set<nat>, b: set<nat>)
    requires a < b
    ensures |a| < |b|
  {
    assert b == a + (b - a);
  }

  /** How many runs are in flight, against those listed. */
  lemma AllGoing(p: Plane, limit: nat, f: Flight)
    requires IsFlight(p, limit, f) && f.runs != []
    ensures var last := f.runs[|f.runs| - 1];
            Rank(GoingRuns(p), last) == |f.runs| &&
            (|GoingRuns(p)| > |f.runs| <==> exists run: RunId :: run in GoingRuns(p) && last < run)
  {
    hide Rank, CutAt;
    var going, last := GoingRuns(p), f.runs[|f.runs| - 1];
    RankOfListed(f.runs, going, |f.runs|);
    RankIsAll(going, last);
  }

  lemma RankIsAll(keys: set<nat>, last: nat)
    ensures Rank(keys, last) <= |keys|
    ensures Rank(keys, last) < |keys| <==> AnyAfter(keys, last)
  {
    var low := set k | k in keys && k <= last;
    if AnyAfter(keys, last) {
      Smaller(low, keys);
    } else {
      assert low == keys;
    }
  }

  /** Hidden runs lie behind the last one listed. */
  lemma HiddenLiesBehind(p: Plane, limit: nat, f: Flight, run: RunId)
    requires IsFlight(p, limit, f) && Going(RecordsOf(p, run)) && limit > 0
    ensures run !in f.runs <==> |f.runs| == limit && f.runs[limit - 1] < run
  {
    hide CutAt;
  }

  /** The walk's answer hides a run exactly when more are in flight than the
      limit and the one that fills it ends a page. */
  lemma {:induction false} HidesExactly(p: Plane, limit: nat, f: Flight)
    requires IsFlight(p, limit, f)
    ensures Hides(p, f) <==> Overlooked(p, limit)
  {
    hide IsFlight, Rank, AnyAfter, Going;
    FlightSays(p, limit, f);
    var going := GoingRuns(p);
    HiddenOnes(p, limit, f);
    if |f.runs| == limit && limit > 0 {
      var last := f.runs[limit - 1];
      AllGoing(p, limit, f);
      forall other: RunId | Fills(p, limit, other) ensures other == last {
        FillsOnce(p, limit, other, last);
      }
      assert Fills(p, limit, last);
      if |going| > limit {
        SomeBehind(p, last);
      }
    }
  }

  lemma FlightSays(p: Plane, limit: nat, f: Flight)
    requires IsFlight(p, limit, f)
    ensures |f.runs| <= limit && (|f.runs| == limit > 0 ==> f.runs[limit - 1] in GoingRuns(p))
    ensures |f.runs| < limit ==> forall run: RunId :: Going(RecordsOf(p, run)) ==> run in f.runs
    ensures f.truncated <==> |f.runs| == limit && limit > 0 && CutAt(p.runs.Keys, f.runs[limit - 1])
  {
    hide CutAt;
    if |f.runs| == limit > 0 {
      assert f.runs[limit - 1] in f.runs;
    }
  }

  lemma SomeBehind(p: Plane, last: RunId)
    requires exists run: RunId :: run in GoingRuns(p) && last < run
    ensures AnyAfter(p.runs.Keys, last)
  {
    var run: RunId :| run in GoingRuns(p) && last < run;
    assert run in p.runs.Keys;
  }

  lemma FillsOnce(p: Plane, limit: nat, a: RunId, b: RunId)
    requires Fills(p, limit, a) && Fills(p, limit, b)
    ensures a == b
  {
    hide Rank;
    if a < b {
      RankGrows(GoingRuns(p), a, b);
    } else if b < a {
      RankGrows(GoingRuns(p), b, a);
    }
  }

  /** Runs are left out exactly when more are in flight than the limit. */
  lemma HiddenOnes(p: Plane, limit: nat, f: Flight)
    requires IsFlight(p, limit, f)
    ensures (exists run: RunId :: Going(RecordsOf(p, run)) && run !in f.runs) <==> |GoingRuns(p)| > limit
  {
    hide Rank, CutAt, Going;
    var going := GoingRuns(p);
    forall run: RunId | Going(RecordsOf(p, run)) ensures run in going {
      HeldIfGoing(p, run);
    }
    if f.runs == [] {
      if limit > 0 {
        assert going == {};
      } else if going != {} {
        var run :| run in going;
        assert Going(RecordsOf(p, run)) && run !in f.runs;
      }
    } else {
      AllGoing(p, limit, f);
      if exists run: RunId :: Going(RecordsOf(p, run)) && run !in f.runs {
        var run: RunId :| Going(RecordsOf(p, run)) && run !in f.runs;
        HeldIfGoing(p, run);
        HiddenLiesBehind(p, limit, f, run);
      }
      if |going| > limit {
        var run: RunId :| run in going && f.runs[|f.runs| - 1] < run;
        Listed(f.runs, run);
      }
    }
  }

  lemma HeldIfGoing(p: Plane, run: RunId)
    requires Going(RecordsOf(p, run))
    ensures run in GoingRuns(p)
  {
  }

  lemma Listed(runs: seq<RunId>, run: RunId)
    requires runs != [] && (forall i, j :: 0 <= i < j < |runs| ==> runs[i] < runs[j]) && runs[|runs| - 1] < run
    ensures run !in runs
  {
  }

  // ── One listing cut short without a word ───────────────────────────────

  function Letters(n: nat): (t: string)
    ensures |t| == n
  {
    if n == 0 then "" else "0" + Letters(n - 1)
  }

  /** An encoding under which a string of zeros is the first record of the run
      its length names. */
  function CrowdCodec(h: Hash): Codec {
    Codec(h, (raw: Bytes) => CrowdReading(raw), (raw: Bytes) => Some(Json(Letters(|raw|))), (j: Json) => Zeros(|j.text|),
          (raw: Bytes) => Some(1))
  }

  function CrowdReading(raw: Bytes): Reading {
    if |raw| <= CASE_PAGE then Readable(Body(1, |raw|, None, None, Forward, 0, None, OtherKind)) else NotARecord
  }

  function CrowdRecord(h: Hash, run: nat): Record
    requires run <= CASE_PAGE
  {
    Record(CrowdReading(Zeros(run)).body, ZERO, Chain(h, ZERO, Zeros(run)), None, Zeros(run))
  }

  /** A page of runs in flight, and one more behind it. */
  function Crowd(h: Hash): Plane {
    Plane("", map run: RunId | 0 <= run <= CASE_PAGE :: [CrowdRecord(h, run)], [], map[])
  }

  lemma CrowdRecordIsHonest(h: Hash, run: RunId)
    requires run <= CASE_PAGE
    ensures HonestRun(CrowdCodec(h), run, [CrowdRecord(h, run)]) && Going([CrowdRecord(h, run)])
  {
    hide Chain;
    var records := [CrowdRecord(h, run)];
    assert records[..0] == [];
    assert Raws([]) == [];
  }

  lemma {:induction false} RankOfCrowd(keys: set<nat>, id: nat, all: nat)
    requires id <= all && forall k: nat :: k in keys <==> k <= all
    ensures Rank(keys, id) == id + 1
  {
    hide Rank;
    if id == 0 {
      RankFirst(keys, 0);
    } else {
      RankOfCrowd(keys, id - 1, all);
      RankNext(keys, id - 1, id);
    }
  }

  /** An honest store of 257 runs in flight, of which a walk limited to 256 lists
      all but the last and says nothing of it. */
  lemma {:induction false} OneRunUnsaid(h: Hash, f: Flight)
    requires IsFlight(Crowd(h), CASE_PAGE, f)
    ensures Honest(CrowdCodec(h), Crowd(h))
    ensures !f.truncated && |f.runs| == CASE_PAGE && CASE_PAGE !in f.runs && Going(RecordsOf(Crowd(h), CASE_PAGE))
  {
    hide Rank, CutAt, Going, HonestRun, CrowdRecord, CrowdCodec;
    var p := Crowd(h);
    forall run: RunId | run <= CASE_PAGE
      ensures HonestRun(CrowdCodec(h), run, p.runs[run]) && Going(RecordsOf(p, run)) && Stamped(p, p.runs[run])
    {
      CrowdRecordIsHonest(h, run);
      CrowdIsUnstamped(h, run);
    }
    CrowdIsListed(p, f);
  }

  lemma CrowdIsUnstamped(h: Hash, run: RunId)
    requires run <= CASE_PAGE
    ensures Stamped(Crowd(h), [CrowdRecord(h, run)])
  {
    hide Chain;
  }

  lemma {:induction false} CrowdIsListed(p: Plane, f: Flight)
    requires (forall run: RunId :: run in p.runs <==> run <= CASE_PAGE) && IsFlight(p, CASE_PAGE, f)
    requires forall run: RunId :: run <= CASE_PAGE ==> Going(RecordsOf(p, run))
    ensures !f.truncated && |f.runs| == CASE_PAGE && CASE_PAGE !in f.runs
  {
    hide Rank, Going;
    var going, all: set<nat> := GoingRuns(p), p.runs.Keys;
    assert forall k: nat :: k in going <==> k <= CASE_PAGE;
    assert forall k: nat :: k in all <==> k <= CASE_PAGE;
    RankOfCrowd(going, CASE_PAGE, CASE_PAGE);
    RankIsAll(going, CASE_PAGE);
    HiddenOnes(p, CASE_PAGE, f);
    var run: RunId :| Going(RecordsOf(p, run)) && run !in f.runs;
    HiddenLiesBehind(p, CASE_PAGE, f, run);
    var last := f.runs[CASE_PAGE - 1];
    AllGoing(p, CASE_PAGE, f);
    RankOfCrowd(going, last, CASE_PAGE);
    RankOfCrowd(all, last, CASE_PAGE);
    Listed(f.runs, CASE_PAGE);
  }
}
