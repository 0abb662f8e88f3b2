/** The unused-grant report over the lines of a file: which lines the reader
    takes, which record lies under which run line, and what a mark, a count and
    a proposal say of those lines. */
module GrantsFile {
  import opened Wrappers
  import opened Hashing
  import opened Wire
  import opened UnusedGrants

  // ── Which lines lie under which ────────────────────────────────────────

  /** A line this reader takes for a record. */
  predicate IsRecord(line: Line) {
    line.RecordLine? || (line.UnknownLine? && !line.named)
  }

  /** Run line `k` is the last one before line `j`. */
  predicate RunOver(lines: seq<Line>, k: nat, j: nat) {
    k < j <= |lines| && lines[k].RunLine? && forall x :: k < x < j ==> !lines[x].RunLine?
  }

  /** Line `j` is a record under run line `k`. */
  predicate RecordUnder(lines: seq<Line>, k: nat, j: nat) {
    j < |lines| && IsRecord(lines[j]) && RunOver(lines, k, j)
  }

  /** A whole export's header stands before line `i`. */
  predicate Headed(lines: seq<Line>, i: nat) {
    exists h :: 0 <= h < i && h < |lines| && lines[h].HeaderLine? && lines[h].kind.WholeExport?
  }

  /** The bytes of line `j` read as a record of the run named by line `k`. */
  predicate ReadsFor(c: Codec, lines: seq<Line>, k: nat, j: nat) {
    RecordUnder(lines, k, j) && lines[j].record.raw.Some? && c.read(lines[j].record.raw.value).Readable? &&
    lines[k].block.run == Some(c.read(lines[j].record.raw.value).body.run)
  }

  /** Line `i` does not stop the reader. */
  predicate Taken(c: Codec, lines: seq<Line>, i: nat)
    requires i < |lines|
  {
    match lines[i]
    case Blank => true
    case NotJson => false
    case HeaderLine(kind, f) => if kind.WholeExport? then f.version == Some(FORMAT_VERSION) else Headed(lines, i)
    case RunLine(f) => Headed(lines, i) && f.run.Some?
    case _ => Headed(lines, i) && (IsRecord(lines[i]) ==> exists k: nat :: k < i && ReadsFor(c, lines, k, i))
  }

  function BodyAt(c: Codec, lines: seq<Line>, j: nat): Body
    requires j < |lines| && IsRecord(lines[j]) && lines[j].record.raw.Some?
    requires c.read(lines[j].record.raw.value).Readable?
  {
    c.read(lines[j].record.raw.value).body
  }

  predicate Rising(at: seq<nat>) {
    forall i, j :: 0 <= i < j < |at| ==> at[i] < at[j]
  }

  /** The run lines, in order. */
  function RunAts(lines: seq<Line>): (at: seq<nat>)
    ensures Rising(at) && forall k: nat :: k in at <==> k < |lines| && lines[k].RunLine?
  {
    if lines == [] then []
    else
      var before := RunAts(lines[..|lines| - 1]);
      assert forall i :: 0 <= i < |before| ==> before[i] in before;
      before + (if lines[|lines| - 1].RunLine? then [|lines| - 1] else [])
  }

  /** The record lines under run line `k`, in order. */
  function RecordAts(lines: seq<Line>, k: nat): (at: seq<nat>)
    ensures Rising(at) && forall j: nat :: j in at <==> RecordUnder(lines, k, j)
  {
    if lines == [] then []
    else
      var n := |lines| - 1;
      UnderStays(lines, k);
      var before := RecordAts(lines[..n], k);
      assert forall i :: 0 <= i < |before| ==> before[i] in before;
      before + (if RecordUnder(lines, k, n) then [n] else [])
  }

  lemma UnderStays(lines: seq<Line>, k: nat)
    requires lines != []
    ensures forall j: nat :: j < |lines| - 1 ==> (RecordUnder(lines, k, j) <==> RecordUnder(lines[..|lines| - 1], k, j))
  {
    var n := |lines| - 1;
    forall j: nat | j < n ensures RecordUnder(lines, k, j) <==> RecordUnder(lines[..n], k, j) {
      assert forall x :: 0 <= x < n ==> lines[..n][x] == lines[x];
    }
  }

  /** `run` is the run line `k` names, holding the bodies of the record lines
      under it, in order. */
  ghost predicate IsRunAt(c: Codec, lines: seq<Line>, k: nat, run: Run) {
    k < |lines| && lines[k].RunLine? && lines[k].block.run == Some(run.run) &&
    |run.bodies| == |RecordAts(lines, k)| &&
    forall j :: 0 <= j < |run.bodies| ==>
      ReadsFor(c, lines, k, RecordAts(lines, k)[j]) && run.bodies[j] == BodyAt(c, lines, RecordAts(lines, k)[j])
  }

  ghost predicate AreRuns(c: Codec, lines: seq<Line>, runs: seq<Run>) {
    |runs| == |RunAts(lines)| && forall i :: 0 <= i < |runs| ==> IsRunAt(c, lines, RunAts(lines)[i], runs[i])
  }

  ghost predicate AllTaken(c: Codec, lines: seq<Line>) {
    forall i :: 0 <= i < |lines| ==> Taken(c, lines, i)
  }

  lemma {:induction false} AllTakenOfLast(c: Codec, lines: seq<Line>)
    requires lines != []
    ensures AllTaken(c, lines) <==> AllTaken(c, lines[..|lines| - 1]) && Taken(c, lines, |lines| - 1)
  {
    hide Taken;
    var n := |lines| - 1;
    forall i | 0 <= i < n ensures Taken(c, lines, i) == Taken(c, lines[..n], i) {
      TakenStays(c, lines, i);
    }
  }

  lemma TakenStays(c: Codec, lines: seq<Line>, i: nat)
    requires i < |lines| - 1
    ensures Taken(c, lines, i) == Taken(c, lines[..|lines| - 1], i)
  {
    hide RecordUnder;
    var front := lines[..|lines| - 1];
    assert lines[i] == front[i] && forall x :: 0 <= x < i ==> lines[x] == front[x];
    assert Headed(lines, i) == Headed(front, i) by {
      if Headed(lines, i) {
        var h :| 0 <= h < i && h < |lines| && lines[h].HeaderLine? && lines[h].kind.WholeExport?;
        assert front[h] == lines[h];
      }
    }
    UnderStaysFor(lines, i);
    forall k: nat | k < i ensures ReadsFor(c, lines, k, i) == ReadsFor(c, front, k, i) {
    }
  }

  lemma UnderStaysFor(lines: seq<Line>, j: nat)
    requires j < |lines| - 1
    ensures forall k: nat :: RecordUnder(lines, k, j) <==> RecordUnder(lines[..|lines| - 1], k, j)
  {
    hide RecordUnder;
    forall k: nat ensures RecordUnder(lines, k, j) <==> RecordUnder(lines[..|lines| - 1], k, j) {
      UnderStays(lines, k);
    }
  }

  // ── What the reader makes of the lines ─────────────────────────────────

  /** The run line in force at the end of a file is the last one. */
  lemma LastRunIsOver(lines: seq<Line>)
    ensures RunAts(lines) != [] ==> RunOver(lines, RunAts(lines)[|RunAts(lines)| - 1], |lines|)
    ensures forall k: nat :: RunOver(lines, k, |lines|) ==>
              RunAts(lines) != [] && k == RunAts(lines)[|RunAts(lines)| - 1]
  {
    hide RunAts;
    var at := RunAts(lines);
    if at != [] {
      var last := at[|at| - 1];
      assert last in at;
      forall x: nat | x in at ensures x <= last {
        var i :| 0 <= i < |at| && at[i] == x;
      }
    }
    forall k: nat | RunOver(lines, k, |lines|) ensures at != [] && k == at[|at| - 1] {
      assert k in at;
      var i :| 0 <= i < |at| && at[i] == k;
      assert at[|at| - 1] in at;
    }
  }

  lemma OverLast(lines: seq<Line>, k: nat)
    requires lines != []
    ensures RunOver(lines, k, |lines| - 1) <==> RunOver(lines[..|lines| - 1], k, |lines| - 1)
  {
    assert forall x :: 0 <= x < |lines| - 1 ==> lines[..|lines| - 1][x] == lines[x];
  }

  lemma AtsOfLast(lines: seq<Line>, k: nat)
    requires lines != []
    ensures RecordAts(lines, k) ==
            RecordAts(lines[..|lines| - 1], k) + (if RecordUnder(lines, k, |lines| - 1) then [|lines| - 1] else [])
  {
    hide RecordUnder;
  }

  /** A line that is no record of run line `k` leaves that run as it was. */
  lemma {:induction false} RunStaysAt(c: Codec, lines: seq<Line>, k: nat, run: Run)
    requires lines != [] && IsRunAt(c, lines[..|lines| - 1], k, run) && !RecordUnder(lines, k, |lines| - 1)
    ensures IsRunAt(c, lines, k, run)
  {
    hide RecordAts;
    var n := |lines| - 1;
    UnderStays(lines, k);
    AtsOfLast(lines, k);
    forall j | 0 <= j < |run.bodies|
      ensures ReadsFor(c, lines, k, RecordAts(lines, k)[j]) && run.bodies[j] == BodyAt(c, lines, RecordAts(lines, k)[j])
    {
      StillReads(c, lines, k, RecordAts(lines, k)[j]);
    }
  }

  lemma StillReads(c: Codec, lines: seq<Line>, k: nat, j: nat)
    requires lines != [] && ReadsFor(c, lines[..|lines| - 1], k, j)
    ensures ReadsFor(c, lines, k, j) && BodyAt(c, lines, j) == BodyAt(c, lines[..|lines| - 1], j)
  {
    UnderStays(lines, k);
    assert lines[j] == lines[..|lines| - 1][j];
  }

  /** A record of run line `k` is one more body of that run. */
  lemma {:induction false} RunGrowsAt(c: Codec, lines: seq<Line>, k: nat, run: Run)
    requires lines != [] && IsRunAt(c, lines[..|lines| - 1], k, run) && ReadsFor(c, lines, k, |lines| - 1)
    ensures IsRunAt(c, lines, k, run.(bodies := run.bodies + [BodyAt(c, lines, |lines| - 1)]))
  {
    hide RecordAts;
    var n := |lines| - 1;
    UnderStays(lines, k);
    var grown := run.(bodies := run.bodies + [BodyAt(c, lines, n)]);
    AtsOfLast(lines, k);
    forall j | 0 <= j < |grown.bodies|
      ensures ReadsFor(c, lines, k, RecordAts(lines, k)[j]) && grown.bodies[j] == BodyAt(c, lines, RecordAts(lines, k)[j])
    {
      if j < |run.bodies| {
        StillReads(c, lines, k, RecordAts(lines, k)[j]);
      }
    }
  }

  lemma NothingUnderNewRun(lines: seq<Line>)
    requires lines != [] && lines[|lines| - 1].RunLine?
    ensures RecordAts(lines, |lines| - 1) == []
  {
    hide RecordAts;
    if RecordAts(lines, |lines| - 1) != [] {
      assert RecordAts(lines, |lines| - 1)[0] in RecordAts(lines, |lines| - 1);
    }
  }

  /** A record line is under the last run line, and under no other. */
  lemma OnlyTheLast(lines: seq<Line>, k: nat)
    requires lines != [] && RecordUnder(lines, k, |lines| - 1)
    ensures var at := RunAts(lines[..|lines| - 1]); at != [] && k == at[|at| - 1]
  {
    OverLast(lines, k);
    LastRunIsOver(lines[..|lines| - 1]);
  }

  /** One more line, once every line so far was taken. */
  lemma {:induction false} NextIsTaken(c: Codec, lines: seq<Line>, s: RunsRead)
    requires lines != [] && AreRuns(c, lines[..|lines| - 1], s.runs) &&
             s.header == Headed(lines[..|lines| - 1], |lines| - 1)
    ensures ReadLine(c, s, lines[|lines| - 1]).Some? <==> Taken(c, lines, |lines| - 1)
  {
    hide RunAts, RecordAts;
    var n := |lines| - 1;
    HeadedStays(lines);
    if IsRecord(lines[n]) {
      LastRunIsOver(lines[..n]);
      if s.runs != [] {
        var k := RunAts(lines[..n])[|s.runs| - 1];
        assert IsRunAt(c, lines[..n], k, s.runs[|s.runs| - 1]);
        OverLast(lines, k);
        assert lines[..n][k] == lines[k] && RecordUnder(lines, k, n);
        assert s.runs[|s.runs| - 1].run == lines[k].block.run.value;
        assert ReadRecordLine(c, s, lines[n].record).Some? <==> ReadsFor(c, lines, k, n);
      }
      forall k: nat | RecordUnder(lines, k, n) ensures s.runs != [] && k == RunAts(lines[..n])[|s.runs| - 1] {
        OnlyTheLast(lines, k);
      }
      assert ReadRecordLine(c, s, lines[n].record).Some? <==> exists k: nat :: k < n && ReadsFor(c, lines, k, n);
    }
  }

  lemma HeadedStays(lines: seq<Line>)
    requires lines != []
    ensures Headed(lines, |lines| - 1) <==> Headed(lines[..|lines| - 1], |lines| - 1)
    ensures Headed(lines, |lines|) <==>
            Headed(lines, |lines| - 1) || (lines[|lines| - 1].HeaderLine? && lines[|lines| - 1].kind.WholeExport?)
  {
    var n := |lines| - 1;
    if Headed(lines, n) {
      var h :| 0 <= h < n && h < |lines| && lines[h].HeaderLine? && lines[h].kind.WholeExport?;
      assert lines[..n][h] == lines[h];
    }
    if Headed(lines, |lines|) {
      var h :| 0 <= h < |lines| && lines[h].HeaderLine? && lines[h].kind.WholeExport?;
    }
  }

  /** One more line that was taken. */
  lemma {:induction false} NextIsRead(c: Codec, lines: seq<Line>, s: RunsRead)
    requires lines != [] && AreRuns(c, lines[..|lines| - 1], s.runs) &&
             s.header == Headed(lines[..|lines| - 1], |lines| - 1)
    requires Taken(c, lines, |lines| - 1)
    ensures var t := ReadLine(c, s, lines[|lines| - 1]);
            t.Some? && t.value.header == Headed(lines, |lines|) && AreRuns(c, lines, t.value.runs)
  {
    hide RecordAts, IsRunAt, RecordUnder;
    var n := |lines| - 1;
    NextIsTaken(c, lines, s);
    HeadedStays(lines);
    var before, after := RunAts(lines[..n]), RunAts(lines);
    var t := ReadLine(c, s, lines[n]).value;
    if lines[n].RunLine? {
      assert after == before + [n];
      NewRunAt(c, lines, t.runs[|s.runs|]);
    } else {
      assert after == before;
    }
    if IsRecord(lines[n]) {
      var k: nat :| k < n && ReadsFor(c, lines, k, n);
      OnlyTheLast(lines, k);
      RunGrowsAt(c, lines, k, s.runs[|s.runs| - 1]);
    }
    forall i | 0 <= i < |s.runs| && (IsRecord(lines[n]) ==> i < |s.runs| - 1)
      ensures IsRunAt(c, lines, after[i], t.runs[i])
    {
      NotUnder(lines, i);
      RunStaysAt(c, lines, before[i], s.runs[i]);
    }
  }

  lemma NewRunAt(c: Codec, lines: seq<Line>, run: Run)
    requires lines != [] && lines[|lines| - 1].RunLine? && lines[|lines| - 1].block.run == Some(run.run) &&
             run.bodies == []
    ensures IsRunAt(c, lines, |lines| - 1, run)
  {
    hide RecordAts;
    NothingUnderNewRun(lines);
  }

  lemma NotUnder(lines: seq<Line>, i: nat)
    requires lines != [] && i < |RunAts(lines[..|lines| - 1])|
    requires IsRecord(lines[|lines| - 1]) ==> i < |RunAts(lines[..|lines| - 1])| - 1
    ensures !RecordUnder(lines, RunAts(lines[..|lines| - 1])[i], |lines| - 1)
  {
    hide RunAts;
    if RecordUnder(lines, RunAts(lines[..|lines| - 1])[i], |lines| - 1) {
      OnlyTheLast(lines, RunAts(lines[..|lines| - 1])[i]);
    }
  }

  /** The reader takes a file exactly when it takes every line of it; and what it
      read is the run lines in order, each with the bodies of exactly the record
      lines under it, in order. */
  lemma {:induction false} ReadsTheLines(c: Codec, lines: seq<Line>)
    ensures ReadRuns(c, lines).Some? <==> AllTaken(c, lines)
    ensures ReadRuns(c, lines).Some? ==>
              ReadRuns(c, lines).value.header == Headed(lines, |lines|) &&
              AreRuns(c, lines, ReadRuns(c, lines).value.runs)
  {
    hide ReadLine, Taken, AreRuns, Headed, AllTaken;
    if lines == [] {
      NoLines(c);
    } else {
      var n := |lines| - 1;
      ReadsTheLines(c, lines[..n]);
      AllTakenOfLast(c, lines);
      if ReadRuns(c, lines[..n]).Some? {
        NextIsTaken(c, lines, ReadRuns(c, lines[..n]).value);
        if Taken(c, lines, n) {
          NextIsRead(c, lines, ReadRuns(c, lines[..n]).value);
        }
      }
    }
  }

  lemma NoLines(c: Codec)
    ensures AllTaken(c, []) && AreRuns(c, [], []) && !Headed([], 0)
  {
  }

  // ── Which declaration governed a run ───────────────────────────────────

  /** Line `j` is an admission of the run at line `k`. */
  predicate Admits(c: Codec, lines: seq<Line>, k: nat, j: nat) {
    ReadsFor(c, lines, k, j) && BodyAt(c, lines, j).kind.RunAdmitted?
  }

  /** The run at line `k` was admitted under `d`: its first admission names it, or
      it has none. */
  ghost predicate AdmittedBy(c: Codec, lines: seq<Line>, k: nat, d: Option<Digest>) {
    k < |lines| && lines[k].RunLine? &&
    ((d.None? && forall j: nat :: !Admits(c, lines, k, j)) ||
     exists j: nat :: FirstAdmission(c, lines, k, j) && BodyAt(c, lines, j).kind.governedBy == d)
  }

  ghost predicate FirstAdmission(c: Codec, lines: seq<Line>, k: nat, j: nat) {
    Admits(c, lines, k, j) && forall x: nat :: Admits(c, lines, k, x) ==> j <= x
  }

  lemma {:induction false} FirstAdmitted(bodies: seq<Body>) returns (i: nat)
    ensures i <= |bodies| && (forall x :: 0 <= x < i ==> !bodies[x].kind.RunAdmitted?)
    ensures i < |bodies| ==> bodies[i].kind.RunAdmitted? && Governed(bodies) == bodies[i].kind.governedBy
    ensures i == |bodies| ==> Governed(bodies).None?
  {
    if bodies == [] {
      i := 0;
    } else if bodies[0].kind.RunAdmitted? {
      i := 0;
    } else {
      var rest := FirstAdmitted(bodies[1..]);
      i := rest + 1;
    }
  }

  lemma {:induction false} GovernedMeans(c: Codec, lines: seq<Line>, k: nat, run: Run, d: Option<Digest>)
    requires IsRunAt(c, lines, k, run)
    ensures Governed(run.bodies) == d <==> AdmittedBy(c, lines, k, d)
  {
    hide RecordAts, ReadsFor, Governed;
    var at := RecordAts(lines, k);
    var i := FirstAdmitted(run.bodies);
    forall j: nat | Admits(c, lines, k, j) ensures i < |at| && at[i] <= j {
      assert RecordUnder(lines, k, j) by { UnderReads(c, lines, k, j); }
      assert j in at;
      var x :| 0 <= x < |at| && at[x] == j;
      assert run.bodies[x].kind.RunAdmitted?;
    }
    if i < |at| {
      assert FirstAdmission(c, lines, k, at[i]);
    }
  }

  lemma UnderReads(c: Codec, lines: seq<Line>, k: nat, j: nat)
    requires ReadsFor(c, lines, k, j)
    ensures RecordUnder(lines, k, j)
  {
  }

  // ── A record line and the body read from it ────────────────────────────

  /** Line `j` is a record of a run admitted under `d`. */
  ghost predicate RecordOf(c: Codec, lines: seq<Line>, d: Option<Digest>, k: nat, j: nat) {
    ReadsFor(c, lines, k, j) && AdmittedBy(c, lines, k, d)
  }

  lemma {:induction false} LineHasBody(c: Codec, lines: seq<Line>, runs: seq<Run>, d: Option<Digest>, k: nat, j: nat)
    returns (i: nat, x: nat)
    requires AreRuns(c, lines, runs) && RecordOf(c, lines, d, k, j)
    ensures Governs(runs, d, i) && x < |runs[i].bodies| && runs[i].bodies[x] == BodyAt(c, lines, j)
    ensures lines[k].block.run == Some(runs[i].run)
  {
    hide RunAts, RecordAts, Governed, AdmittedBy;
    assert k in RunAts(lines);
    i :| 0 <= i < |RunAts(lines)| && RunAts(lines)[i] == k;
    assert j in RecordAts(lines, k);
    x :| 0 <= x < |RecordAts(lines, k)| && RecordAts(lines, k)[x] == j;
    GovernedMeans(c, lines, k, runs[i], d);
  }

  lemma {:induction false} BodyHasLine(c: Codec, lines: seq<Line>, runs: seq<Run>, d: Option<Digest>, i: nat, x: nat)
    returns (k: nat, j: nat)
    requires AreRuns(c, lines, runs) && Governs(runs, d, i) && x < |runs[i].bodies|
    ensures RecordOf(c, lines, d, k, j) && runs[i].bodies[x] == BodyAt(c, lines, j)
    ensures lines[k].block.run == Some(runs[i].run)
  {
    hide RunAts, RecordAts, Governed, AdmittedBy;
    k := RunAts(lines)[i];
    assert IsRunAt(c, lines, k, runs[i]);
    j := RecordAts(lines, k)[x];
    GovernedMeans(c, lines, k, runs[i], d);
  }

  // ── What the report says of the lines ──────────────────────────────────

  ghost predicate CalledIn(r: Rules, c: Codec, lines: seq<Line>, d: Option<Digest>, reference: string) {
    exists k: nat, j: nat ::
      RecordOf(c, lines, d, k, j) && r.parse(reference).Some? && Calls(r, BodyAt(c, lines, j), r.parse(reference).value)
  }

  ghost predicate UnreadableIn(r: Rules, c: Codec, lines: seq<Line>, d: Option<Digest>) {
    exists k: nat, j: nat :: RecordOf(c, lines, d, k, j) && Unread(r, BodyAt(c, lines, j))
  }

  ghost predicate RefusedIn(c: Codec, lines: seq<Line>, d: Option<Digest>) {
    exists k: nat, j: nat :: RecordOf(c, lines, d, k, j) && Denied(BodyAt(c, lines, j))
  }

  /** Call `(run, key)` of `reference` stands on a record line under `d`. */
  ghost predicate CallOn(r: Rules, c: Codec, lines: seq<Line>, d: Option<Digest>, reference: string, run: RunId,
                         key: Option<nat>) {
    exists k: nat, j: nat ::
      RecordOf(c, lines, d, k, j) && lines[k].block.run == Some(run) && r.parse(reference).Some? &&
      Calls(r, BodyAt(c, lines, j), r.parse(reference).value) && BodyAt(c, lines, j).effectKey == key
  }

  lemma {:induction false} CallsOnLines(r: Rules, c: Codec, lines: seq<Line>, runs: seq<Run>, d: Option<Digest>,
                                        reference: string, run: RunId, key: Option<nat>)
    requires AreRuns(c, lines, runs) && Grouped(r, runs).Some?
    ensures (run, key) in CallsOf(r, GroupAt(Grouped(r, runs).value, d), reference) <==>
            CallOn(r, c, lines, d, reference, run, key)
  {
    hide AreRuns, Grouped, Calls, Governed, AdmittedBy;
    var g := GroupAt(Grouped(r, runs).value, d);
    if r.parse(reference).Some? {
      var t := r.parse(reference).value;
      GroupedExactly(r, runs, d, t, run, key);
      if NamedUnder(r, runs, d, t, run, key) {
        var i: nat :| Governs(runs, d, i) && runs[i].run == run && NamedIn(r, runs[i].bodies, t, key);
        var x :| 0 <= x < |runs[i].bodies| && Calls(r, runs[i].bodies[x], t) && runs[i].bodies[x].effectKey == key;
        var k, j := BodyHasLine(c, lines, runs, d, i, x);
      }
      if CallOn(r, c, lines, d, reference, run, key) {
        var k: nat, j: nat :| RecordOf(c, lines, d, k, j) && lines[k].block.run == Some(run) &&
                              Calls(r, BodyAt(c, lines, j), t) && BodyAt(c, lines, j).effectKey == key;
        var i, x := LineHasBody(c, lines, runs, d, k, j);
        assert NamedIn(r, runs[i].bodies, t, key);
        assert NamedUnder(r, runs, d, t, run, key);
      }
    }
  }

  lemma {:induction false} SilentOnLines(r: Rules, c: Codec, lines: seq<Line>, runs: seq<Run>, d: Option<Digest>)
    requires AreRuns(c, lines, runs)
    ensures UnreadUnder(r, runs, d) <==> UnreadableIn(r, c, lines, d)
    ensures DeniedUnder(runs, d) <==> RefusedIn(c, lines, d)
  {
    hide AreRuns, Governed, AdmittedBy, Unread, Denied;
    if UnreadUnder(r, runs, d) {
      var i: nat :| Governs(runs, d, i) && UnreadIn(r, runs[i].bodies);
      var x :| 0 <= x < |runs[i].bodies| && Unread(r, runs[i].bodies[x]);
      var k, j := BodyHasLine(c, lines, runs, d, i, x);
    }
    if UnreadableIn(r, c, lines, d) {
      var k: nat, j: nat :| RecordOf(c, lines, d, k, j) && Unread(r, BodyAt(c, lines, j));
      var i, x := LineHasBody(c, lines, runs, d, k, j);
      assert UnreadIn(r, runs[i].bodies);
    }
    if DeniedUnder(runs, d) {
      var i: nat :| Governs(runs, d, i) && DeniedIn(runs[i].bodies);
      var x :| 0 <= x < |runs[i].bodies| && Denied(runs[i].bodies[x]);
      var k, j := BodyHasLine(c, lines, runs, d, i, x);
    }
    if RefusedIn(c, lines, d) {
      var k: nat, j: nat :| RecordOf(c, lines, d, k, j) && Denied(BodyAt(c, lines, j));
      var i, x := LineHasBody(c, lines, runs, d, k, j);
      assert DeniedIn(runs[i].bodies);
    }
  }

  /** When a report is refused, read off the lines; and otherwise which rows it
      has. */
  lemma {:induction false} ReportsWhen(r: Rules, c: Codec, lines: seq<Line>, manifests: seq<Manifest>,
                                       result: ReportResult)
    requires IsReport(r, c, lines, manifests, result)
    ensures result == Err(NotAnExport) <==> !AllTaken(c, lines) || !Headed(lines, |lines|)
    ensures result == Err(KeysFailed) <==>
            result != Err(NotAnExport) &&
            exists d, k: nat, j: nat :: RecordOf(c, lines, d, k, j) && RingFails(r, BodyAt(c, lines, j))
    ensures result.Ok? ==> forall d :: d in result.value <==> exists k: nat :: AdmittedBy(c, lines, k, d)
  {
    hide AllTaken, Headed, AreRuns, Grouped, IsRow, RingFails, AdmittedBy, ReadsFor;
    ReadsTheLines(c, lines);
    if ReadRuns(c, lines).Some? {
      var runs := ReadRuns(c, lines).value.runs;
      FailsOnLines(r, c, lines, runs);
      if result.Ok? {
        forall d ensures d in result.value <==> exists k: nat :: AdmittedBy(c, lines, k, d) {
          GroupCounts(r, Sealeds, runs, d);
          RunsOnLines(c, lines, runs, d);
        }
      }
    }
  }

  lemma {:induction false} FailsOnLines(r: Rules, c: Codec, lines: seq<Line>, runs: seq<Run>)
    requires AreRuns(c, lines, runs)
    ensures Grouped(r, runs).None? <==>
            exists d, k: nat, j: nat :: RecordOf(c, lines, d, k, j) && RingFails(r, BodyAt(c, lines, j))
  {
    hide AreRuns, Grouped, Governed, AdmittedBy, RingFails;
    PassFails(r, runs);
    if i, x :| 0 <= i < |runs| && 0 <= x < |runs[i].bodies| && RingFails(r, runs[i].bodies[x]) {
      var k, j := BodyHasLine(c, lines, runs, Governed(runs[i].bodies), i, x);
    }
    if d, k: nat, j: nat :| RecordOf(c, lines, d, k, j) && RingFails(r, BodyAt(c, lines, j)) {
      var i, x := LineHasBody(c, lines, runs, d, k, j);
    }
  }

  lemma {:induction false} RunsOnLines(c: Codec, lines: seq<Line>, runs: seq<Run>, d: Option<Digest>)
    requires AreRuns(c, lines, runs)
    ensures (exists i: nat :: Governs(runs, d, i)) <==> exists k: nat :: AdmittedBy(c, lines, k, d)
  {
    hide RunAts, RecordAts, Governed, ReadsFor;
    if i: nat :| Governs(runs, d, i) {
      GovernedMeans(c, lines, RunAts(lines)[i], runs[i], d);
    }
    if k: nat :| AdmittedBy(c, lines, k, d) {
      assert k in RunAts(lines);
      var i: nat :| i < |RunAts(lines)| && RunAts(lines)[i] == k;
      GovernedMeans(c, lines, k, runs[i], d);
      assert Governs(runs, d, i);
    }
  }

  /** What each row says of the file.  A mark is decided by whether a record line
      under the declaration is a readable call of the grant, a call nobody could
      read, or a refused one, in that order; and a row's count is the number of
      different calls on those lines. */
  lemma {:induction false} MarksMean(r: Rules, c: Codec, lines: seq<Line>, manifests: seq<Manifest>,
                                     result: ReportResult, d: Option<Digest>, m: Manifest, i: nat)
    returns (on: set<(RunId, Option<nat>)>)
    requires IsReport(r, c, lines, manifests, result) && result.Ok? && d in result.value
    requires result.value[d].manifest == Some(m) && i < |m.tools|
    ensures |result.value[d].grants| == |m.tools| && result.value[d].grants[i].reference == m.tools[i]
    ensures result.value[d].grants[i].mark ==
            if CalledIn(r, c, lines, d, m.tools[i]) then Used
            else if UnreadableIn(r, c, lines, d) then NotEstablished
            else if RefusedIn(c, lines, d) then UnusedRefusalsNotAttributable
            else Unused
    ensures result.value[d].grants[i].calls == |on|
    ensures forall run: RunId, key :: (run, key) in on <==> CallOn(r, c, lines, d, m.tools[i], run, key)
  {
    hide AreRuns, Grouped, Settled, RecordOf, Calls, CallsOf, CallOn, CalledIn, UnreadableIn, RefusedIn, AllTaken, Headed,
         UnreadUnder, DeniedUnder;
    ReadsTheLines(c, lines);
    var runs := ReadRuns(c, lines).value.runs;
    var g := GroupAt(Grouped(r, runs).value, d);
    assert IsRow(r, manifests, d, g, result.value[d]);
    on := CallsOf(r, g, m.tools[i]);
    forall run: RunId, key ensures (run, key) in on <==> CallOn(r, c, lines, d, m.tools[i], run, key) {
      CallsOnLines(r, c, lines, runs, d, m.tools[i], run, key);
    }
    CalledMeans(r, c, lines, d, m.tools[i]);
    if on != {} {
      var call :| call in on;
      assert CallOn(r, c, lines, d, m.tools[i], call.0, call.1);
    }
    GroupedExactly(r, runs, d, ToolId("", ""), 0, None);
    SilentOnLines(r, c, lines, runs, d);
  }

  lemma CalledMeans(r: Rules, c: Codec, lines: seq<Line>, d: Option<Digest>, reference: string)
    ensures CalledIn(r, c, lines, d, reference) <==> exists run: RunId, key :: CallOn(r, c, lines, d, reference, run, key)
  {
    hide AdmittedBy, Calls;
    if k: nat, j: nat :| RecordOf(c, lines, d, k, j) && r.parse(reference).Some? &&
                         Calls(r, BodyAt(c, lines, j), r.parse(reference).value)
    {
      assert CallOn(r, c, lines, d, reference, lines[k].block.run.value, BodyAt(c, lines, j).effectKey);
    }
  }

  /** A row is measured against the first manifest supplied with its digest. */
  lemma {:induction false} FirstSupplied(r: Rules, manifests: seq<Manifest>, d: Option<Digest>)
    ensures Supplied(r, manifests, d).None? <==>
            d.None? || forall i :: 0 <= i < |manifests| ==> r.digest(manifests[i]) != d.value
    ensures Supplied(r, manifests, d).Some? ==>
              exists i :: 0 <= i < |manifests| && Supplied(r, manifests, d) == Some(manifests[i]) &&
                          Some(r.digest(manifests[i])) == d &&
                          forall x :: 0 <= x < i ==> r.digest(manifests[x]) != d.value
  {
    if d.Some? && manifests != [] {
      var n := |manifests| - 1;
      FirstSupplied(r, manifests[..n], d);
      assert forall i :: 0 <= i < n ==> manifests[..n][i] == manifests[i];
    }
  }

  lemma {:induction false} SafeOnLines(r: Rules, c: Codec, lines: seq<Line>, runs: seq<Run>, m: Manifest,
                                       rows: seq<GrantRow>, p: Proposal)
    requires AreRuns(c, lines, runs) && Grouped(r, runs).Some? && Settled(r, m, rows, p)
    requires var g := GroupAt(Grouped(r, runs).value, Some(r.digest(m)));
             |rows| == |m.tools| && forall i :: 0 <= i < |rows| ==> rows[i] == RowOf(r, g, m.tools[i])
    ensures forall k: nat, j: nat, t ::
              RecordOf(c, lines, Some(r.digest(m)), k, j) && Calls(r, BodyAt(c, lines, j), t) && Grants(r, m, t) ==>
              Grants(r, p.manifest, t)
    ensures UnreadableIn(r, c, lines, Some(r.digest(m))) ==> p.manifest == m
    ensures p.manifest == m.(tools := Without(m.tools, p.removed)) && (r.valid(m) ==> r.valid(p.manifest))
  {
    hide AreRuns, Grouped, Governed, AdmittedBy, Calls, Unread, Grants, Settled, RowOf, Without;
    var d := Some(r.digest(m));
    SafeProposal(r, runs, m, rows, p);
    forall k: nat, j: nat, t | RecordOf(c, lines, d, k, j) && Calls(r, BodyAt(c, lines, j), t) && Grants(r, m, t)
      ensures Grants(r, p.manifest, t)
    {
      var i, x := LineHasBody(c, lines, runs, d, k, j);
    }
    if UnreadableIn(r, c, lines, d) {
      var k: nat, j: nat :| RecordOf(c, lines, d, k, j) && Unread(r, BodyAt(c, lines, j));
      var i, x := LineHasBody(c, lines, runs, d, k, j);
    }
  }

  lemma {:induction false} RemovedIsUnused(r: Rules, c: Codec, lines: seq<Line>, manifests: seq<Manifest>,
                                           result: ReportResult, d: Option<Digest>, m: Manifest, reference: string)
    requires IsReport(r, c, lines, manifests, result) && result.Ok? && d in result.value
    requires result.value[d].manifest == Some(m) && result.value[d].proposal.Some?
    requires MarkedUnused(result.value[d].grants, reference)
    ensures !CalledIn(r, c, lines, d, reference) && !UnreadableIn(r, c, lines, d) && !RefusedIn(c, lines, d)
  {
    hide IsReport, CalledIn, UnreadableIn, RefusedIn;
    var rows := result.value[d].grants;
    var x :| 0 <= x < |rows| && rows[x].mark.Unused? && rows[x].reference == reference;
    RowsAreTools(r, c, lines, manifests, result, d, m);
    var on := MarksMean(r, c, lines, manifests, result, d, m, x);
  }

  lemma RowsAreTools(r: Rules, c: Codec, lines: seq<Line>, manifests: seq<Manifest>, result: ReportResult,
                     d: Option<Digest>, m: Manifest)
    requires IsReport(r, c, lines, manifests, result) && result.Ok? && d in result.value
    requires result.value[d].manifest == Some(m)
    ensures |result.value[d].grants| == |m.tools|
  {
    hide ReadRuns, Grouped, Settled, RowOf;
  }

  /** What a proposal does to a file's grants: every readable call the manifest
      granted is still granted; under an unreadable call nothing is removed; and
      each tool is dropped only if no record line speaks for it, and an unused
      one is kept only because the manifest would not validate without it. */
  lemma {:induction false} ProposalIsSafe(r: Rules, c: Codec, lines: seq<Line>, manifests: seq<Manifest>,
                                          result: ReportResult, d: Option<Digest>, m: Manifest)
    requires IsReport(r, c, lines, manifests, result) && result.Ok? && d in result.value
    requires result.value[d].manifest == Some(m)
    ensures result.value[d].proposal.Some?
    ensures var p := result.value[d].proposal.value;
            (forall k: nat, j: nat, t ::
               RecordOf(c, lines, d, k, j) && Calls(r, BodyAt(c, lines, j), t) && Grants(r, m, t) ==>
               Grants(r, p.manifest, t)) &&
            (UnreadableIn(r, c, lines, d) ==> p.manifest == m) &&
            p.manifest == m.(tools := Without(m.tools, p.removed)) && (r.valid(m) ==> r.valid(p.manifest)) &&
            forall i :: 0 <= i < |m.tools| ==>
              (m.tools[i] !in p.manifest.tools ==>
                 !CalledIn(r, c, lines, d, m.tools[i]) && !UnreadableIn(r, c, lines, d) && !RefusedIn(c, lines, d)) &&
              (!CalledIn(r, c, lines, d, m.tools[i]) && !UnreadableIn(r, c, lines, d) && !RefusedIn(c, lines, d) ==>
                 m.tools[i] !in p.manifest.tools || Kept(r, m, p.removed, m.tools[i]))
  {
    hide AreRuns, Grouped, RecordOf, Calls, CalledIn, UnreadableIn, RefusedIn, AllTaken, Headed, UnreadUnder, DeniedUnder,
         RowOf, Without, Kept, Governs, Grants, Unread, Governed;
    ReadsTheLines(c, lines);
    FirstSupplied(r, manifests, d);
    var runs := ReadRuns(c, lines).value.runs;
    var g := GroupAt(Grouped(r, runs).value, d);
    assert IsRow(r, manifests, d, g, result.value[d]);
    var p := result.value[d].proposal.value;
    SafeOnLines(r, c, lines, runs, m, result.value[d].grants, p);
    WithoutNone(m.tools);
    forall i | 0 <= i < |m.tools|
      ensures m.tools[i] !in p.manifest.tools ==>
                !CalledIn(r, c, lines, d, m.tools[i]) && !UnreadableIn(r, c, lines, d) && !RefusedIn(c, lines, d)
      ensures !CalledIn(r, c, lines, d, m.tools[i]) && !UnreadableIn(r, c, lines, d) && !RefusedIn(c, lines, d) ==>
                m.tools[i] !in p.manifest.tools || Kept(r, m, p.removed, m.tools[i])
    {
      var on := MarksMean(r, c, lines, manifests, result, d, m, i);
      WithoutKeeps(m.tools, p.removed, m.tools[i]);
      if m.tools[i] !in p.manifest.tools {
        RemovedIsUnused(r, c, lines, manifests, result, d, m, m.tools[i]);
      }
    }
  }
}
