/** The leaves of a written file put back in log order. */
module LogOrder {
  import opened Wrappers
  import opened Hashing
  import opened Merkle
  import opened Wire
  import opened VerifySpec
  import opened Binding
  import opened Planes
  import opened WriterSpec
  import opened WriterMeetsVerifier

  function LogLeaves(h: Hash, p: Plane, n: nat): (leaves: seq<Leaf>)
    requires n <= |p.log|
    ensures |leaves| == n
    ensures forall i :: 0 <= i < n ==> leaves[i] == (i, LeafHashOf(h, SealOf(p, p.log[i])))
  {
    if n == 0 then [] else LogLeaves(h, p, n - 1) + [(n - 1, LeafHashOf(h, SealOf(p, p.log[n - 1])))]
  }

  lemma HashesOfLog(h: Hash, p: Plane, n: nat, k: nat)
    requires k <= n <= |p.log|
    ensures Hashes(LogLeaves(h, p, n)[..k]) == LogHashes(h, p, k)
    ensures Contiguous(LogLeaves(h, p, n)[..k])
  {
    hide *;
    var leaves := LogLeaves(h, p, n)[..k];
    forall i | 0 <= i < k ensures Hashes(leaves)[i] == LogHashes(h, p, k)[i] {
    }
    ContiguousLog(h, p, n, k);
  }

  lemma ContiguousLog(h: Hash, p: Plane, n: nat, k: nat)
    requires k <= n <= |p.log|
    ensures Contiguous(LogLeaves(h, p, n)[..k])
  {
    hide LogLeaves;
  }

  ghost predicate Strict(leaves: seq<Leaf>) {
    forall i, j :: 0 <= i < j < |leaves| ==> leaves[i].0 < leaves[j].0
  }

  ghost predicate Apart(leaves: seq<Leaf>) {
    forall i, j :: 0 <= i < j < |leaves| ==> leaves[i].0 != leaves[j].0
  }

  lemma {:induction false} InsertStrict(leaves: seq<Leaf>, x: Leaf)
    requires Strict(leaves) && forall i :: 0 <= i < |leaves| ==> leaves[i].0 != x.0
    ensures Strict(Insert(leaves, x))
  {
    hide LeafHashOf;
    if leaves == [] || leaves[|leaves| - 1].0 <= x.0 {
    } else {
      var n := |leaves| - 1;
      InsertStrict(leaves[..n], x);
      InsertKeeps(leaves[..n], x);
      var inner := Insert(leaves[..n], x);
      forall i | 0 <= i < |inner| ensures inner[i].0 < leaves[n].0 {
        assert inner[i] in multiset(inner);
        assert inner[i] == x || inner[i] in leaves[..n];
      }
    }
  }

  lemma SortedElement(leaves: seq<Leaf>, x: Leaf)
    ensures x in leaves <==> x in Sorted(leaves)
  {
    hide Sorted;
    SortedKeeps(leaves);
    assert x in leaves <==> x in multiset(leaves);
    assert x in Sorted(leaves) <==> x in multiset(Sorted(leaves));
  }

  lemma {:induction false} SortedStrict(leaves: seq<Leaf>)
    requires Apart(leaves)
    ensures Strict(Sorted(leaves))
  {
    hide Insert, Apart, LeafHashOf;
    if leaves != [] {
      var n := |leaves| - 1;
      ApartFront(leaves);
      SortedStrict(leaves[..n]);
      var sorted := Sorted(leaves[..n]);
      forall i | 0 <= i < |sorted| ensures sorted[i].0 != leaves[n].0 {
        SortedElement(leaves[..n], sorted[i]);
        ApartFromLast(leaves, sorted[i]);
      }
      InsertStrict(sorted, leaves[n]);
      SortedParts(leaves);
    }
  }

  lemma ApartFromLast(leaves: seq<Leaf>, x: Leaf)
    requires Apart(leaves) && leaves != [] && x in leaves[..|leaves| - 1]
    ensures x.0 != leaves[|leaves| - 1].0
  {
  }

  lemma ApartFront(leaves: seq<Leaf>)
    requires Apart(leaves) && leaves != []
    ensures Apart(leaves[..|leaves| - 1])
  {
  }

  lemma {:induction false} SortedParts(leaves: seq<Leaf>)
    requires leaves != []
    ensures Sorted(leaves) == Insert(Sorted(leaves[..|leaves| - 1]), leaves[|leaves| - 1])
  {
    hide Insert;
  }

  /** Some leaf claims position `k`. */
  ghost predicate ClaimsAt(s: seq<Leaf>, k: nat) {
    exists i :: 0 <= i < |s| && s[i].0 == k
  }

  lemma Claimed(s: seq<Leaf>, x: Leaf)
    requires x in s
    ensures ClaimsAt(s, x.0)
  {
  }

  /** A strictly ordered list of positions from `from` on, missing none of
      them, is the run of positions itself. */
  lemma {:induction false} StrictCovers(s: seq<Leaf>, from: nat, end: nat)
    requires Strict(s) && from <= end
    requires forall i :: 0 <= i < |s| ==> from <= s[i].0 < end
    requires forall k: nat :: from <= k < end ==> ClaimsAt(s, k)
    decreases end - from
    ensures |s| == end - from
    ensures forall i :: 0 <= i < |s| ==> s[i].0 == from + i
  {
    assert s == [] || from <= s[0].0 < end;
    if from < end {
      assert ClaimsAt(s, from);
      var at :| 0 <= at < |s| && s[at].0 == from;
      assert at == 0;
      forall k: nat | from + 1 <= k < end ensures ClaimsAt(s[1..], k) {
        assert ClaimsAt(s, k);
        var i :| 0 <= i < |s| && s[i].0 == k;
        assert s[1..][i - 1].0 == k;
      }
      StrictCovers(s[1..], from + 1, end);
      forall i | 0 <= i < |s| ensures s[i].0 == from + i {
        if i > 0 {
          assert s[i] == s[1..][i - 1];
        }
      }
    }
  }

  // ── The leaves a writer took ───────────────────────────────────────────

  /** Every leaf is a position of `p`, claimed by the run it belongs to. */
  ghost predicate Positioned(p: Plane, takens: seq<Taken>) {
    forall i :: 0 <= i < |takens| ==> takens[i].placed == PositionOf(p, takens[i].run)
  }

  ghost predicate Distinct(takens: seq<Taken>) {
    forall i, j :: 0 <= i < j < |takens| ==> takens[i].run != takens[j].run
  }

  lemma {:induction false} LeafTaken(h: Hash, takens: seq<Taken>, x: Leaf) returns (i: nat)
    requires x in LeavesTaken(h, takens)
    ensures i < |takens| && takens[i].placed.Some?
    ensures x == (takens[i].placed.value.0, LeafHashOf(h, takens[i].placed.value.1))
  {
    var n := |takens| - 1;
    if x in LeavesTaken(h, takens[..n]) {
      i := LeafTaken(h, takens[..n], x);
    } else {
      i := n;
    }
  }

  lemma {:induction false} TakenHasLeaf(h: Hash, takens: seq<Taken>, i: nat)
    requires i < |takens| && takens[i].placed.Some?
    ensures (takens[i].placed.value.0, LeafHashOf(h, takens[i].placed.value.1)) in LeavesTaken(h, takens)
  {
    if i < |takens| - 1 {
      TakenHasLeaf(h, takens[..|takens| - 1], i);
    }
  }

  lemma PositionSays(p: Plane, run: RunId)
    ensures var at := PositionOf(p, run);
            (at.Some? <==> run in p.log) &&
            (at.Some? ==> at.value.0 < |p.log| && p.log[at.value.0] == run && at.value.1 == SealOf(p, run))
  {
    hide IndexIn;
  }

  lemma {:induction false} LeavesApart(h: Hash, p: Plane, takens: seq<Taken>)
    requires Positioned(p, takens) && Distinct(takens)
    ensures Apart(LeavesTaken(h, takens))
  {
    hide PositionOf, LeafHashOf;
    if takens != [] {
      var n := |takens| - 1;
      LeavesApart(h, p, takens[..n]);
      var front := LeavesTaken(h, takens[..n]);
      PositionSays(p, takens[n].run);
      forall i | 0 <= i < |front| && takens[n].placed.Some? ensures front[i].0 != takens[n].placed.value.0 {
        var j := LeafTaken(h, takens[..n], front[i]);
        PositionSays(p, takens[j].run);
      }
    }
  }

  lemma LeafAt(h: Hash, p: Plane, takens: seq<Taken>, x: Leaf)
    requires Positioned(p, takens) && x in LeavesTaken(h, takens)
    ensures x.0 < |p.log| && x.1 == LeafHashOf(h, SealOf(p, p.log[x.0]))
  {
    hide PositionOf, LeafHashOf;
    var j := LeafTaken(h, takens, x);
    PositionSays(p, takens[j].run);
  }

  ghost predicate TakesRun(takens: seq<Taken>, run: RunId) {
    exists i :: 0 <= i < |takens| && takens[i].run == run
  }

  lemma LeafOf(h: Hash, p: Plane, takens: seq<Taken>, k: nat)
    requires Positioned(p, takens) && k < |p.log| && forall a, b :: 0 <= a < b < |p.log| ==> p.log[a] != p.log[b]
    requires TakesRun(takens, p.log[k])
    ensures exists x :: x in LeavesTaken(h, takens) && x.0 == k
  {
    hide PositionOf, LeafHashOf;
    var i :| 0 <= i < |takens| && takens[i].run == p.log[k];
    PositionSays(p, takens[i].run);
    TakenHasLeaf(h, takens, i);
    assert takens[i].placed.value.0 == k;
  }

  /** The leaves of an export that covers the log, in log order, are the log. */
  lemma {:induction false} LeavesAreTheLog(h: Hash, p: Plane, takens: seq<Taken>)
    requires Positioned(p, takens) && Distinct(takens)
    requires forall a, b :: 0 <= a < b < |p.log| ==> p.log[a] != p.log[b]
    requires forall k :: 0 <= k < |p.log| ==> TakesRun(takens, p.log[k])
    ensures Sorted(LeavesTaken(h, takens)) == LogLeaves(h, p, |p.log|)
  {
    hide *;
    var leaves := LeavesTaken(h, takens);
    var sorted := Sorted(leaves);
    LeavesApart(h, p, takens);
    SortedStrict(leaves);
    forall i | 0 <= i < |sorted|
      ensures 0 <= sorted[i].0 < |p.log| && sorted[i].1 == LeafHashOf(h, SealOf(p, p.log[sorted[i].0]))
    {
      SortedElement(leaves, sorted[i]);
      LeafAt(h, p, takens, sorted[i]);
    }
    forall k: nat | 0 <= k < |p.log| ensures ClaimsAt(sorted, k) {
      LeafOf(h, p, takens, k);
      var x :| x in leaves && x.0 == k;
      SortedElement(leaves, x);
      Claimed(sorted, x);
    }
    StrictCovers(sorted, 0, |p.log|);
    forall i | 0 <= i < |p.log| ensures sorted[i] == LogLeaves(h, p, |p.log|)[i] {
    }
  }
}
