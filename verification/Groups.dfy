/** Groups opened and never settled: what the leftover count of a key means,
    and the loop that lists them. */
module Groups {
  import opened Wrappers
  import opened Wire

  /** A group as the audit counts it: the writing step, the phase and the name. */
  type Key = (Option<nat>, Phase, string)

  predicate Opens(r: Record, k: Key) {
    r.body.kind.GroupOpened? && (r.body.step, r.body.phase, r.body.kind.group) == k
  }

  predicate Settles(r: Record, k: Key) {
    r.body.kind.GroupSettled? && (r.body.step, r.body.phase, r.body.kind.group) == k
  }

  /** The count a key is left with: each settlement excuses one opening still
      standing, and one with nothing to excuse is ignored. */
  function Leftover(records: seq<Record>, k: Key): nat {
    if records == [] then 0
    else
      var before := Leftover(records[..|records| - 1], k);
      var last := records[|records| - 1];
      if Opens(last, k) then before + 1
      else if Settles(last, k) then (if before > 0 then before - 1 else 0)
      else before
  }

  // ── As a maximum over suffixes ─────────────────────────────────────────

  /** Openings minus settlements of a key. */
  function Net(records: seq<Record>, k: Key): int {
    if records == [] then 0
    else
      var last := records[|records| - 1];
      Net(records[..|records| - 1], k) + (if Opens(last, k) then 1 else if Settles(last, k) then -1 else 0)
  }

  lemma NetOfAppend(records: seq<Record>, r: Record, k: Key)
    ensures Net(records + [r], k) == Net(records, k) + (if Opens(r, k) then 1 else if Settles(r, k) then -1 else 0)
  {
    assert (records + [r])[..|records|] == records;
  }

  lemma NetOfSuffix(records: seq<Record>, j: nat, k: Key)
    requires j < |records|
    ensures var n := |records| - 1;
            Net(records[j..], k) ==
            Net(records[..n][j..], k) + (if Opens(records[n], k) then 1 else if Settles(records[n], k) then -1 else 0)
  {
    hide *;
    var n := |records| - 1;
    NetOfAppend(records[..n][j..], records[n], k);
    assert records[j..] == records[..n][j..] + [records[n]];
  }

  lemma NetOfNothing(k: Key)
    ensures Net([], k) == 0
  {
  }

  /** No suffix nets more than the leftover, and some suffix nets exactly it:
      the leftover is the maximum over all suffixes, the empty one included. */
  lemma {:induction false} LeftoverIsMaxSuffix(records: seq<Record>, k: Key) returns (best: nat)
    ensures forall j :: 0 <= j <= |records| ==> Net(records[j..], k) <= Leftover(records, k)
    ensures best <= |records| && Net(records[best..], k) == Leftover(records, k)
  {
    hide Net, Opens, Settles;
    var n := |records|;
    NetOfNothing(k);
    assert records[n..] == [];
    best := n;
    if n > 0 {
      var front := records[..n - 1];
      var i := LeftoverIsMaxSuffix(front, k);
      forall j | 0 <= j <= n ensures Net(records[j..], k) <= Leftover(records, k) {
        if j < n {
          NetOfSuffix(records, j, k);
        }
      }
      NetOfSuffix(records, i, k);
      NotBoth(records[n - 1], k);
      if !Settles(records[n - 1], k) || Leftover(front, k) > 0 {
        best := i;
      }
    }
  }

  // ── As a matching ──────────────────────────────────────────────────────

  function Openings(records: seq<Record>, k: Key, from: nat): set<nat> {
    set i: nat | from <= i < |records| && Opens(records[i], k)
  }

  function Settlements(records: seq<Record>, k: Key, from: nat): set<nat> {
    set i: nat | from <= i < |records| && Settles(records[i], k)
  }

  /** Some openings of a key, each paired with a later settlement of its own. */
  ghost predicate Pairs(records: seq<Record>, k: Key, m: map<nat, nat>) {
    m.Keys <= Openings(records, k, 0) &&
    (forall i :: i in m ==> m[i] in Settlements(records, k, 0) && i < m[i]) &&
    (forall i, j :: i in m && j in m && m[i] == m[j] ==> i == j)
  }

  /** Every opening of the key is paired. */
  ghost predicate Matching(records: seq<Record>, k: Key, m: map<nat, nat>) {
    Pairs(records, k, m) && m.Keys == Openings(records, k, 0)
  }

  lemma OpeningsOfAppend(records: seq<Record>, k: Key, from: nat)
    requires records != [] && from <= |records| - 1
    ensures var n := |records| - 1;
            Openings(records, k, from) == Openings(records[..n], k, from) + (if Opens(records[n], k) then {n} else {}) &&
            n !in Openings(records[..n], k, from)
  {
    hide Opens;
  }

  lemma SettlementsOfAppend(records: seq<Record>, k: Key, from: nat)
    requires records != [] && from <= |records| - 1
    ensures var n := |records| - 1;
            Settlements(records, k, from) ==
            Settlements(records[..n], k, from) + (if Settles(records[n], k) then {n} else {}) &&
            n !in Settlements(records[..n], k, from)
  {
    hide Settles;
  }

  lemma SizeOfAppend(records: seq<Record>, k: Key, from: nat)
    requires records != [] && from <= |records| - 1
    ensures var n := |records| - 1;
            |Openings(records, k, from)| == |Openings(records[..n], k, from)| + (if Opens(records[n], k) then 1 else 0) &&
            |Settlements(records, k, from)| ==
            |Settlements(records[..n], k, from)| + (if Settles(records[n], k) then 1 else 0)
  {
    hide *;
    OpeningsOfAppend(records, k, from);
    SettlementsOfAppend(records, k, from);
  }

  /** A suffix nets its openings minus its settlements. */
  lemma {:induction false} NetCounts(records: seq<Record>, k: Key, from: nat)
    requires from <= |records|
    ensures Net(records[from..], k) == |Openings(records, k, from)| - |Settlements(records, k, from)|
  {
    if from == |records| {
      assert records[from..] == [] && Openings(records, k, from) == {} && Settlements(records, k, from) == {};
    } else {
      var n := |records| - 1;
      NetCounts(records[..n], k, from);
      SizeOfAppend(records, k, from);
      assert records[from..] == records[..n][from..] + [records[n]];
      NetOfAppend(records[..n][from..], records[n], k);
    }
  }

  /** An injection does not shrink a set. */
  lemma {:induction false} InjectionFits(a: set<nat>, b: set<nat>, m: map<nat, nat>)
    requires forall i :: i in a ==> i in m && m[i] in b
    requires forall i, j :: i in a && j in a && m[i] == m[j] ==> i == j
    ensures |a| <= |b|
  {
    if a != {} {
      var x :| x in a;
      InjectionFits(a - {x}, b - {m[x]}, m);
    }
  }

  /** A matching leaves no suffix with more openings than settlements. */
  lemma MatchingBoundsSuffix(records: seq<Record>, k: Key, m: map<nat, nat>, j: nat)
    requires Matching(records, k, m) && j <= |records|
    ensures Net(records[j..], k) <= 0
  {
    NetCounts(records, k, j);
    InjectionFits(Openings(records, k, j), Settlements(records, k, j), m);
  }

  lemma PairsStay(records: seq<Record>, k: Key, m: map<nat, nat>)
    requires records != [] && Pairs(records[..|records| - 1], k, m)
    ensures Pairs(records, k, m) && forall i :: i in m ==> m[i] < |records| - 1
  {
    hide Opens, Settles;
  }

  lemma PairsGrow(records: seq<Record>, k: Key, m: map<nat, nat>, i: nat)
    requires records != [] && Pairs(records[..|records| - 1], k, m) && Settles(records[|records| - 1], k)
    requires i in Openings(records[..|records| - 1], k, 0)
    ensures Pairs(records, k, m[i := |records| - 1])
  {
    hide Opens, Settles;
    PairsStay(records, k, m);
  }

  lemma NoOpenings(k: Key)
    ensures Openings([], k, 0) == {} && Pairs([], k, map[])
  {
  }

  /** Pair openings with settlements as they come, each settlement with some
      opening still standing; what is left unpaired is as many as the leftover
      count. */
  lemma {:induction false} PairUp(records: seq<Record>, k: Key) returns (m: map<nat, nat>)
    ensures Pairs(records, k, m) && |Openings(records, k, 0) - m.Keys| == Leftover(records, k)
  {
    hide Openings, Pairs, Opens, Settles;
    if records == [] {
      m := map[];
      NoOpenings(k);
      assert Openings(records, k, 0) - m.Keys == {};
    } else {
      var n := |records| - 1;
      m := PairUp(records[..n], k);
      var before := Openings(records[..n], k, 0);
      PairsStay(records, k, m);
      OpeningsOfAppend(records, k, 0);
      KeysAreEarlier(records, k, m);
      NotBoth(records[n], k);
      if Opens(records[n], k) {
        OneMoreStands(before, m.Keys, n);
      } else if Settles(records[n], k) && before - m.Keys != {} {
        var i :| i in before - m.Keys;
        PairsGrow(records, k, m, i);
        OneFewerStands(before, m, i, n);
        m := m[i := n];
      }
    }
  }

  lemma OneMoreStands(before: set<nat>, paired: set<nat>, n: nat)
    requires n !in before && n !in paired
    ensures |before + {n} - paired| == |before - paired| + 1
  {
    assert before + {n} - paired == before - paired + {n};
  }

  lemma OneFewerStands(before: set<nat>, m: map<nat, nat>, i: nat, n: nat)
    requires i in before - m.Keys
    ensures |before + {} - m[i := n].Keys| == |before - m.Keys| - 1
  {
    assert before + {} - m[i := n].Keys == before - m.Keys - {i};
  }

  lemma KeysAreEarlier(records: seq<Record>, k: Key, m: map<nat, nat>)
    requires records != [] && Pairs(records[..|records| - 1], k, m)
    ensures |records| - 1 !in m.Keys
  {
    hide Opens, Settles;
  }

  lemma NotBoth(r: Record, k: Key)
    ensures !(Opens(r, k) && Settles(r, k))
  {
  }

  /** Nothing is left over exactly when every opening can be matched to a later
      settlement of its own. */
  lemma {:induction false} NothingLeftIsMatched(records: seq<Record>, k: Key)
    ensures Leftover(records, k) == 0 <==> exists m :: Matching(records, k, m)
  {
    if Leftover(records, k) == 0 {
      var m := PairUp(records, k);
      assert Openings(records, k, 0) - m.Keys == {};
      assert Matching(records, k, m);
    }
    if exists m :: Matching(records, k, m) {
      var m :| Matching(records, k, m);
      var j := LeftoverIsMaxSuffix(records, k);
      MatchingBoundsSuffix(records, k, m, j);
    }
  }

  // ── The loop ───────────────────────────────────────────────────────────

  function OpenedKeys(records: seq<Record>): seq<Key> {
    if records == [] then []
    else
      var last := records[|records| - 1];
      OpenedKeys(records[..|records| - 1]) +
      (if last.body.kind.GroupOpened? then [(last.body.step, last.body.phase, last.body.kind.group)] else [])
  }

  /** `a` is `b` with some elements left out. */
  ghost predicate Within(a: seq<Key>, b: seq<Key>) {
    if a == [] then true
    else b != [] && ((a[0] == b[0] && Within(a[1..], b[1..])) || Within(a, b[1..]))
  }

  function Names(keys: seq<Key>): (names: seq<string>)
    ensures |names| == |keys| && forall i :: 0 <= i < |keys| ==> names[i] == keys[i].2
  {
    if keys == [] then [] else [keys[0].2] + Names(keys[1..])
  }

  function Reversed(keys: seq<Key>): seq<Key> {
    if keys == [] then [] else [keys[|keys| - 1]] + Reversed(keys[..|keys| - 1])
  }

  lemma {:induction false} ReversedCounts(keys: seq<Key>)
    ensures multiset(Reversed(keys)) == multiset(keys)
  {
    if keys != [] {
      ReversedCounts(keys[..|keys| - 1]);
      assert keys == keys[..|keys| - 1] + [keys[|keys| - 1]];
    }
  }

  lemma ReversedOfAppend(keys: seq<Key>, k: Key)
    ensures Reversed(keys + [k]) == [k] + Reversed(keys)
  {
    assert (keys + [k])[..|keys|] == keys;
  }

  /** No more is left over of a key than was opened. */
  lemma {:induction false} LeftoverWasOpened(records: seq<Record>, k: Key)
    ensures Leftover(records, k) <= multiset(OpenedKeys(records))[k]
  {
    if records != [] {
      LeftoverWasOpened(records[..|records| - 1], k);
    }
  }

  /** The open counts and the openings in order: the first loop. */
  method CountGroups(records: seq<Record>) returns (open: map<Key, nat>, order: seq<Key>)
    ensures order == OpenedKeys(records)
    ensures forall k :: k in order ==> k in open
    ensures forall k :: (if k in open then open[k] else 0) == Leftover(records, k)
  {
    open, order := map[], [];
    assert records[..0] == [];
    for i := 0 to |records|
      invariant order == OpenedKeys(records[..i])
      invariant forall k :: k in order ==> k in open
      invariant forall k :: (if k in open then open[k] else 0) == Leftover(records[..i], k)
    {
      assert records[..i + 1][..i] == records[..i];
      var r := records[i];
      match r.body.kind {
        case GroupOpened(group) =>
          var key := (r.body.step, r.body.phase, group);
          open := open[key := (if key in open then open[key] else 0) + 1];
          order := order + [key];
        case GroupSettled(group) =>
          var key := (r.body.step, r.body.phase, group);
          if key in open {
            open := open[key := if open[key] > 0 then open[key] - 1 else 0];
          }
        case _ =>
      }
    }
    assert records[..|records|] == records;
  }

  lemma WithinGrows(a: seq<Key>, b: seq<Key>, k: Key)
    requires Within(a, b)
    ensures Within([k] + a, [k] + b) && Within(a, [k] + b)
  {
    assert ([k] + b)[1..] == b && ([k] + a)[1..] == a;
  }

  function Standing(open: map<Key, nat>, k: Key): nat {
    if k in open then open[k] else 0
  }

  /** The second loop, when it has walked the openings back to `i`. */
  ghost predicate Listing(records: seq<Record>, order: seq<Key>, open: map<Key, nat>, kept: seq<Key>, i: nat)
    requires i <= |order|
  {
    (forall k :: k in order ==> k in open) &&
    (forall k :: Standing(open, k) + multiset(kept)[k] == Leftover(records, k)) &&
    (forall k :: Standing(open, k) <= multiset(order[..i])[k]) &&
    Within(Reversed(kept), order[i..])
  }

  lemma ListingStarts(records: seq<Record>, order: seq<Key>, open: map<Key, nat>)
    requires order == OpenedKeys(records) && (forall k :: k in order ==> k in open)
    requires forall k :: Standing(open, k) == Leftover(records, k)
    ensures Listing(records, order, open, [], |order|)
  {
    hide Leftover, OpenedKeys;
    forall k ensures Standing(open, k) <= multiset(order[..|order|])[k] {
      LeftoverWasOpened(records, k);
      assert order[..|order|] == order;
    }
  }

  /** An opening none of whose count is left is passed over. */
  lemma ListingPasses(records: seq<Record>, order: seq<Key>, open: map<Key, nat>, kept: seq<Key>, i: nat)
    requires i < |order| && Listing(records, order, open, kept, i + 1) && Standing(open, order[i]) == 0
    ensures Listing(records, order, open, kept, i)
  {
    hide Leftover, Within, Reversed;
    assert order[..i + 1] == order[..i] + [order[i]];
    assert order[i..] == [order[i]] + order[i + 1..];
    WithinGrows(Reversed(kept), order[i + 1..], order[i]);
  }

  /** An opening with some of its count left is listed. */
  lemma ListingKeeps(records: seq<Record>, order: seq<Key>, open: map<Key, nat>, kept: seq<Key>, i: nat)
    requires i < |order| && Listing(records, order, open, kept, i + 1) && Standing(open, order[i]) > 0
    ensures Listing(records, order, open[order[i] := Standing(open, order[i]) - 1], kept + [order[i]], i)
  {
    hide Leftover, Within, Reversed;
    var key := order[i];
    var after := open[key := Standing(open, key) - 1];
    assert order[..i + 1] == order[..i] + [key];
    assert order[i..] == [key] + order[i + 1..];
    WithinGrows(Reversed(kept), order[i + 1..], key);
    ReversedOfAppend(kept, key);
    forall k ensures Standing(after, k) + multiset(kept + [key])[k] == Leftover(records, k) {
      assert multiset(kept + [key]) == multiset(kept) + multiset{key};
    }
  }

  lemma ListingEnds(records: seq<Record>, order: seq<Key>, open: map<Key, nat>, kept: seq<Key>)
    requires Listing(records, order, open, kept, 0)
    ensures Within(Reversed(kept), order)
    ensures forall k :: multiset(Reversed(kept))[k] == Leftover(records, k)
  {
    hide Leftover, Within, Reversed;
    assert order[..0] == [] && order[0..] == order;
    ReversedCounts(kept);
    forall k ensures multiset(kept)[k] == Leftover(records, k) {
      assert Standing(open, k) <= multiset(order[..0])[k];
    }
  }

  /** `names` are those of `keys`, which are the openings with some left out,
      each key as often as its leftover count. */
  ghost predicate NamesLeftover(records: seq<Record>, names: seq<string>, keys: seq<Key>) {
    names == Names(keys) && Within(keys, OpenedKeys(records)) && forall k :: multiset(keys)[k] == Leftover(records, k)
  }

  /** For every key the list names it exactly as often as its leftover count, and
      the whole list is the openings with some left out. */
  method UnsettledGroups(records: seq<Record>) returns (names: seq<string>)
    ensures exists keys :: NamesLeftover(records, names, keys)
  {
    hide Leftover, OpenedKeys, Within, Reversed, Listing;
    var open, order := CountGroups(records);
    var kept: seq<Key> := [];
    var i := |order|;
    ListingStarts(records, order, open);
    while i > 0
      invariant 0 <= i <= |order| && Listing(records, order, open, kept, i)
    {
      i := i - 1;
      var key := order[i];
      if Standing(open, key) > 0 {
        ListingKeeps(records, order, open, kept, i);
        open := open[key := open[key] - 1];
        kept := kept + [key];
      } else {
        ListingPasses(records, order, open, kept, i);
      }
    }
    ListingEnds(records, order, open, kept);
    names := Names(Reversed(kept));
    assert NamesLeftover(records, names, Reversed(kept));
  }
}
