/** What an audit binds whoever answered it: the store is not trusted here, and
    every record, path and proof may be anything that passes the checks. */
module Answered {
  import opened Wrappers
  import opened Hashing
  import opened Merkle
  import opened Wire
  import opened VerifySpec
  import opened Blocks
  import opened SoundList
  import opened Binding
  import opened Planes
  import opened Stores
  import opened ExportVerifies
  import opened Trails
  import opened Groups
  import opened Audits
  import opened LiveOffline

  /** What one audit was answered about one run.  The path was checked under
      `placed` and the growth of the anchor under `held`; the checkpoint in hand
      may have been replaced in between, and nothing the audit does holds one to
      the other. */
  datatype Answers = Answers(records: seq<Record>, inc: Inclusion, placed: Checkpoint, held: Checkpoint,
                             growth: seq<Digest>)

  /** What the audit checks: a chain that verifies from its start, a path that
      proves its head's leaf, and a proof that an anchor was extended. */
  ghost predicate Checked(c: Codec, a: Answers, anchor: Checkpoint) {
    a.records != [] && ChainVerifies(c.hash, a.records, ZERO) &&
    a.inc.size == a.placed.size && a.inc.index < a.inc.size &&
    Proves(c.hash, HeadFrom(a.records, ZERO), a.inc, a.placed) &&
    Consistent(c.hash, anchor.size, anchor.root, a.held.size, a.held.root, a.growth)
  }

  /** What it does not check: that the two checkpoints are of one log.  They are
      when they are equal, with nothing to prove, or when `link` proves that
      one extends the other. */
  ghost predicate Joined(c: Codec, a: Answers, link: seq<Digest>) {
    Consistent(c.hash, a.placed.size, a.placed.root, a.held.size, a.held.root, link) ||
    Consistent(c.hash, a.held.size, a.held.root, a.placed.size, a.placed.root, link)
  }

  lemma EqualIsJoined(c: Codec, a: Answers)
    requires a.placed.size == a.held.size > 0 && a.placed.root == a.held.root
    ensures Joined(c, a, [])
  {
    hide Rebuild;
  }

  /** Every string the checks hash, and the link's. */
  ghost function AnswerStrings(h: Hash, a: Answers, anchor: Checkpoint, link: seq<Digest>): set<Bytes>
    requires a.inc.index < a.inc.size
  {
    var head := HeadFrom(a.records, ZERO);
    {LeafString(head)} + ChainStrings(h, Raws(a.records)) +
    PathStrings(h, LeafHashOf(h, head), a.inc.index, a.inc.size, a.inc.proof) +
    GrowthStrings(h, anchor.size, anchor.root, a.held.size, a.growth) +
    GrowthStrings(h, a.placed.size, a.placed.root, a.held.size, link) +
    GrowthStrings(h, a.held.size, a.held.root, a.placed.size, link)
  }

  lemma AnswerParts(h: Hash, a: Answers, anchor: Checkpoint, link: seq<Digest>, s: set<Bytes>)
    requires a.inc.index < a.inc.size && AnswerStrings(h, a, anchor, link) <= s
    ensures LeafString(HeadFrom(a.records, ZERO)) in s && ChainStrings(h, Raws(a.records)) <= s
    ensures PathStrings(h, LeafHashOf(h, HeadFrom(a.records, ZERO)), a.inc.index, a.inc.size, a.inc.proof) <= s
    ensures GrowthStrings(h, anchor.size, anchor.root, a.held.size, a.growth) <= s
    ensures GrowthStrings(h, a.placed.size, a.placed.root, a.held.size, link) <= s
    ensures GrowthStrings(h, a.held.size, a.held.root, a.placed.size, link) <= s
  {
    hide PathStrings, ChainStrings, GrowthStrings, LeafHashOf, HeadFrom;
  }

  /** The run's leaf, under the anchor itself. */
  lemma {:induction false} UnderTheAnchor(c: Codec, a: Answers, anchor: Checkpoint, link: seq<Digest>, s: set<Bytes>)
    returns (path: seq<Digest>)
    requires Checked(c, a, anchor) && Joined(c, a, link) && a.inc.index < anchor.size
    requires AnswerStrings(c.hash, a, anchor, link) <= s && Injective(c.hash, s)
    ensures var leaf := LeafHashOf(c.hash, HeadFrom(a.records, ZERO));
            Included(c.hash, leaf, a.inc.index, anchor.size, path, anchor.root) &&
            PathStrings(c.hash, leaf, a.inc.index, anchor.size, path) <= s
  {
    hide Included, PathStrings, GrowthStrings, AnswerStrings, ChainVerifies, Consistent, Injective, HeadFrom, LeafHashOf;
    AnswerParts(c.hash, a, anchor, link, s);
    var h, leaf := c.hash, LeafHashOf(c.hash, HeadFrom(a.records, ZERO));
    AnchorIsNoLarger(h, anchor, a.held, a.growth);
    var moved: seq<Digest>;
    if Consistent(h, a.placed.size, a.placed.root, a.held.size, a.held.root, link) {
      moved := PathUnderNewer(h, leaf, a.inc.index, a.inc.size, a.inc.proof, a.placed.root, a.held.size, a.held.root,
                              link, s);
    } else {
      moved := PathUnderOlder(h, leaf, a.inc.index, a.inc.size, a.inc.proof, a.placed.root, a.held.size, a.held.root,
                              link, s);
    }
    path := PathUnderOlder(h, leaf, a.inc.index, a.held.size, moved, a.held.root, anchor.size, anchor.root, a.growth, s);
  }

  lemma AnchorIsNoLarger(h: Hash, anchor: Checkpoint, held: Checkpoint, growth: seq<Digest>)
    requires Consistent(h, anchor.size, anchor.root, held.size, held.root, growth)
    ensures anchor.size <= held.size
  {
    hide Rebuild;
  }

  /** Two audits whose checkpoints are joined, and that placed a run at one
      position below a checkpoint both found extended, saw the same bytes there
      whatever the stores that answered them hold; or the strings they hashed
      hold a collision, or a digest of zeros. */
  lemma {:induction false} AnswersBind(c: Codec, a: Answers, linkA: seq<Digest>, b: Answers, linkB: seq<Digest>,
                                       anchor: Checkpoint, s: set<Bytes>)
    requires Checked(c, a, anchor) && Joined(c, a, linkA) && Checked(c, b, anchor) && Joined(c, b, linkB)
    requires a.inc.index == b.inc.index < anchor.size
    requires AnswerStrings(c.hash, a, anchor, linkA) <= s && AnswerStrings(c.hash, b, anchor, linkB) <= s
    requires Injective(c.hash, s) && ZeroFree(c.hash, s)
    ensures Raws(a.records) == Raws(b.records)
  {
    hide Included, PathStrings, AnswerStrings, ChainVerifies, Consistent, Injective, HeadFrom, Proves, LeafHashOf,
         Hashing.Head, ChainStrings, GrowthStrings, ZeroFree, Joined;
    var x, y := HeadFrom(a.records, ZERO), HeadFrom(b.records, ZERO);
    var pa := UnderTheAnchor(c, a, anchor, linkA, s);
    var pb := UnderTheAnchor(c, b, anchor, linkB, s);
    PathsBind(c.hash, LeafHashOf(c.hash, x), LeafHashOf(c.hash, y), a.inc.index, anchor.size, pa, pb, anchor.root, s);
    AnswerParts(c.hash, a, anchor, linkA, s);
    AnswerParts(c.hash, b, anchor, linkB, s);
    LeavesBind(c.hash, x, y, s);
    ServedHead(c, a.records);
    ServedHead(c, b.records);
    HeadsBind(c.hash, Raws(a.records), Raws(b.records), s);
  }

  /** And the same bytes as any whole export sound under that checkpoint carries
      at that position. */
  lemma {:induction false} AnswerMatchesFile(c: Codec, a: Answers, link: seq<Digest>, anchor: Checkpoint,
                                             keys: Option<SignatureCheck>, anchors: seq<Anchor>, lines: seq<Line>,
                                             j: nat, s: set<Bytes>)
    requires Checked(c, a, anchor) && Joined(c, a, link) && a.inc.index < anchor.size
    requires SoundUnder(c, keys, anchors, lines, anchor) && Verify(c, keys, anchors, lines).selection.None?
    requires j < |BlocksOf(lines)| && BlocksOf(lines)[j].lines != []
    requires Placed(BlocksOf(lines)[j].header).Some? && Placed(BlocksOf(lines)[j].header).value.0 == a.inc.index
    requires AnswerStrings(c.hash, a, anchor, link) <= s && HashedBy(c.hash, lines, anchor.size) <= s
    requires Injective(c.hash, s) && ZeroFree(c.hash, s)
    ensures CarriedRaws(BlocksOf(lines)[j].lines) == Raws(a.records)
  {
    hide Included, PathStrings, AnswerStrings, ChainVerifies, Consistent, Injective, HeadFrom, Proves, LeafHashOf,
         Hashing.Head, ChainStrings, GrowthStrings, ZeroFree, Joined, Verify, BlocksOf, OneHistory, Root, TreeStrings,
         AllChainStrings, LeafStrings, FileLeaves, Fresh, Contiguous, LeafString;
    var blocks := BlocksOf(lines);
    var x, y := HeadFrom(a.records, ZERO), Placed(blocks[j].header).value.1;
    var path := UnderTheAnchor(c, a, anchor, link, s);
    SoundPrefix(c, keys, anchors, lines, anchor);
    SoundBlocks(c, keys, anchors, lines);
    var leaves := Hashes(FileLeaves(c.hash, blocks)[..anchor.size]);
    InclusionIsSound(c.hash, LeafHashOf(c.hash, x), a.inc.index, path, leaves, s);
    LeafIsThere(c.hash, blocks, j, anchor.size);
    BlockStrings(c.hash, blocks, j);
    AnswerParts(c.hash, a, anchor, link, s);
    LeavesBind(c.hash, x, y, s);
    ServedHead(c, a.records);
    BlockEnds(c, keys, Verify(c, keys, anchors, lines), blocks, j);
    HeadsBind(c.hash, CarriedRaws(blocks[j].lines), Raws(a.records), s);
  }

  lemma {:induction false} BlockEnds(c: Codec, keys: Option<SignatureCheck>, r: Report, blocks: seq<Block>, j: nat)
    requires j < |blocks| && blocks[j].lines != [] && OneHistory(c, keys, r, blocks, blocks[j].run, j)
    requires Placed(blocks[j].header).Some?
    ensures Hashing.Head(c.hash, CarriedRaws(blocks[j].lines)) == Placed(blocks[j].header).value.1
  {
    hide Recomputes, Recomputed, ReadBlock, SignedHistory, LeafIsProved, Hashing.Head, CarriedRaws;
  }

  /** What an audit's own report gives for a run listed sound that is in the log
      and an anchor that was proved extended; and it is enough whenever the run
      was placed under a checkpoint of the size the anchor was held to. */
  lemma {:induction false} AuditChecks(c: Codec, p0: Plane, p1: Plane, evidence: Evidence, run: RunId, q: Plane,
                                       q2: Plane, cp: Checkpoint, trail: seq<Checkpoint>, current: Checkpoint,
                                       anchor: Anchor, held: Checkpoint, growth: seq<Digest>)
    returns (a: Answers)
    requires Trail(c.hash, p0, p1, trail, current)
    requires WasSound(c.hash, p0, p1, evidence, run, q, q2, cp, trail, true)
    requires InclusionAt(c.hash, q2, run, |q2.log|).Some?
    requires held in trail && Extends(c.hash, anchor, held, growth)
    ensures a.records == RecordsOf(q, run) && a.placed == cp && a.held == held && Checked(c, a, anchor.checkpoint)
    ensures cp.size == held.size ==> Joined(c, a, [])
  {
    hide Trail, Grown, ChainVerifies, SignaturesHold, SealClaimHolds, HasSealingConclusion, Leftover, InclusionAt, Proves,
         Consistent, HeadFrom, Joined, RecordsOf;
    var inc := InclusionAt(c.hash, q2, run, |q2.log|).value;
    AtSays(c.hash, q2, run);
    a := Answers(RecordsOf(q, run), inc, cp, held, growth);
    if cp.size == held.size {
      OneSizeIsOne(c.hash, p0, p1, trail, current, cp, held);
      EqualIsJoined(c, a);
    }
  }

  // ── Checkpoints that are not joined ────────────────────────────────────

  /** A history of one record. */
  function OneRecord(c: Codec, body: Body, raw: Bytes): seq<Record> {
    [Record(body, ZERO, Chain(c.hash, ZERO, raw), None, raw)]
  }

  /** A store that answers with a log of one run holding `served`, and, once the
      auditor's checkpoint over a run holding `held` is asked about, with a log
      that extends that one. */
  function Swapped(c: Codec, body: Body, served: Bytes, held: Bytes, other: Digest): (Answers, Checkpoint) {
    var leaf := LeafHashOf(c.hash, Chain(c.hash, ZERO, held));
    (Answers(OneRecord(c, body, served), Inclusion.Inclusion(0, 1, Chain(c.hash, ZERO, served), []),
          Checkpoint("", 1, LeafHashOf(c.hash, Chain(c.hash, ZERO, served))),
          Checkpoint("", 2, NodeHash(c.hash, leaf, other)), [other]),
     Checkpoint("", 1, leaf))
  }

  /** Honest answers for the same anchor and position. */
  function Kept(c: Codec, body: Body, held: Bytes): Answers {
    var cp := Checkpoint("", 1, LeafHashOf(c.hash, Chain(c.hash, ZERO, held)));
    Answers(OneRecord(c, body, held), Inclusion.Inclusion(0, 1, Chain(c.hash, ZERO, held), []), cp, cp, [])
  }

  lemma OneIsChained(c: Codec, body: Body, raw: Bytes)
    ensures ChainVerifies(c.hash, OneRecord(c, body, raw), ZERO)
    ensures HeadFrom(OneRecord(c, body, raw), ZERO) == Chain(c.hash, ZERO, raw)
    ensures Raws(OneRecord(c, body, raw)) == [raw]
  {
    hide Chain;
    RawsOfAppend([], OneRecord(c, body, raw)[0]);
    assert [] + OneRecord(c, body, raw) == OneRecord(c, body, raw);
  }

  lemma OnePath(h: Hash, head: Digest)
    ensures Proves(h, head, Inclusion.Inclusion(0, 1, head, []), Checkpoint("", 1, LeafHashOf(h, head)))
  {
  }

  lemma TwoGrows(h: Hash, leaf: LeafHash, other: Digest)
    ensures Consistent(h, 1, leaf, 2, NodeHash(h, leaf, other), [other])
    ensures Consistent(h, 1, leaf, 1, leaf, [])
  {
    assert Split(2) == 1;
  }

  /** Whatever the hash and whatever two records are chosen: with the checkpoint
      replaced in between, every check passes for both at one position under one
      anchor.  Nothing is bound without the link. */
  lemma {:induction false} UnjoinedBindsNothing(c: Codec, body: Body, served: Bytes, held: Bytes, other: Digest)
    ensures var (a, anchor) := Swapped(c, body, served, held, other);
            var b := Kept(c, body, held);
            Checked(c, a, anchor) && Checked(c, b, anchor) && Joined(c, b, []) &&
            a.inc.index == b.inc.index < anchor.size &&
            Raws(a.records) == [served] && Raws(b.records) == [held]
  {
    hide Chain, LeafHashOf, NodeHash, ChainVerifies, Proves, Consistent;
    OneIsChained(c, body, served);
    OneIsChained(c, body, held);
    OnePath(c.hash, Chain(c.hash, ZERO, served));
    OnePath(c.hash, Chain(c.hash, ZERO, held));
    TwoGrows(c.hash, LeafHashOf(c.hash, Chain(c.hash, ZERO, held)), other);
  }

  /** And a proof that joins those checkpoints makes the two records one, short of
      a collision or a digest of zeros among the strings hashed. */
  lemma {:induction false} JoiningSwapsNothing(c: Codec, body: Body, served: Bytes, held: Bytes, other: Digest,
                                               link: seq<Digest>, s: set<Bytes>)
    requires var (a, anchor) := Swapped(c, body, served, held, other);
             Joined(c, a, link) && AnswerStrings(c.hash, a, anchor, link) <= s &&
             AnswerStrings(c.hash, Kept(c, body, held), anchor, []) <= s
    requires Injective(c.hash, s) && ZeroFree(c.hash, s)
    ensures served == held
  {
    hide Checked, Joined, AnswerStrings, Injective, ZeroFree, ChainVerifies, Proves, Consistent, Raws;
    var (a, anchor) := Swapped(c, body, served, held, other);
    UnjoinedBindsNothing(c, body, served, held, other);
    AnswersBind(c, a, link, Kept(c, body, held), [], anchor, s);
    assert [served][0] == [held][0];
  }
}
