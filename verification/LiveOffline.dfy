/** The live audit and the offline reader ask two questions of one history, and
    answer them alike: whether every conclusion's own claim holds, and whether
    the leaf is the history's head. */
module LiveOffline {
  import opened Wrappers
  import opened Hashing
  import opened Wire
  import opened VerifySpec
  import opened Blocks
  import opened WriterSpec
  import opened HonestBlocks
  import opened Audits

  /** Records as a store serves them: read from their own canonical bytes. */
  ghost predicate Served(c: Codec, records: seq<Record>) {
    forall i :: 0 <= i < |records| ==>
      c.read(records[i].raw) == Readable(records[i].body) && !Uncanonical(c, records[i].raw)
  }

  lemma {:induction false} ServedHead(c: Codec, records: seq<Record>)
    requires ChainVerifies(c.hash, records, ZERO)
    ensures Head(c.hash, Raws(records)) == HeadFrom(records, ZERO)
  {
    hide Chain;
    if records != [] {
      var n := |records| - 1;
      forall i | 0 <= i < n ensures LinksBack(c.hash, records[..n], ZERO, i) {
        assert LinksBack(c.hash, records, ZERO, i);
      }
      ServedHead(c, records[..n]);
      assert LinksBack(c.hash, records, ZERO, n);
      HeadOfAppend(c.hash, Raws(records[..n]), records[n].raw);
    }
  }

  lemma ServedFront(c: Codec, records: seq<Record>, n: nat)
    requires ChainVerifies(c.hash, records, ZERO) && Served(c, records) && n <= |records|
    ensures ChainVerifies(c.hash, records[..n], ZERO) && Served(c, records[..n])
  {
    hide Chain, Uncanonical;
    forall i | 0 <= i < n ensures LinksBack(c.hash, records[..n], ZERO, i) {
      assert LinksBack(c.hash, records, ZERO, i);
    }
  }

  /** What the pass files for the last of a served history's lines. */
  lemma LastLine(c: Codec, p: Pass, records: seq<Record>)
    requires records != [] && ChainVerifies(c.hash, records, ZERO) && Served(c, records)
    requires p.prev == records[|records| - 1].prev
    ensures var r := records[|records| - 1];
            ForeignHead(p.run) in JudgeRecord(c, RecordFor(c, r), p).found <==>
            r.body.kind.RunConcluded? && r.body.kind.chainHead != r.prev
  {
    hide Chain, Uncanonical;
    assert LinksBack(c.hash, records, ZERO, |records| - 1);
  }

  lemma PrevIsHead(c: Codec, records: seq<Record>)
    requires records != [] && ChainVerifies(c.hash, records, ZERO)
    ensures records[|records| - 1].prev == HeadFrom(records[..|records| - 1], ZERO)
  {
    hide Chain;
    assert LinksBack(c.hash, records, ZERO, |records| - 1);
  }

  /** The running head over a served history's export lines. */
  lemma {:induction false} PassHead(c: Codec, entered: Pass, records: seq<Record>)
    requires entered.prev == ZERO && ChainVerifies(c.hash, records, ZERO)
    ensures var p := PassAfter(c, entered, RecordsFor(c, records));
            p.prev == HeadFrom(records, ZERO) && p.run == entered.run && p.declaredSeal == entered.declaredSeal
  {
    hide *;
    HeadInvariant(c, entered, RecordsFor(c, records));
    CarriedOfWritten(c, records);
    ServedHead(c, records);
    ReadBlockKeepsItsHeader(c, entered, RecordsFor(c, records));
  }

  lemma ClaimsOfAppend(records: seq<Record>)
    requires records != []
    ensures var n := |records| - 1;
            SealClaimHolds(records) <==>
            SealClaimHolds(records[..n]) &&
            !(records[n].body.kind.RunConcluded? && records[n].body.kind.chainHead != records[n].prev)
  {
  }

  /** For any served records whose chain verifies, the live audit's seal-claim
      check holds exactly when the incremental pass over their export lines
      files no seal-claim finding. */
  lemma {:induction false} ClaimsAgree(c: Codec, entered: Pass, records: seq<Record>)
    requires entered.prev == ZERO && ChainVerifies(c.hash, records, ZERO) && Served(c, records)
    ensures SealClaimHolds(records) <==>
            ForeignHead(entered.run) !in BlockFindings(c, entered, RecordsFor(c, records))
  {
    hide JudgeRecord, ChainVerifies, Served, HeadFrom, PassAfter, SealClaimHolds;
    if records == [] {
      NoClaims();
    } else {
      var n := |records| - 1;
      ServedFront(c, records, n);
      ClaimsAgree(c, entered, records[..n]);
      ClaimsOfAppend(records);
      PassHead(c, entered, records[..n]);
      PrevIsHead(c, records);
      assert RecordsFor(c, records)[..n] == RecordsFor(c, records[..n]);
      LastLine(c, PassAfter(c, entered, RecordsFor(c, records[..n])), records);
    }
  }

  lemma NoClaims()
    ensures SealClaimHolds([])
  {
  }

  /** And the audit's leaf differs from the verified head exactly when closing
      the block files the leaf finding. */
  lemma {:induction false} LeavesAgree(c: Codec, keys: Option<SignatureCheck>, package: bool, against: Checkpoint,
                                       entered: Pass, records: seq<Record>, seal: Digest)
    requires entered.prev == ZERO && entered.declaredSeal == Some(seal) && ChainVerifies(c.hash, records, ZERO)
    ensures seal != HeadFrom(records, ZERO) <==>
            LeafNotHead(entered.run) in
              ClosingFindings(c, keys, package, against, PassAfter(c, entered, RecordsFor(c, records)))
  {
    hide PassAfter, HeadFrom, LeafIsProved, SignedHistory, HasSealingConclusion, ChainVerifies;
    PassHead(c, entered, records);
  }
}
