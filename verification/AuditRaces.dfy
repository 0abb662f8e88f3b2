/** Two ways a run nothing is wrong with is reported as misplaced, because the
    two calls that decide it are answered by a store written to in between. */
module AuditRaces {
  import opened Wrappers
  import opened Hashing
  import opened Merkle
  import opened Wire
  import opened VerifySpec
  import opened Planes
  import opened Stores
  import opened ExportVerifies
  import opened Trails
  import opened Audits

  const FIRST: Bytes := []
  const LAST: Bytes := [0]

  function FirstHead(): Digest {
    LengthDigest(Link(ZERO, FIRST))
  }

  /** An encoding of one run's two records: its work and its conclusion. */
  function RaceReading(raw: Bytes): Reading {
    if raw == FIRST then Readable(Body(1, 0, None, None, Forward, 0, None, OtherKind))
    else if raw == LAST then Readable(Body(2, 0, None, None, Forward, 0, None, RunConcluded(Succeeded, FirstHead())))
    else NotARecord
  }

  function RaceJson(raw: Bytes): Json {
    Json(if raw == FIRST then "" else "0")
  }

  function RaceCanon(j: Json): Bytes {
    if j.text == "" then FIRST else LAST
  }

  function RaceCodec(): Codec {
    Codec((x: Bytes) => LengthDigest(x), (raw: Bytes) => RaceReading(raw), (raw: Bytes) => Some(RaceJson(raw)),
          (j: Json) => RaceCanon(j), (raw: Bytes) => None)
  }

  function Worked(): seq<Record> {
    [Record(RaceReading(FIRST).body, ZERO, FirstHead(), None, FIRST)]
  }

  function Done(): seq<Record> {
    Worked() + [Record(RaceReading(LAST).body, FirstHead(), LengthDigest(Link(FirstHead(), LAST)), None, LAST)]
  }

  function Holding(records: seq<Record>, log: seq<RunId>): Plane {
    Plane("", map[0 := records], log, map[])
  }

  const CONCLUDES := Turn([AppendAct(0, LAST, None)], false)
  const CONCLUDES_AND_SEALS := Turn([AppendAct(0, LAST, None), SealAct(0)], false)
  const SEALS := Turn([SealAct(0)], false)
  const RESTS := Turn([], false)

  lemma Heads()
    ensures FirstHead() != LengthDigest(Link(FirstHead(), LAST))
    ensures Chain(RaceCodec().hash, ZERO, FIRST) == FirstHead()
    ensures Chain(RaceCodec().hash, FirstHead(), LAST) == LengthDigest(Link(FirstHead(), LAST))
  {
    assert FirstHead().bytes[0] == 32 && LengthDigest(Link(FirstHead(), LAST)).bytes[0] == 33;
  }

  lemma WorkedRaws()
    ensures Raws(Worked()) == [FIRST] && Hashing.Head(RaceCodec().hash, Raws(Worked())) == FirstHead()
    ensures Raws([]) == [] && Hashing.Head(RaceCodec().hash, []) == ZERO
  {
    hide LengthDigest;
    Heads();
    assert Worked()[..0] == [];
  }

  /** The store is honest before the race, and the runtime writes what it writes. */
  lemma RaceIsHonest()
    ensures Honest(RaceCodec(), Holding(Worked(), []))
    ensures MayAppend(RaceCodec(), Holding(Worked(), []), 0, LAST)
    ensures Appended(RaceCodec(), Worked(), LAST, RaceReading(LAST).body, None) == Done()
  {
    hide LengthDigest, Chain, Hashing.Head, Raws;
    Heads();
    WorkedRaws();
    assert Worked()[..0] == [];
    assert HonestRecord(RaceCodec(), 0, Worked(), 0);
  }

  lemma RaceConcludes()
    ensures Turned(RaceCodec(), Holding(Worked(), []), [CONCLUDES, RESTS, SEALS]) == Holding(Done(), [])
    ensures Turned(RaceCodec(), Holding(Worked(), []), [CONCLUDES_AND_SEALS]) == Holding(Done(), [0])
    ensures Turned(RaceCodec(), Holding(Done(), []), [SEALS]) == Holding(Done(), [0])
  {
    hide LengthDigest, MayAppend, Appended, Worked, Done;
    RaceIsHonest();
    DoneConcludes();
    var c, p := RaceCodec(), Holding(Worked(), []);
    assert Apply(c, p, AppendAct(0, LAST, None)) == Holding(Done(), []);
    assert CONCLUDES.acts[..0] == [] && CONCLUDES_AND_SEALS.acts[..0] == [];
    assert CONCLUDES_AND_SEALS.acts[..1] == [AppendAct(0, LAST, None)] == CONCLUDES.acts;
    assert ApplyAll(c, p, CONCLUDES.acts) == Holding(Done(), []);
  }

  lemma DoneConcludes()
    ensures Concluded(Done()) && HasSealingConclusion(Done()) && Done() != []
    ensures HeadFrom(Worked(), ZERO) == FirstHead() && Worked() != []
  {
    hide LengthDigest;
    assert Done()[|Done()| - 1].body.kind == RunConcluded(Succeeded, FirstHead());
  }

  /** An auditor who asks about the one run, with no keys and no anchor. */
  const ASKS := Evidence([], None, false)

  lemma RaceIsRead()
    ensures ChainVerifies(RaceCodec().hash, Worked(), ZERO) && ChainVerifies(RaceCodec().hash, Done(), ZERO)
  {
    hide LengthDigest;
    Heads();
  }

  lemma DoneSays()
    ensures SealOf(Holding(Done(), [0]), 0) == LengthDigest(Link(FirstHead(), LAST))
    ensures 0 in Holding(Done(), [0]).log
  {
    hide LengthDigest;
  }

  lemma Rested(p: Plane, schedule: seq<Turn>)
    ensures Turned(RaceCodec(), p, [RESTS] + schedule) == p && After([RESTS] + schedule, 1) == schedule
  {
    assert ([RESTS] + schedule)[1..] == schedule;
  }

  /** Read before the run concludes and placed after it is sealed: the audit of
      an honest store reports an honest run as sealed over another history. */
  method SpuriousMismatch() returns (r: Result<AuditReport, StoreError>)
    ensures Honest(RaceCodec(), Holding(Worked(), []))
    ensures r.Ok? && LeafMismatch(0) in r.value.findings
  {
    hide Honest, Grown, Worked, Done, RaceCodec, FirstHead, LengthDigest, ChainVerifies, AllExcused, AllSound, Trail,
         AllStand, AllHeld, AllAccounted, SealOf, HeadFrom;
    RaceIsHonest();
    RaceConcludes();
    DoneConcludes();
    Heads();
    RaceIsRead();
    DoneSays();
    var store := new Store.Holding(RaceCodec(), Holding(Worked(), []), [RESTS, RESTS, CONCLUDES_AND_SEALS]);
    Rested(store.View(), [RESTS, CONCLUDES_AND_SEALS]);
    Rested(store.View(), [CONCLUDES_AND_SEALS]);
    r := Audit(store, [0], ASKS);
  }

  /** Read and placed between its conclusion and its seal: the audit of an
      honest store reports an honest run as missing from a log it enters on the
      store's next turn. */
  method SpuriousAbsence() returns (r: Result<AuditReport, StoreError>)
    ensures Honest(RaceCodec(), Holding(Worked(), []))
    ensures r.Ok? && NotInLog(0) in r.value.findings
    ensures Turned(RaceCodec(), Holding(Done(), []), [SEALS]) == Holding(Done(), [0])
  {
    hide Honest, Grown, Worked, Done, RaceCodec, FirstHead, LengthDigest, ChainVerifies, AllExcused, AllSound, Trail,
         AllStand, AllHeld, AllAccounted, SealOf, HeadFrom, HasSealingConclusion;
    RaceIsHonest();
    RaceConcludes();
    DoneConcludes();
    RaceIsRead();
    var store := new Store.Holding(RaceCodec(), Holding(Worked(), []), [RESTS, CONCLUDES, RESTS, SEALS]);
    Rested(store.View(), [CONCLUDES, RESTS, SEALS]);
    Rested(Holding(Done(), []), [SEALS]);
    r := Audit(store, [0], ASKS);
  }
}
