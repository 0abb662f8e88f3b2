# agentplane: the tamper-evident export, proved

This project models the export cycle of agentplane and what is built on its evidence, and proves what
the cycle is for: that a file sound under a checkpoint somebody else holds says one thing, that an
honest plane's files are sound while the plane stays in use, that a file restores to the plane it came
from, and that nothing the live audit reports about an honest plane is false.

## How it is modelled

**Lines, not text.** A file is a sequence of `Line` values (`Wire.dfy`): header, run block, record, case,
trailer, a line of an unknown kind, a line that is not JSON, a blank line. Members carry the difference
between missing, unreadable and given wherever a reader branches on it. A record's bytes are a sequence
of bytes; how they read, whether they are JSON, their one canonical spelling and the `seq` their own JSON
names are arbitrary functions, collected in `Codec`, so every result holds for every encoding and every
upcaster.

**The hash is a parameter and nothing is assumed of it.** A result that needs two hashed strings to be
equal because their digests are asks for injectivity on one finite set of strings: those the readers in
question really hash (`HashedBy`, `HashedByPackage`, `ChainStrings`, `TreeStrings`, `PathStrings`,
`RebuildStrings`). Two files that disagree under one checkpoint therefore hold a collision among strings
somebody can write down. The tree is that of section 2.1 of RFC 6962, with the inclusion paths of
section 2.1.1 and the consistency proofs of section 2.1.2, as `src/core/merkle.rs` computes them
(`Merkle.dfy`).

**Folds and passes.** What a pass over a file computes is a fold over its lines (`VerifySpec.dfy` for
`verify`, `ParseSpec.dfy` for the restore's reader, `Grants.dfy` for the consumer that hashes nothing).
Where the source updates a struct line by line, a class does (`VerifyPass`, `RunPass`, `VerifyReport`,
`ParsedFile`, `GrantsPass`, `AuditReport`, `Digesting`), and each method is proved equal to the step of
the fold it takes; results are then results about the fold.

**A store that keeps growing.** `Planes.Plane` is what a store holds: histories by run, sealed runs in seal
order, cases. `Stores.Store` answers every call only after taking the next turn of a schedule, in which the
environment may append, conclude, seal and touch cases any number of times, and may leave the store out of
reach for that one call. The schedule is an arbitrary list, so what is proved of a caller is proved for
every interleaving of its calls with other writers. `Honest` says every history is linked, canonical and
read back as written, and every sealed run ends in its conclusion; `Grown` says one plane is another some
writes later. Both are kept by every turn.

**Faults.** `Disclosures.Host` carries a script that decides, step by step, whether a file or register
operation works, fails, falls short, or is the last before a crash, before or after it took effect.

## The results

- `Merkle.*`: one root at one size commits to one list of leaves; inclusion and consistency proofs are
  complete and sound; the two loops of the inclusion check compute the recursive definition.
- `Verifier.VerifyObserved`: the imperative pass, with its running head, sets and early halts, computes
  `VerifySpec.Verify`.
- `SoundFile.SoundExactly`: for every file, set of keys and set of anchors, `verify` calls the file sound if and
  only if it stands, line by line, block by block, count by count and leaf by leaf. `NamedFindings.FindingsExactly`:
  of a file that does not, it names exactly the findings the lines, the blocks, the outside checkpoints and the file
  as a whole earn. `SoundList.SoundMeans`: a run is listed sound if and only if one block is its one history.
- `Blocks.HeadInvariant`, `Blocks.NoCascade`: the running head is the chain over exactly the bytes carried,
  whatever else is wrong with the lines; unreadable records in an untouched block are one finding each.
  `Cascade.BlockCosts`: to the end of the block that is all it costs, except that with signature keys there is one
  more finding exactly when a readable record follows an unread one, or is not signed.
- `Binding.Binding`, `Binding.PackageBinding`: two sound files under one outside checkpoint agree position by
  position, seal by seal and byte by byte.
- `Omission.OmissionIsSeen`, `FileShape.NothingLeavesUnseen`: no proper subsequence of a written file is sound.
- `Exports.ToJsonl`, `ExportVerifies.WholeExportVerifies`: the writer meets the verifier under every
  interleaving. `Packages.PackageToJsonl`, `FileBlocks.UnplacedIsStripped`: a package is handed over only with
  every sealing conclusion placed and proved, and one that is not cannot be sound.
- `Acceptance.SoundParses`: of the files `verify` calls sound, the restore's reader takes exactly those that
  name every run block, hold no line of an unknown kind and are no package, which can be read off the lines;
  `AcceptedFiles.ParseExactly` says which of all files it takes, and why it refuses another.
  `TwoReaders.ReadersAgree`: on sound ones, both readers see one thing.
- `Restores.FromJsonl`: whoever else writes to the target, a restore loses nothing the store held, writes nothing when
  the file may not be put back, and leaves every record of one it puts back where its bytes say, under the hash on
  its line.
- `Faithful.RestoresSound`, `RoundTrip.RestoreRoundTrip`: restoring such a file never contradicts a hash,
  succeeds if and only if every record fits and every run to be sealed ends in its conclusion, and is faithful
  if and only if every placed block carries a conclusion; a complete export of an honest store restores to its
  log and its records.
- `Audits.Audit`: no false alarm from growth, nothing passed over whatever the store holds, and over a quiet store
  exactly what its histories, its log and the anchors call for.
  `Audits.MismatchedExactly`: when a run is misplaced. `Answered.AnswersBind`: what an audit binds when nothing
  about the store is trusted, as long as the checkpoint a run was placed under and the one an anchor was held to
  are joined; `Answered.UnjoinedBindsNothing`: nothing, when they are not. `LiveOffline.*`: the live audit and the
  offline reader answer alike. `Groups.*`: what a leftover count means.
- `WrittenVerdicts.VerdictStays`, `GraderVerdicts.SidecarNamesOnePrefix`: sidecars survive the plane's growth and
  name one prefix. `GraderVerdicts.AnswersMean`, `GraderVerdicts.UnsoundAnswers`: what each is answered.
- `Disclosures.Disclose`: recorded before delivered, under any failure or crash, and delivered when nothing
  fails. `GrantsFile.ProposalIsSafe`, `GrantsFile.MarksMean`: no readable use on a record line loses its grant, and
  what a mark says of the lines. `InFlight.RunsInFlight`, `InFlight.RunsToRead`: the walk ends, repeats
  nothing and misses nothing that was in flight throughout. `Flights.HidesExactly`: when it leaves a run out
  without saying so.

## Where the code and its documentation part

- A restore does not take every file `verify` calls sound. A run block naming no run, with nothing under it, is
  sound and refused (`ReadersPart.TheReadersPart`), and so is a record line retitled to a kind nobody knows,
  which `verify` reads as a record (`ReadersPart.TheReadersPartOnAKind`; `ReadersPart.RetitledParts` says so of
  any file). `Acceptance.SoundParses` gives the exact condition.
- The members the verifier knows on a case line leave out `erasure` (`src/export.rs:2052`), although every case
  line carries it, so an honest file draws a note about it. Notes are coverage prose and are not modelled;
  findings are, and honest files have none.
- `truncated` is documented as "the limit was reached" (`src/export.rs:2447-2448`), and is not set when the
  limit is reached on a page's last run (`src/export.rs:2398-2408`). `Flights.OneRunUnsaid` gives an honest store
  of 257 runs in flight of which a walk limited to 256 hides one; `InFlight.RunsInFlight` proves that at the
  limit it is set exactly when the page that held the last run listed held another behind it, and
  `Flights.HidesExactly` when a quiet store's run is hidden. `RunsToRead::reached` inherits this.
- `unsettled_groups` says leftovers are attributed to the newest openings; a settlement does not say which
  opening it pairs with, so what is proved is the count left over for each key and the order of the list.
- `placement` can report a run nothing is wrong with as misplaced (`src/audit.rs:522-544`):
  `AuditRaces.SpuriousMismatch` and `AuditRaces.SpuriousAbsence` are two schedules that make it. Over an honest
  store a run sealed when it is placed is mismatched exactly when it was written to since it was read, one with
  no leaf is reported missing exactly when what was read holds a sealing conclusion (`Audits.MismatchedExactly`,
  `Audits.AuditReport.Place`), and a run sealed before the audit began is never reported
  (`Audits.SealedBeforeIsPlaced`).
- The checkpoint in hand is replaced between placing a run and holding an anchor (`src/audit.rs:543-545`,
  `src/audit.rs:893-897`), and nothing holds the new one to the old, so the two checks can be of two logs:
  `Answered.UnjoinedBindsNothing` gives, for any hash and any two records, answers that pass every check at one
  position under one anchor and show two histories. `Answered.AnswersBind` proves what is bound when the two
  checkpoints are equal or one is proved to extend the other. Of a store that only grows the checkpoints in hand rise
  in size, so two are one exactly when they are of one size (`Trails.OneSizeIsOne`), and of an honest one any two are
  joined (`Audits.HonestTrailIsJoined`).
- The walk goes on over an unread record so that one old reader does not set off a cascade
  (`src/export.rs:2162-2166`), and with a key it still does: the signature check at the end of a block is given only
  the records that read (`src/export.rs:2252-2262`) and takes the gap for a broken chain. `Cascade.AKeyCascades` is a
  block of two signed records for which a key costs a second finding; `Cascade.ClosesExactly` says when.

## Model

| member | source | states |
|---|---|---|
| Merkle.SplitPoint | src/core/merkle.rs:145-158 | the split of a tree is the largest power of two strictly below its size, found without overflowing the width of a size |
| Merkle.RootBinds | src/core/merkle.rs:110-124 | one root at one size commits to one list of leaves |
| Merkle.WalkDown | src/core/merkle.rs:201-228 | the first loop of the inclusion check finds the turns from the root down to the leaf |
| Merkle.VerifyInclusion | src/core/merkle.rs:201-246 | the two loops accept exactly the paths that rebuild the expected root by the recursive reading |
| Merkle.InclusionIsComplete | src/core/merkle.rs:164-192 | every leaf's path, as built, is accepted against the tree's root |
| Merkle.InclusionIsSound | src/core/merkle.rs:201-246 | an accepted path proves the leaf at that index, or the strings hashed hold a collision |
| Merkle.ConsistencyIsComplete | src/core/merkle.rs:266-297 | every proof of growth, as built, is accepted between the two roots |
| Merkle.ConsistencyIsSound | src/core/merkle.rs:305-379 | an accepted proof of growth means the older leaves are the first of the newer ones, or the strings hashed hold a collision |
| Merkle.PathsBind | src/core/merkle.rs:201-228 | two paths to one root at one size and index end at one leaf, or the strings hashed hold a collision |
| Merkle.PathUnderNewer | src/core/merkle.rs:305-379 | a leaf proved under a root has a path to any root proved to extend it, or a collision, with no leaves known |
| Merkle.PathUnderOlder | src/core/merkle.rs:305-379 | a leaf proved under a root that was proved to extend an older one, and below the older size, has a path to the older root, or a collision, with no leaves known |
| Hashing.LastLinkBinds | src/core/id.rs:361-368 | two chains with one head have one last record over one head before it |
| Hashing.ChainBinds | src/core/id.rs:361-368 | a chain head commits to every byte under it |
| Hashing.HeadsBind | src/core/id.rs:361-368 | and to how many records there are, or the strings hashed hold a collision or a digest of zeros |
| Blocks.HeadInvariant | src/export.rs:1884-2026 | the running head is the chain over exactly the bytes on the lines that carry bytes and a hash, whatever else those lines are |
| Blocks.JudgeIsLineHolds | src/export.rs:1884-2026 | a line raises no finding exactly when its bytes recompute its hash, are canonical, read as this run's next record, close over their own predecessor and agree with the copies beside them |
| Blocks.CleanMeansRecomputes | src/export.rs:1884-2026 | a block comes out clean exactly when every line of it holds, and is then read as the records its bytes hold |
| Blocks.NoCascade | src/export.rs:2132-2171 | on the record lines of an otherwise untouched block each record this reader cannot read is one finding and no other line is blamed |
| Cascade.LinksExactly | src/journal/record.rs:1550-1576 | the records of an untouched block that read form a chain exactly when none of them follows one that does not, up to a digest of zeros |
| Cascade.ClosesExactly | src/export.rs:2210-2262 | closing an untouched block that keeps its place finds nothing without keys, and with keys files the signatures exactly when a readable record follows an unread one or is not signed |
| Cascade.BlockCosts | src/export.rs:2132-2272 | from its run line through its closing checks an untouched block that keeps its place, of a run and position not claimed before, adds one finding for each record that could not be read, and with keys exactly one more in those two cases |
| Cascade.AKeyCascades | src/export.rs:2252-2262 | a concrete block of two signed records, the first unread, that closes without a finding until a key is supplied |
| Verifier.EditedRecord | src/export.rs:2087-2103 | bytes that do not hash to their claim are filed as edited and the walk goes on over the bytes present |
| Verifier.UncanonicalRecord | src/export.rs:2107-2120 | bytes in no canonical spelling are filed and the walk goes on over them |
| Verifier.UnreadRecord | src/export.rs:2132-2171 | bytes this build cannot read are filed by why, and the walk keeps the sequence their own JSON names |
| Verifier.JudgeLine | src/export.rs:1884-2026 | one record line updates the run's pass and the report as the fold's step does, through all four exits |
| Verifier.CloseRun | src/export.rs:2175-2272 | closing a block counts it, files what it finds and lists the run sound exactly when nothing was found |
| Verifier.ClaimPlace | src/export.rs:1405-1447 | opening a block takes its position only when index and seal both read, and files one that claims half a position |
| Verifier.VerifyPass.Claim | src/export.rs:1453-1476 | a run or position claimed twice is filed, and a run carried twice is withdrawn from the sound list |
| Verifier.TakeHeader | src/export.rs:1843-1870 | version, rule and checkpoint are read and filed as the fold does, and an unknown rule leaves the file unanswerable |
| Verifier.ReadCaseBlock | src/export.rs:1258-1295 | each malformed member of a case block is filed on its own |
| Verifier.TakeTrailer | src/export.rs:1115-1153 | the trailer's claims are kept and its case count held to the cases read |
| Verifier.HoldToAnchor | src/export.rs:1515-1580 | a whole file is held to an outside checkpoint of another log or larger size, its own size, or a smaller one |
| Verifier.Settle | src/export.rs:1609-1716 | a whole file is settled against its anchors, its header, the tree rebuilt in log order and its trailer |
| Verifier.SettlePackageFile | src/export.rs:1727-1788 | a package is settled against its header, its anchors' origins and its trailer |
| Verifier.SettleCounts | src/export.rs:1178-1254 | undeclared empty blocks and the three counts are held to the trailer, as `NamedFindings.FindingsExactly` says of the lines |
| Verifier.SettleCaseLayer | src/export.rs:1351-1394 | every stamped and every selected case not carried is filed, in id order |
| Verifier.VerifyPass.Line | src/export.rs:902-1057 | one line moves the whole pass exactly as one step of the fold |
| Verifier.VerifyObserved | src/export.rs:902-1057 | the pass reports what the fold over the lines computes, and shows the observer every closed block in order |
| SoundFile.SoundExactly | src/export.rs:902-1057 | a file is called sound if and only if its header leads and is good, every line is in its place, no run or position is carried twice, every block with records is its run's one history, every block without them is declared by a trailer, the trailer counts the lines, every case stamped or selected has its line, and its leaves are the log its checkpoint and every outside checkpoint commit to |
| NamedFindings.FindingsExactly | src/export.rs:902-1057 | of any file the reader can answer for, sound or not, a finding is named if and only if some line, some block, some outside checkpoint or the file as a whole earns it, each said of the lines before the first that is not JSON |
| NamedFindings.UnanswerableExactly | src/export.rs:1795-1870 | a file cannot be answered for exactly when the header that leads it names an unknown rule, and only its header is then judged |
| NamedFindings.EmptyExactly | src/export.rs:1212-1222 | a run is filed for an empty block if and only if it has a block without records and no trailer read declares it unreadable |
| SoundList.SoundMeans | src/export.rs:1405-1476 | for every file, a run is listed sound if and only if one block is its one history: unique, non-empty, recomputed from zero in order under its name, conclusions over their own heads, and a claimed position holding its terminal hash |
| Binding.SortedKeeps | src/export.rs:1609-1716 | putting leaves in log order loses and adds none |
| Binding.SortedOrders | src/export.rs:1609-1716 | leaves end up in log order |
| Binding.SoundBlocks | src/export.rs:1453-1476 | in a sound file no run and no position is carried twice and every non-empty block is its run's one history |
| Binding.OneHeadOneHistory | src/export.rs:1884-2026 | two clean blocks with one terminal hash carry the same record bytes |
| Binding.SoundPrefix | src/export.rs:1515-1602 | a whole file sound under a checkpoint rebuilds that checkpoint's root from its first leaves |
| Binding.Binding | src/export.rs:1515-1602 | two whole files sound under one outside checkpoint carry, at every position below its size, the same seal and, where both carry records, the same bytes, or a collision |
| Binding.PackageBinding | src/export.rs:2235-2294 | every placed, non-empty block of a sound package is, under the checkpoint's size, the block a sound whole file carries there |
| Omission.SoundCounts | src/export.rs:1178-1254 | a sound file has a header and a trailer whose counts are the counts of its lines |
| Omission.OmissionIsSeen | src/export.rs:961-1056 | no proper subsequence of a file of a writer's shape is sound |
| FileShape.WrittenShape | src/export.rs:518-703 | every file a writer writes has that shape |
| FileShape.NothingLeavesUnseen | src/export.rs:518-703 | whatever lines leave a written export or package, what is left is not sound |
| Planes.TerminalHash | src/store/redb.rs:1000-1020 | an honest run's last hash is the chain over all its bytes |
| Planes.LogHashesStay | src/store/redb.rs:549-590 | the leaves below a checkpoint never change as the store grows |
| Planes.ApplyKeeps | src/store/redb.rs:1105-1409 | whatever another writer appends, concludes or seals, an honest store stays honest |
| Planes.ApplyGrows | src/store/redb.rs:1146-1165 | whatever another writer does, histories are only extended and sealed ones are frozen |
| Stores.PageOf | src/store/redb.rs:2143-2178 | a page of ids is strictly after its cursor, in order, and misses none before its end |
| Stores.Store.Interleave | src/journal/store.rs:296-315 | one turn of the environment keeps the store honest and only grows it |
| Stores.Store.Checkpoint | src/store/redb.rs:2224-2235 | a checkpoint commits to the log as it stands when it is read |
| Stores.Store.LogPositions | src/store/redb.rs:2321-2326 | each run's position and seal, in the order asked, or none for a run not sealed |
| Stores.Store.InclusionProof | src/store/redb.rs:2273-2290 | a sealed run's index, seal and path against the live log, from one snapshot |
| Stores.Store.InclusionProofAt | src/store/redb.rs:2292-2319 | the path against the log at an older size, for a run sealed below it |
| Stores.Store.ConsistencyProof | src/store/redb.rs:2237-2252 | the proof that the live log extends its own older size |
| Stores.Store.Append | src/store/redb.rs:1105-1409 | a batch is one run's, fenced by its lease, refused on a sealed run, and lands whole or not at all, each record at the position and under the epoch its bytes name |
| Stores.AppendEach | src/store/redb.rs:1166-1325 | records are linked one by one from the head the store holds, and the first refusal refuses the batch |
| Stores.Store.Seal | src/store/redb.rs:1814-1893 | only a run ending in its conclusion is sealed, at the end of the log, and the first seal stays |
| Stores.Store.RunsByOutcome | src/store/redb.rs:2011-2060 | only runs whose last conclusion was under the outcome, none twice, and all of them when the page is not full |
| Taking.PositionsStay | src/export.rs:573-582 | a position below the header's size, read from the live log, is the one the checkpoint's own log gives |
| Taking.PathsStay | src/export.rs:583-593 | a path against the header's size is the one the checkpoint's own log gives, however far the log has grown |
| HonestBlocks.HonestBlock | src/export.rs:1884-2026 | an honestly written block raises no finding and is read back as the very records written, under their terminal hash |
| Writers.DeriveLines | src/export.rs:229-247 | a run's lines are derived all or none |
| Writers.ReadForExport | src/export.rs:606-651 | a run is read whole when the store answers and every line can be derived, and contributes nothing otherwise |
| Writers.TakeRun | src/export.rs:574-651 | a block carries the run's place, path and records as of two planes the store grew through: all it held at the checkpoint, or nothing if the store was out of reach when it was read |
| Writers.TakeRuns | src/export.rs:557-652 | every run is taken in order and counted: records, runs read, runs unreadable, runs unplaced, cases stamped; each run left out costs an outage at a call of its own |
| Writers.WalkCases | src/export.rs:668-684 | paging through the cases of a growing store ends and carries every case held when it began, each row as the store held it at some moment in between, in rising order of id |
| Writers.CollectCases | src/export.rs:661-667 | a package carries every wanted case the store held when the collection began, and no case but those asked for and those its records are stamped with |
| Writers.WriteFile | src/export.rs:518-703 | the file is the header, one block per run asked for, the case layer and the counting trailer, all explained by the plane the checkpoint was read from and the one it grew into; every run is written with all it held at the checkpoint unless the store was out of reach when it was read; and a store never out of reach always yields a file |
| LogOrder.LeavesAreTheLog | src/export.rs:1609-1716 | the leaves of an export covering the log, put in order, are the log |
| ExportVerifies.CheckpointsStayEarlier | src/export.rs:1515-1580 | a checkpoint read before the log grew is a checkpoint of the grown log at its own size |
| ExportVerifies.WholeExportVerifies | src/export.rs:518-703 | a whole export over distinct runs covering everything sealed at its checkpoint is sound under any earlier checkpoints, listing exactly the runs it could read |
| ExportVerifies.PackageVerifies | src/export.rs:2235-2294 | a package whose sealing conclusions are all placed is sound |
| Exports.ToJsonl | src/export.rs:372-381 | an export of a store in use is the file described, and sound, for every interleaving of appends, conclusions, seals and outages |
| Packages.Resolve | src/export.rs:463-502 | a selection resolves to its cases' runs and its own, each once in the order named, and is refused when it names nothing, or for a case or run it names that the store did not hold |
| Packages.WritePlaced | src/export.rs:425-447 | the file is written against at most three checkpoints, and kept only with nothing unplaced; a run is refused as not sealed yet only after three files, each written from where the last left off, held a sealing conclusion with no place, and it was not in the log at the start |
| Packages.BuildPackage | src/export.rs:418-455 | over every schedule a package is sound, carries exactly the runs it names and those of its cases as the store held them in between, copies the ids of its case rows, and leaves no sealing conclusion unplaced, and a refusal names a case or run it was asked for and did not hold, or one that had ended unsealed; over a quiet store it is refused exactly when the selection names nothing or something not held, or a run of it is between its conclusion and its seal |
| Packages.PackageToJsonl | src/export.rs:418-455 | the destination receives a whole fit package or, on any refusal, nothing, and the refusal is of what it names |
| Packages.FitIsProved | src/export.rs:583-593 | every sealing conclusion of a package handed over is placed and proved below the header's size |
| FileBlocks.BlocksOfFile | src/export.rs:573-652 | the blocks of a written file are the runs taken, in order |
| FileBlocks.UnplacedIsStripped | src/export.rs:2221-2233 | a package carrying a sealing conclusion it does not place is not sound, however it is checked |
| Parser.ParsedFile.Header | src/export.rs:3313-3323 | a header sets version, rule and checkpoint, and refuses a package or an unreadable checkpoint |
| Parser.ParsedFile.Record | src/export.rs:3391-3442 | a record line extends the last block exactly when its bytes are canonical, covered by their hash and readable |
| Parser.ParsedFile.CaseBlock | src/export.rs:3218-3257 | a malformed case block is skipped, and one whose hold or erasure cannot be read refuses the file |
| Parser.ParseFile | src/export.rs:3278-3379 | the one pass reads what the fold reads, or refuses for the first reason it refuses |
| TwoReaders.ParseTracks | src/export.rs:3278-3379 | an accepted file's runs are its blocks, record by record, each linked to the one before |
| Acceptance.SoundParses | src/export.rs:3278-3379 | a file `verify` calls sound is accepted by the restore's reader if and only if every run block names its run, no line is of an unknown kind and no header is a package's |
| AcceptedFiles.ParseExactly | src/export.rs:3278-3379 | the restore's reader takes a file if and only if no line stops it and the trailer in force, if there is one, counts the lines; else the refusal is that of the first line that stops it, or of the first count that differs |
| AcceptedFiles.ParsedExactly | src/export.rs:3278-3442 | what is held of a file taken is its header and checkpoint in force, whether it ends, its signatures counted, its cases, and its blocks record by record |
| TwoReaders.ReadersAgree | src/export.rs:902-1057 | on every file `verify` calls sound whose lines are plain, both readers extract the same checkpoint, runs, positions and record bytes |
| ReadersPart.TheReadersPart | src/export.rs:3326-3336 | a concrete file with a run block naming no run, sound to one reader and refused by the other |
| ReadersPart.RetitledParts | src/export.rs:1019 | a record line retitled to an unknown kind changes nothing to `verify`, and refuses any file a restore took |
| ReadersPart.TheReadersPartOnAKind | src/export.rs:3362 | a concrete file with a record line of an unknown kind, sound to one reader and refused by the other |
| Replay.FlatOfBatches | src/export.rs:2837-2845 | cutting a run into batches loses and reorders nothing |
| Replay.BatchesAreOneEpoch | src/export.rs:2837-2845 | every batch is under one epoch |
| Restores.RefuseBeforeWriting | src/export.rs:2945-3009 | over every schedule: a file of another format or rule, cut short, or meant for a store that seals payloads is refused for the first of these with nothing written; and none is let through while the store holds a record of one of its runs |
| Restores.ReplayOne | src/export.rs:2834-2859 | a run is appended batch by batch, each held to the hashes the file claims: whoever else writes, each record then stands in the store at the place its bytes name, under the hash claimed |
| Restores.SealInOrder | src/export.rs:2861-2879 | placed runs with records and a conclusion are sealed in log order: whoever else writes, each of them is in the log when this is done |
| Restores.RestoreParsed | src/export.rs:2827-2941 | over every schedule the store only grows, and a restore that succeeds was of a file that may be replayed, found none of its runs held, has landed every record under its claimed hash, has sealed every placed run that concludes and answers with the checkpoint of the store it leaves; into a store nobody else writes to it is exactly the replay, and a refusal leaves the store as it was |
| Restores.FromJsonl | src/export.rs:2756-2782 | the same of the lines, over every schedule: a file is put back only if it reads, its header in force is of this format and rule, it ends in a trailer, and the target seals no payloads and held nothing of its runs; a file that fails one of these is refused for it with nothing written; and once put back, every record line's bytes stand where they say under the line's hash, and every placed block that concludes is in the log |
| Landing.BatchLands | src/export.rs:2837-2858 | a batch the store takes only extends one run that is not sealed, and leaves each of its records at the sequence number its bytes name, under the hash it was held to |
| Landing.AppendExactly | src/store/redb.rs:1105-1409 | the store takes a batch exactly when it is of one run that is not sealed, under that run's lease if it has one, and every record of it goes on from the head; it derives each from its bytes and the record before; else which refusal comes first |
| SoundRestore.ReplaysRun | src/export.rs:2834-2859 | replaying a linked history gives back the very records of the file, or the store refuses one that is too large, exactly when one is |
| Faithful.SortsTogether | src/export.rs:2861-2870 | the restore's order of seals is the verifier's order of leaves |
| Faithful.RestoresSound | src/export.rs:2827-2941 | restoring a sound plain export never stops on a hash and is never refused before writing; it succeeds if and only if every record fits and every run to be sealed ends in its conclusion, stopping at the store's own refusal otherwise; it is faithful if and only if every placed block carries a conclusion |
| RoundTrip.WrittenParses | src/export.rs:3278-3379 | every whole export a writer writes is accepted by the restore's reader |
| RoundTrip.CasesReadBack | src/export.rs:3218-3257 | every case row a whole export carries is read back as the store held it |
| RoundTrip.RestoreRoundTrip | src/export.rs:2827-2941 | a complete export of an honest store, restored into an empty one, brings back the log position by position and every record's bytes, hash and epoch, so the restore is faithful |
| Audits.VerifyChain | src/journal/record.rs:1550-1576 | a head is returned exactly for an unbroken chain, and is its last hash |
| Audits.VerifyHistory | src/journal/record.rs:1598-1635 | a history passes exactly when its chain holds and every signature present, and every one required, verifies |
| Audits.AuditReport.Place | src/audit.rs:515-570 | whatever the store holds, which placement each answer gets, and that a run is missing or mismatched exactly when the log and head of the plane that answered say so; a path and a root are only ever compared at one size, and an honest store's path is never found bad; every checkpoint it takes up was given out and is larger than the last |
| Audits.AuditReport.Pin | src/audit.rs:884-912 | it gives up only if the log grew between its two calls; of an honest store, a proof is handed on only with a checkpoint of the size it was read at; over a quiet store it always answers with the log's own growth proof; the checkpoint in hand is always one the store gave out |
| Audits.AuditReport.CheckAppendOnly | src/audit.rs:859-914 | whatever the store holds, a clean answer means the current root was proved to extend the anchor, and an anchor is left unpinned only if the log grew; an anchor an honest log gave out draws no finding; over a quiet store no anchor is left unpinned, and one draws its finding exactly when it is of another log, too large, or not extended by the log's own proof |
| Audits.PermanentlyUndecided | src/audit.rs:608-626 | groups are reported only under a sealing conclusion, and then exactly when some are left standing |
| Audits.ExamineRun | src/audit.rs:939-1025 | a run ends sound, blamed or named as unread; one whose history passes is reported missing or mismatched whenever the plane it was placed at says so; every run listed sound so far was held to its chain, its claims and a path under a checkpoint of that path's size; over a quiet store it adds exactly the faults of the history the store serves |
| Audits.Audit | src/audit.rs:926-1087 | whatever the store holds, no run or anchor is passed over, every run listed sound passed every check, and every anchor not blamed or named was proved extended, each by a checkpoint of one rising trail, so that the one a run was placed under is the one an anchor was held to exactly when they are of one size; over an honest store that grows throughout there is no false alarm: no chain is blamed but for a signature asked for that is missing or wrong, no claim, path or anchor of this log is blamed, a run is misplaced only if written to meanwhile or concluded unsealed at the start, and never if sealed before; over a quiet store, honest or not, it ends, and its findings, its sound runs and what it did not check are exactly those the histories, the log and the anchors call for |
| Audits.FiledExactly | src/audit.rs:993-1014 | over a quiet store a history that passes is filed for exactly what is wrong with it: its seal claims, its place in the log, its path and its groups |
| Audits.MismatchedExactly | src/audit.rs:536-544 | a run of an honest store sealed when it is placed is found mismatched exactly when it was written to since it was read, or its chain holds a collision |
| Audits.SealedBeforeIsPlaced | src/audit.rs:522-544 | a run sealed before the audit began is never reported missing or mismatched |
| Trails.OneSizeIsOne | src/audit.rs:893-897 | two checkpoints an audit of a growing store had in hand are one exactly when they are of one size |
| Audits.HonestTrailIsJoined | src/audit.rs:893-897 | of an honest store any two checkpoints an audit had in hand are joined by a growth proof |
| AuditRaces.SpuriousMismatch | src/audit.rs:522-544 | a schedule under which the audit of an honest store reports an honest run as sealed over another history |
| AuditRaces.SpuriousAbsence | src/audit.rs:522-534 | a schedule under which the audit of an honest store reports an honest run as missing from a log it enters next |
| Answered.AnswersBind | src/audit.rs:859-914 | two audits, whoever answered them, that place a run at one position below a checkpoint both found extended saw the same bytes if, in each, the checkpoint of the path and that of the growth are equal or one is proved to extend the other; or the strings hashed hold a collision or a digest of zeros |
| Answered.AnswerMatchesFile | src/audit.rs:515-570 | under the same condition such an audit saw the bytes any whole export sound under that checkpoint carries at that position |
| Answered.AuditChecks | src/audit.rs:926-1087 | an audit's report gives, for a run listed sound that is in the log and an anchor proved extended, the answers those two results start from, and they are joined when run and anchor were checked at one size |
| Answered.UnjoinedBindsNothing | src/audit.rs:543-545 | whatever the hash, two different histories pass every check at one position under one anchor when the checkpoint in hand is replaced in between |
| Answered.JoiningSwapsNothing | src/audit.rs:859-914 | and a growth proof that joins those two checkpoints makes the two histories one, short of a collision or a digest of zeros among the strings hashed |
| LiveOffline.ClaimsAgree | src/audit.rs:836-841 | for any served history whose chain verifies, the live seal-claim check holds exactly when the offline pass files no seal-claim finding |
| LiveOffline.LeavesAgree | src/audit.rs:542-544 | the live leaf comparison fails exactly when closing the exported block files the leaf finding |
| Groups.LeftoverIsMaxSuffix | src/audit.rs:634-652 | the count left of a key is the maximum over all suffixes of openings minus settlements |
| Groups.NothingLeftIsMatched | src/audit.rs:628-633 | nothing is left exactly when every opening can be matched to a later settlement of its own |
| Groups.CountGroups | src/audit.rs:634-652 | the counter map holds every key's leftover count, and the order list every opening |
| Groups.UnsettledGroups | src/audit.rs:634-668 | the list is the openings with some left out, naming each key exactly as often as its leftover count |
| GraderVerdicts.ObserveRuns | src/grader_verdict.rs:126-146 | the observer's map holds what the pass showed of the wanted runs |
| GraderVerdicts.Bind | src/grader_verdict.rs:155-184 | a sidecar is made exactly for a sound run and a record present, with that record's hash |
| GraderVerdicts.CheckOne | src/grader_verdict.rs:298-417 | the first component of the binding that does not hold is the one named; with the binding held, the status is bound exactly when grader keys are supplied, the sidecar is signed and its signature verifies over the unsigned sidecar; without keys it is never bound and never refused for its signature |
| GraderVerdicts.Check | src/grader_verdict.rs:265-295 | every sidecar is answered from one pass: its status, its run, the declaration its prefix was admitted under and the records past it; one that does not read is refused for its format |
| GraderVerdicts.AnswersMean | src/grader_verdict.rs:298-417 | for a run the file is sound for, what a sidecar is answered in terms of the bytes the file carries: which component fails first, the signature, the declaration that admitted the prefix and how many records lie past it |
| GraderVerdicts.UnsoundAnswers | src/grader_verdict.rs:298-317 | for a run the file is not sound for, a sidecar is refused for the run if no block names it and for its soundness if one does |
| GraderVerdicts.UnsoundBindsNothing | src/grader_verdict.rs:155-184 | and no sidecar is made for such a run |
| GraderVerdicts.BindingHolds | src/grader_verdict.rs:318-366 | a binding holds exactly when the bytes the export carries up to its sequence have its hash, and a closed one names the whole placed history |
| GraderVerdicts.SidecarStays | src/grader_verdict.rs:155-184 | a sidecar made by `bind` keeps its binding in every export, sound for the run, whose bytes carry the first one's on |
| WrittenVerdicts.VerdictStays | src/grader_verdict.rs:155-184 | a sidecar made over a whole export of a plane keeps its binding against every later whole export of that plane that reached the run, whatever was written in between |
| GraderVerdicts.SidecarNamesOnePrefix | src/grader_verdict.rs:298-366 | a sidecar bound in two exports names the same bytes in both, or a collision |
| Disclosures.Digesting.Write | src/disclosure.rs:279-284 | exactly what the inner writer took is digested |
| Disclosures.Digesting.Finish | src/disclosure.rs:270-275 | the digest is of the bytes the file holds |
| Disclosures.StageAndRecord | src/disclosure.rs:173-206 | only the staging file changes, and the act is recorded only once that file holds every byte of a fit package and is synced |
| Disclosures.Disclose | src/disclosure.rs:145-170 | if the destination changed, it holds one synced package and the register holds the act with its digest and runs; every error leaves the destination as it was; a delivery leaves no staging file; when nothing fails and nobody else writes, the package is delivered exactly when the destination can take it and it can be built |
| UnusedGrants.GrantsPass.ReadRecord | src/grants.rs:302-349 | one record's evidence is filed under its run's declaration, and a failing ring fails the report |
| UnusedGrants.CallIsGrouped | src/grants.rs:272-283 | every readable call is held by the group of the declaration that governed it, and every unreadable one is counted there |
| UnusedGrants.GroupedExactly | src/grants.rs:272-349 | a declaration's group holds exactly the calls recorded in the runs it governed, and has counted an unreadable call, or a refused one, exactly when there is one |
| UnusedGrants.GroupCounts | src/grants.rs:272-349 | every count of a group is the sum over the records of the runs the declaration governed, and the group names exactly those runs |
| UnusedGrants.PassFails | src/grants.rs:355-380 | the pass fails exactly when the ring fails on some call of some run |
| UnusedGrants.UnusedMeans | src/grants.rs:398-408 | a grant is unused exactly when no record of any run governed by the declaration is a readable call of it, an unreadable call, or a refused tool call or commission |
| UnusedGrants.Propose | src/grants.rs:513-536 | the proposal is the manifest's tools filtered in order, only unused grants removed, each kept one kept because removing it would not validate |
| UnusedGrants.SafeProposal | src/grants.rs:511-536 | each readable call the manifest granted is still granted; nothing is removed under an unreadable call; a valid manifest stays valid |
| UnusedGrants.Report | src/grants.rs:247-300 | one row for each declaration that governed a run the file carries, measured against the first manifest supplied for it; the four results after this one say what that means of the lines |
| GrantsFile.ReadsTheLines | src/export.rs:2538-2640 | a file is read exactly when every line of it can be taken, and what is read is its run lines in order, each with the bodies of exactly the record lines under it, in order |
| GrantsFile.ReportsWhen | src/grants.rs:247-300 | a report is refused exactly when the file is not read or has no header, fails exactly when the ring fails on a record line's call, and else has a row exactly for each declaration that admitted a run line |
| GrantsFile.MarksMean | src/grants.rs:398-408 | over the lines: a grant is used if a record line under the declaration is a readable call of it, not established if one is unreadable, and unused otherwise, and its count is that of the different calls on those lines |
| GrantsFile.ProposalIsSafe | src/grants.rs:511-536 | over the lines: each readable call the manifest granted is still granted, nothing is removed under an unreadable call, and a tool is removed only if no record line speaks for it and kept unused only if the manifest would not validate without it |
| InFlight.LookThrough | src/export.rs:2404-2436 | each candidate of a page is decided by its last record; the walk stops in the page exactly when the limit is reached with a candidate left, and says so exactly then; on a quiet store it lists exactly those in flight |
| InFlight.RunsInFlight | src/export.rs:2388-2439 | the walk ends, lists each run at most once and only runs in flight when read, and short of its limit with nothing unreadable misses no run in flight throughout; at its limit it is marked truncated exactly when the page that held its last run held another behind it; over a quiet store the answer is fixed by the plane |
| Flights.PageAligns | src/export.rs:2396-2408 | the walk's cursor stands at a multiple of a page among all runs, and a run has another behind it in its page exactly when its rank is no such multiple and a later run exists |
| Flights.HidesExactly | src/export.rs:2447-2448 | the walk over a quiet store leaves a run in flight out unsaid if and only if more are in flight than the limit and the one that fills it ends a page of all runs, or the limit is zero |
| Flights.OneRunUnsaid | src/export.rs:2398-2408 | an honest store of 257 runs in flight of which a walk limited to 256 leaves one out unsaid |
| InFlight.ReadByOutcome | src/export.rs:2487-2497 | every outcome is asked once, the runs are exactly the first of each answer, and an outcome is named exactly when its answer overran the limit |
| InFlight.RunsToRead | src/export.rs:2476-2514 | no run is listed twice; the runs are exactly those each listing took up to its limit, those in flight last; an outcome is named as cut short exactly when its page overran, and the in-flight listing exactly when its walk was marked truncated, which is when its last run's page held another; short of the limit no run in flight throughout is missed |

## Left out

- Stores.Store.RunsByOutcome: lists in id order rather than newest first, because the order conclusions were written in across runs is not part of a plane; which runs a full page leaves out is not promised.
- Stores.Store.Append: does not model the exactly-once effect index, admission keys, the depth limit on a record, or a signer; a restored record comes back without a signature.
- Stores.Store.Interleave: an environment turn writes only records the runtime would write; a store that corrupts its own rows is the subject of the verifier's results, not of the writer's.
- Restores.RestoreParsed: does not import the case layer, look for payloads sealed for another tenant, list awaiting runs or spell out losses; what it rebuilds is the journal and the log.
- Restores.FromJsonl: while other writers use the target, where their records and seals come to stand among the file's is not said.
- Writers.DeriveLines: the display copy is the JSON of the record's bytes; that re-serializing a record this build reads gives the same JSON value is left to the encoding.
- Writers.WriteFile: one store call stands for the four that read a case's deadlines, blobs, hold and erasure; whether any record carried a sealed payload is not computed.
- Audits.Audit: effects in doubt, releases, warrants, witness freshness and the sentences about missing evidence are not reported.
- GraderVerdicts.CheckOne: sealed payloads in the prefix and the reasons in words are not reported; the warrant is the declaration's digest alone.
- UnusedGrants.Report: menu values, egress statistics and the report's window are not computed, and rows are keyed by declaration rather than listed in digest order.
- Disclosures.Disclose: whether a package carried sealed payloads is not part of the recorded act, and removing the staging file may itself fail, as in the source.
- Verifier.VerifyObserved: notes about unknown members, the list of what was not checked and the wording of findings are not modelled; a line the operating system fails to read is not a line.
- JSON text, base64, ULIDs, timestamps and files are data; signatures are an arbitrary predicate on a hash and a signature.
- The Postgres store and leases' acquisition and expiry: the store is modelled on the embedded backend's calls.
- The effect protocol, sagas, quota, delivery runtimes and the TLA+ sources.
- Retention, drills and subject listings: paging and counting over stores that are not part of this model.
