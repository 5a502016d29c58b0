# gokv: a verified model of its storage engine, replication, wire format and election

gokv is a log-structured key-value store. Writers append records to an active data file and
point an in-memory index at them; a merge copies live records out of the immutable files while
writers carry on; recovery rebuilds the index from the files after a crash; a leader ships its
log, or a snapshot of its index, to followers.

This project models that behaviour in Dafny and proves what it keeps.

## How the model is laid out

| files | what they hold |
|---|---|
| `Bytes`, `Records`, `Log`, `Hints` | bytes, the on-disk record and its checksum, a data file as a list of records, the scanner, hint files |
| `Engine` | the engine as a state machine: one function per critical section of a write, a merge or a recovery |
| `Invariant`, `Writing`, `Compaction`, `Reclaim`, `Durability`, `Recovery`, `Crash` | what every step keeps, in memory and on disk, what a merge gives back, and what recovery rebuilds after a cut at any byte |
| `Runs`, `Exposure`, `Reads`, `Lookups`, `Restarts`, `Unlinking`, `UnlinkRace`, `FileSizes` | theorems over whole runs: every interleaving of writes, syncs, hint building, merge phases, aborts, crashes and restarts |
| `SkipList`, `SharedIndex`, `Usage`, `Recount`, `Stores` | the imperative side: the linked skip list, the hash map that shares its nodes, the counters, and the store over bytes, each method proved to take the engine step it stands for |
| `Scanning`, `RangeScans`, `ScanRace` | chunked range scans, undisturbed and racing writers and merges |
| `LogReplay`, `LogWalk`, `WalkRace` | replaying the log for a follower, file by file, while the leader writes, rotates and merges |
| `Versions`, `Following`, `Replica`, `Followers` | last-writer-wins, what a follower holds while records arrive and its own merges forget tombstones, and the engine that does so |
| `Snapshots`, `SnapshotRace` | a snapshot sent while the leader writes and merges, and its queue |
| `Replication`, `Mirroring` | leader/follower sessions over whole runs, as tables and as the follower's engine |
| `Wire`, `Framing`, `Election` | frame bodies and streams, range replies, one election round |

A *world* (`Runs.World`) is an engine with its history: the operations a crash cannot touch
(`durable`) and those acknowledged since the last sync (`volatile`). `After(ops)` is the map a
history denotes, `View(index, ledger)` the map the index denotes. `Phys` says that the engine is
sound, in memory and on disk, whatever it denotes; `Inv` adds that `View` equals
`After(durable + volatile)`; `Safe` says that what is stable on disk denotes `After(durable)`.

## What was found

**A merge can lose a durable key.** `Compact` seals the active file, then takes its snapshot of
the index under another lock. A key overwritten in between has its newest record in the new
active file, so the merge does not copy the old one; the old file is unlinked all the same. If
the machine crashes before the active file is synced, the new value is cut off and the old,
synced value is gone with its file. `Exposure.DurableKeyLost` builds such a run for every key and
every two values. `Runs.DropSafe` gives the exact condition: the unlink keeps the durable map if
and only if no key is exposed, where a key is exposed when its newest record in the merge set is a
put, the merge holds no item for it, and nothing written of it since is synced.
`Exposure.ExposedWasOverwritten` shows that such a key was overwritten between the seal and the
snapshot. `Durability.SyncedIsSafe` and `Runs.NothingAcknowledgedIsLost` show that a sync before
the unlink, or `SyncAlways`, rules it out. The design notes say that the interval mode risks
recent writes in a machine crash; this is more than that, since the value lost had been synced.
The model follows the code.

**Locators wrap after 4 GiB of one write.** `writeLocked` keeps the offset of each record in its
write buffer in 32 bits. `Writing.WrittenLocator` says exactly when an entry still finds its
record, and `Writing.LocatorWraps` gives an admissible batch for which it does not. Batches that
arrive over the network are far smaller, because a frame is at most 320 MiB.

**A deleted key can come back.** The merged files are removed one by one in ascending order, and an
output's id is above that of the file that was active when it was written, so a tombstone may lie
in a lower file than the put it shadows. A process killed in between, with every write synced,
restarts with the put. `Unlinking.KilledIff` gives the exact condition, wherever the loop had come
to; `UnlinkRace.DeletedKeyRecovered` builds the run for every key and value.

**A log replay can be overtaken by a merge.** `RecordsSince` checks the watermark once, lists the
files, and skips a file that is gone when its turn comes. A merge that finishes in between takes
records above the follower's position with it, deletions for good. `LogWalk.WalkIff` gives the
exact condition: the replay is complete if and only if no file was unlinked before its turn with
records above the position in it. `LogWalk.MarkSuffices` shows that a second look at the watermark
at the end would be enough. `WalkRace.DeletionNeverArrives` builds the failing session: the
follower ends up at the leader's own sequence number, serving a deleted key it will never be told
about. Overtaken or not, `Replication.StreamedIff` says exactly when a session leaves a follower
that can resume.

**A follower's own merge can revive a deleted key.** A session sends the log, then a queue that
starts earlier than the log ended. If the follower's merge retires a tombstone in between, an
older put from the queue is taken for new, and a connection that breaks there leaves the follower
past the deletion. `Following.ResumeIff` gives the exact condition for a session cut anywhere, and
`Following.DrainedConverges` shows that a session that is drained puts things right if the log
came in order, as it does when no merge of the leader had outputs at the listing.
`Following.DeletedKeyComesBack` and `Mirroring.DeletedKeyServed` build the failing session, the
latter on the follower's engine.

**A snapshot that is cut off is not resumed.** A follower resumes from the highest number it has
seen, but a snapshot goes by key. `Following.DeliveryIff` says exactly when a follower that was
told any records in any order can resume, and `Following.PartialCopyMisses` is the smallest case
where one that started over cannot.

**A snapshot can miss a live key.** A reference whose file is gone is looked up again, and after
three reads that come too late the key is skipped; the code's own comment says that it must not be.
`Snapshots.SnapshotConverges` shows that a finished and drained session converges if and only if
no live key was skipped that has not been written since, `Snapshots.FewUnlinks` that this takes
three merges finishing during one snapshot, and `SnapshotRace.KeyNeverArrives` builds the session:
the follower is at the leader's number without the key, for good.

**A recount can lose writes.** After a merge the byte total is recounted in two steps under one
lock while writers use another. `Recount.RecountDrift` says by exactly how much it is off
afterwards; `Recount.ClampActs` is an order in which the total ends up below the live bytes with
nobody at work, which the clamp in `deadBytes` hides.

**A range scan can lose a live key.** A reference whose file is gone is looked up again, once. If
that file, too, is unlinked before the read, the key is skipped as if it had been deleted.
`RangeScans.ScanIff` shows that a key that is live throughout is missed if and only if that
happens at it, `RangeScans.OneUnlink` that it takes two merges finishing during one scan, and
`ScanRace.LiveKeyLost` builds the run. `Get` tries four times and then reports an error:
`Lookups.GetTruthful` says exactly when, and `Lookups.RaceLost` builds the run.

## Model

| member | source | states |
|---|---|---|
| Records.DecodeEncode | internal/engine/record.go:62-98 | decoding an encoded record gives that record back |
| Records.EncodeDecode | internal/engine/record.go:79-98 | whatever the decoder accepts is byte for byte the encoding of what it returns |
| Records.EncodedFields | internal/engine/record.go:12-23 | where each field lies in the encoding, and that the checksum covers everything after it |
| Records.OneByteCaught | internal/engine/record.go:79-98 | a record with any one byte changed, wherever it is, is refused as corrupt |
| Checksum.OneByte | internal/engine/record.go:62-77 | bytes that differ in one place have different checksums |
| Bytes.LessIff | internal/engine/skiplist.go:56-65 | the key order is Go's string order: the smaller byte at the first difference, or a proper prefix |
| Bytes.LEByte | internal/engine/record.go:12-23 | the log is little-endian |
| Bytes.BEByte | internal/proto/proto.go:165-180 | the wire is big-endian |
| Records.AppendRecord | internal/engine/record.go:62-77 | filling the buffer field by field and checksumming it last appends exactly the record's encoding |
| Records.ClearBatchFlags | internal/engine/record.go:157-165 | rewriting one byte and the checksum yields the encoding of the lifted record |
| Records.LiftedSound | internal/engine/record.go:148-165 | lifting a record out of its batch keeps key, value, sequence number, tombstone bit and length, decodes, is idempotent, and leaves nothing waiting for a terminator |
| Log.ScanFile | internal/engine/record.go:104-146 | the scanner returns every intact record with its offset, and the end of the last one |
| Log.IntactTruncated | internal/engine/record.go:100-146 | for every list of valid records and every cut, exactly the records that fit are found |
| Log.IntactDamaged | internal/engine/record.go:100-146 | a log with one byte changed, outside a length field: exactly the records before the damaged one are found |
| Log.IntactSound | internal/engine/record.go:100-146 | on arbitrary bytes, what the scanner accepts is valid and re-encodes to a prefix of the file |
| Log.BytesAt | internal/engine/datafile.go:99-109 | reading a locator's bytes gives the encoding of the record at that offset |
| Log.OperationAtomic | internal/engine/store.go:265-306 | an operation cut short leaves the committed part of the log where it was, a complete one ends it |
| Writing.WrittenLocator | internal/engine/store.go:432-439 | a locator built from a 32-bit buffer offset finds its record if and only if less than 4 GiB of the same write precedes it |
| Writing.LocatorWraps | internal/engine/store.go:432-439 | a batch of seventeen admissible pairs, one terminated operation, whose last locator does not find its record |
| Writing.AppendSound | internal/engine/store.go:424-475 | a local write keeps the invariant, merge in flight or not, and changes the live map as its records say |
| Compaction.SealSound | internal/engine/compact.go:102-136 | sealing and fixing the merge set keeps the invariant |
| Compaction.SnapshotSound | internal/engine/compact.go:138-162 | the snapshot keeps the invariant: every entry still in the merge set is waiting to be moved or retired |
| Compaction.CopySound | internal/engine/compact.go:201-248 | copying an item keeps the invariant and leaves the index alone |
| Compaction.AbortSound | internal/engine/compact.go:189-199 | giving up strands no index entry |
| Compaction.RepointSound | internal/engine/compact.go:268-287 | repointing any chunk keeps the invariant and the live map, whatever was rewritten meanwhile |
| Compaction.RetireSound | internal/engine/compact.go:289-300 | retiring any chunk of tombstones keeps the invariant and the live map |
| Compaction.UnlinkSound | internal/engine/compact.go:302-319 | after the unlink every entry still selects a record in a file that exists |
| Reclaim.UnlinkSheds | internal/engine/compact.go:82-88 | in any interleaving, what is left at or below the watermark are puts, one version of each key |
| Reclaim.SoloTight | internal/engine/compact.go:302-319 | with nobody else at work, every record left is the one the index leads to, no tombstone among them |
| Reclaim.TightTotal | internal/engine/store.go:770-777 | then the bytes on disk are the live bytes |
| Durability.UnlinkKeepsStable | internal/engine/compact.go:307-319 | the unlink keeps the stable map if and only if no key is exposed |
| Durability.SyncedIsSafe | internal/engine/compact.go:102-117 | with the active file synced no key is exposed |
| Hints.HintRoundTrip | internal/engine/datafile.go:164-243 | reading a written hint back lists exactly the records of its file, cleanly |
| Hints.HintCleanIff | internal/engine/datafile.go:205-243 | a hint reads cleanly if and only if it is the header and whole entries, and then it lists exactly those |
| Hints.EntriesSound | internal/engine/datafile.go:205-243 | on any bytes, the entries read are a prefix of the file, and no entry begins where they end |
| Hints.HintCut | internal/engine/datafile.go:205-243 | a hint cut at any byte lists exactly the entries before the cut, and is clean only between two entries |
| Hints.HintIsReplay | internal/engine/compact.go:15-35 | replaying a hint builds the index that replaying every record builds |
| Hints.BuildHint | internal/engine/compact.go:19-35 | the hint built from a data file is the encoding of its intact records' entries |
| Recovery.StageClosed | internal/engine/store.go:265-306 | staging applies exactly the complete operations, in order, and commits at the end of the last one |
| Recovery.StageIff | internal/engine/store.go:265-306 | on any log, a record is applied if and only if it is plain or a terminator comes at or after it, and the commit offset lies behind the last plain record or terminator |
| Recovery.ScanIntoIndex | internal/engine/store.go:268-306 | the scan loop with its pending batch computes that index, the highest sequence number and the commit offset |
| Recovery.ScanIsReplay | internal/engine/store.go:223-235 | scanning a file in which no batch is left open by a later record is replaying its committed records |
| Recovery.LoadIndex | internal/engine/store.go:194-217 | on any disk, the index and highest number a file contributes, with the offset to cut at; the data file is scanned unless its hint is a header and whole entries |
| Recovery.Recover | internal/engine/store.go:173-263 | on any disk, the loop over files in id order, hints, torn tail and reuse of the last file builds the engine opened from the disk |
| Recovery.OpenedFiles | internal/engine/store.go:219-258 | on any disk, nothing changes but the last file, which is cut at its commit offset if it was scanned, and appended to if and only if it was scanned and is not full |
| Recovery.TornHintTrue | internal/engine/store.go:206-213 | a hint cut anywhere but between two entries is noticed, so recovery is that of a readable disk |
| Recovery.ShortHintMisses | internal/engine/store.go:206-213 | a hint cut between two entries is not: exactly the records before the cut are indexed |
| Recovery.OpenedReadable | internal/engine/store.go:173-263 | from a readable disk that engine is a restart over the committed records of every file, hints or no hints |
| Crash.CutLoads | internal/engine/store.go:223-235 | a file cut at any byte loads as the operations that end within it, and no byte is misread |
| Crash.CrashReadable | internal/engine/store.go:194-217 | after any crash every hint on disk reads cleanly and lists its whole file |
| Crash.RestartSound | internal/engine/store.go:173-263 | the engine recovery builds after any crash is sound, though ids are not in sequence order |
| Crash.RestartView | internal/engine/store.go:173-263 | it denotes the stable map followed by exactly the operations of the active file that reached the disk whole |
| Runs.WrittenIsAppend | internal/engine/store.go:424-475 | the write step of a run is the engine's append |
| Runs.RunPhys | internal/engine/compact.go:94-325 | in every run, crashes and restarts included and whatever they lose, every index entry selects the record it claims in a file that exists |
| Runs.RunInv | internal/engine/compact.go:94-325 | in every interleaving of writes with the steps of a merge and its abort, the engine denotes its history |
| Runs.RunSafe | internal/engine/store.go:173-323 | with crashes and restarts anywhere outside an unlink that exposes a key, the engine denotes its history and the disk its durable part |
| Runs.RebootView | internal/engine/store.go:173-323 | recovery after a cut at any byte is the stable map after exactly the whole operations that survived |
| Runs.SurvivorsLargest | internal/engine/store.go:265-306 | an operation survives a cut if and only if its last byte lies within it, so the survivors are the longest prefix |
| Runs.DropSafe | internal/engine/compact.go:307-319 | the durable map survives the unlink if and only if no key is exposed |
| Runs.ExposedIsLost | internal/engine/compact.go:102-162 | an exposed key is durable before and absent after the unlink and a crash that takes the unsynced file |
| Runs.NothingAcknowledgedIsLost | internal/engine/store.go:432-475 | with every write synced, no run of crashes, merges and restarts takes an acknowledged operation back |
| Exposure.DurableKeyLost | internal/engine/compact.go:102-162 | for every key and two values, a run from an empty store that loses the synced key |
| Exposure.ExposedWasOverwritten | internal/engine/compact.go:102-162 | a key exposed at the unlink was written after the seal and before the snapshot, and nothing written of it since is synced |
| Restarts.CleanRestart | internal/engine/store.go:307-323 | at any step of any run, outside the loop that unlinks the merged files, a restart that loses no byte recovers exactly the live map |
| Restarts.CleanRestartRun | internal/engine/store.go:307-323 | the same after every run from an empty store, earlier crashes included |
| Unlinking.KilledIff | internal/engine/compact.go:307-319 | killed inside that loop, wherever it had come to: a restart recovers exactly the live map if and only if no key's newest surviving record is a put older than its newest record |
| Unlinking.ResurfacesLive | internal/engine/compact.go:307-319 | such a key is not live before the kill and live after the restart |
| UnlinkRace.DeletedKeyRecovered | internal/engine/compact.go:82-88 | for every key and value, a run of synced writes and two merges from an empty store in which the deleted key comes back |
| Restarts.RecoveryIsReboot | internal/engine/store.go:173-263 | what the recovery loop builds from the disk any crash leaves is the engine a run continues with |
| Reads.RunPersists | internal/engine/compact.go:74-80 | files only grow and a deleted file's id is never issued again |
| Reads.ReadRace | internal/engine/store.go:558-608 | a key looked up live and read any number of steps later gives its value at the lookup or word that the file is gone, never another key's or version's |
| Reads.ReadExact | internal/engine/store.go:588-608 | on any files, a value is read if and only if the bytes at the locator encode a put with that sequence number and that value |
| Lookups.GetTruthful | internal/engine/store.go:558-586 | four attempts, with engine steps before and inside each: the value or the absence of the key at one of the lookups; an error if and only if every attempt was overtaken |
| Lookups.FewMerges | internal/engine/store.go:563-566 | with fewer than four merges finishing meanwhile there is no error |
| Lookups.RaceLost | internal/engine/store.go:584-586 | with four there is one, of a key that is live all the time |
| FileSizes.RunCapped | internal/engine/store.go:517-540 | in every run, restarts included, a file stays within the limit unless it holds a single append or a single merged record |
| FileSizes.CopyCapped | internal/engine/compact.go:230-241 | splitting the merge output keeps that |
| FileSizes.RestartCapped | internal/engine/store.go:236-258 | cutting, reopening and reusing the last file keeps that |
| FileSizes.WritePlaced | internal/engine/store.go:517-540 | a write that fits the active file goes there, and only one that does not opens another |
| FileSizes.RunDense | internal/engine/compact.go:230-241 | in every run the outputs of a merge are packed: what one begins with did not fit the one before |
| LogReplay.RunLogged | internal/engine/compact.go:115-302 | without a restart, the log above the merge watermark is the history above it, in every interleaving with merges |
| LogReplay.RunKnown | internal/engine/store.go:482-501 | without a restart, every indexed key is at its newest record in the whole history |
| LogReplay.RecordsSince | internal/engine/compact.go:347-374 | over the bytes of any files: scanning them by id emits the records above the position, or refuses below the watermark |
| LogReplay.RecordsSinceIsHistory | internal/engine/compact.go:343-374 | between merges that scan is the history after the position: complete and strictly ascending |
| LogReplay.NothingAboveTheMarkIsGone | internal/engine/compact.go:302-305 | every record above the watermark is on disk at every step |
| LogWalk.WalkIff | internal/engine/compact.go:343-374 | files listed at one step and read at later ones, any leader steps in between, no merge's outputs among them: the history after the position is emitted without a gap, at least to where it was at the start, if and only if no file was unlinked before its turn with records above the position in it |
| LogWalk.WalkGapless | internal/engine/compact.go:343-374 | with outputs among them, skipping no file is still enough: their copies only repeat; without, what is emitted is in order |
| LogWalk.MarkSuffices | internal/engine/compact.go:348-350 | a watermark that has not passed the position after the last read means no file was skipped |
| WalkRace.WalkLoses | internal/engine/compact.go:351-374 | a merge that finishes between the listing and the first read: nothing is emitted at all |
| WalkRace.DeletionNeverArrives | internal/node/replication.go:191-199 | the session around it leaves a follower at the leader's number that serves a deleted key and cannot be caught up |
| WalkRace.BeforeHolds | internal/node/replication.go:305-329 | a leader and a follower it happens to, reached from an empty store |
| Scanning.TakeChunk | internal/engine/store.go:640-669 | one chunk: where it starts, where it stops, and exactly the live entries between |
| Scanning.ChunkCovers | internal/engine/store.go:640-669 | a chunk refers to every live key it passes and to no other, and an unmoved cursor means nothing is left |
| Scanning.Scan | internal/engine/store.go:625-695 | an undisturbed scan emits the sorted live range, whole if the limit is zero, negative or not reached, and otherwise its first entries up to the limit; and ends |
| RangeScans.ScanOrderly | internal/engine/store.go:617-695 | emitted keys ascend strictly within the range, whatever the engine does between and during chunks |
| RangeScans.ScanLimited | internal/engine/store.go:683-692 | never more than the limit, and at the limit the scan is over |
| RangeScans.ScanTruthful | internal/engine/store.go:669-695 | every value emitted is one the store held under that key at some moment of the scan, and no read goes wrong |
| RangeScans.ScanIff | internal/engine/store.go:617-695 | a finished scan has emitted a key of its range that was live throughout if and only if the limit did not stop it before and no second read of that key found its second locator's file gone |
| RangeScans.OneUnlink | internal/engine/store.go:697-711 | while at most one merge unlinks its files there is no such read, however many merges start or give up |
| ScanRace.LiveKeyLost | internal/engine/store.go:669-682 | a scan of one key, live from beginning to end, that finishes without it and without an error because two merges finish |
| ScanRace.OnePut | internal/engine/store.go:337-355 | a store it happens to: any with one put |
| Versions.ReceiveAllWins | internal/engine/store.go:477-501 | applying records keeps for each key exactly the one with the highest sequence number |
| Versions.DeliveryOrder | internal/engine/store.go:477-501 | order and repetition of deliveries do not matter |
| Versions.ReceiveAscending | internal/engine/store.go:477-501 | delivering a history in order denotes the map that history denotes |
| Replica.ParseRaw | internal/engine/store.go:891-927 | raw bytes are accepted if and only if they are a run of valid records, and then parsed to exactly those |
| Replica.InstallTable | internal/engine/store.go:886-940 | installing a group is the join of its records into what the index leads to |
| Replica.InstallIsJoin | internal/engine/store.go:886-940 | any permutation, grouping and duplication of the same records gives the same table and sequence number: the newest record of every key |
| Replica.InstallTwice | internal/engine/store.go:477-501 | a frame delivered again leaves the index as it was, locators included |
| Following.ResumeIff | internal/node/replication.go:305-329 | records of the history without a gap, cut anywhere, with any tombstones forgotten in between: the follower can resume from the highest number it has seen if and only if no key was revived |
| Following.ResumeAnywhere | internal/node/replication.go:305-329 | a follower that does not merge meanwhile always can |
| Following.ForgetCatchable | internal/engine/compact.go:289-300 | between sessions a follower may forget any tombstone |
| Following.DrainedConverges | internal/node/replication.go:98-155 | log in order, then the whole queue: the follower holds the newest version of every key, lacking at most deleted ones, whatever it forgets on the way |
| Following.DeletedKeyComesBack | internal/node/replication.go:98-155 | a session cut in the queue after the follower forgot a tombstone: at the leader's number, serving the deleted key |
| Following.DeliveryIff | internal/node/replication.go:384-391 | told any records of the history, in any order, while its merges forget what they like, a follower can resume from a position if and only if no key went astray below it: every put there was held or sent, and no deletion is hidden by an older put |
| Following.PartialCopyMisses | internal/engine/compact.go:408-459 | a snapshot cut after its first record whose follower will never hear of the second key |
| Followers.RunFollows | internal/engine/store.go:886-940 | frames installed in any order while the follower merges, aborts and retires: the engine stays sound, is at the highest number, and leads to what receiving the records and forgetting some tombstones leaves |
| Snapshots.EventsKeep | internal/engine/compact.go:408-459 | the snapshot invariant holds through every interleaving of leader steps, chunks, reads and second lookups |
| Snapshots.ReferenceDrawn | internal/engine/compact.go:376-406 | a reference whose file is there leads to a version the leader wrote, never older than what it held at attach |
| Snapshots.SnapshotConverges | internal/engine/compact.go:408-459 | a finished snapshot and its drained queue give the newest version of every key, lacking at most deleted ones, whatever the leader writes and merges and the follower forgets, if and only if no live key was skipped that was not written since attach |
| Snapshots.FewUnlinks | internal/engine/compact.go:378-406 | while fewer than three merges unlink their files no key is skipped |
| SnapshotRace.KeyNeverArrives | internal/engine/compact.go:446-456 | a session that three merges overtake: the follower is at the leader's number without a live key, and cannot be caught up |
| Replication.CopiedInStep | internal/node/replication.go:191-216 | such a session brings the live maps into step if and only if no key was skipped for good, and then the follower can resume |
| Replication.StreamedIff | internal/node/replication.go:89-155 | attach, leader steps, the walk with leader steps before each file, more steps, the queue, cut after any record, the walk overtaken or not: the follower can resume from its own number if and only if no key went astray |
| Replication.UnskippedIff | internal/node/replication.go:89-155 | if the walk skipped no file, if and only if no key was revived |
| Replication.CopiedIff | internal/node/replication.go:205-216 | a snapshot session cut anywhere, in the snapshot or in its queue: likewise, if and only if no key went astray |
| Replication.PlainHarmless | internal/node/replication.go:89-155 | a follower that does not merge during a session whose walk skipped no file can resume, wherever it is cut off |
| Replication.DrainedHarmless | internal/node/replication.go:89-155 | so can one that merges, if it is sent everything and no merge of the leader had outputs when the files were listed |
| Replication.StreamedInStep | internal/node/replication.go:191-199 | a session in which no key went astray and which brings the follower to the leader's number brings its live map into step |
| Replication.DrainedArrives | internal/node/replication.go:191-199 | a drained session whose walk skipped no file brings it there |
| Replication.AlwaysCatchable | internal/node/replication.go:248-409 | through any number of sessions, each cut anywhere, with leader and follower merging, a follower can be caught up from its own sequence number as long as no key goes astray in any of them |
| Replication.NewFollower | internal/node/replication.go:305-329 | a follower that has heard nothing is where that starts |
| Mirroring.MirrorStreams | internal/node/replication.go:370-391 | installing what a log replay session sends, with the follower's merge steps in between, leaves the engine at the table and number of that session |
| Mirroring.MirrorCopies | internal/engine/store.go:942-980 | the same for a snapshot session into an engine that was reset |
| Mirroring.MirrorIdles | internal/engine/compact.go:94-325 | between sessions the follower's merges only forget tombstones |
| Mirroring.MirrorServes | internal/node/replication.go:384-391 | in step, the follower's engine serves the leader's live map |
| Mirroring.DeletedKeyServed | internal/engine/compact.go:289-300 | the deleted key that comes back, on the follower's engine |
| SkipList.List.constructor | internal/engine/skiplist.go:29-35 | an empty list with every head link nil |
| SkipList.List.FindPrev | internal/engine/skiplist.go:56-65 | the descent ends, on every level, at the last node below the key |
| SkipList.List.Insert | internal/engine/skiplist.go:56-84 | for any level drawn, inserts the key at its rank or overwrites its entry, and every level links the nodes tall enough for it, in order |
| SkipList.List.Remove | internal/engine/skiplist.go:86-109 | removes exactly that key if present, from every level, and lowers the level as far as it can |
| SkipList.List.SeekNode | internal/engine/skiplist.go:112-120 | returns the least key not below the argument, or none |
| SkipList.List.Walk | internal/engine/skiplist.go:124-133 | following level 0 visits exactly the keys not below the start, in ascending order |
| SkipList.List.WalkLevel | internal/engine/skiplist.go:59-64 | the links of a level lead from the head through exactly the nodes tall enough for it, in key order, and none at or above the level in use |
| SkipList.LevelsNest | internal/engine/skiplist.go:16-27 | every level is a subsequence of the levels below it |
| SkipList.LevelZero | internal/engine/skiplist.go:16-27 | level 0 is the whole list |
| SharedIndex.KeyDir.Apply | internal/engine/store.go:477-501 | newest wins; hash map and list keep the same nodes; the counters stay the bytes and number of live entries |
| SharedIndex.KeyDir.ApplyRecovered | internal/engine/store.go:312-323 | newest wins, without touching the counters |
| SharedIndex.KeyDir.Recount | internal/engine/store.go:503-515 | rebuilds the counters from the index |
| SharedIndex.KeyDir.Repoint | internal/engine/compact.go:273-286 | moves an entry only if it is the one collected, and keeps the counters |
| SharedIndex.KeyDir.Retire | internal/engine/compact.go:289-299 | forgets a tombstone in both halves only if it is the one collected |
| SharedIndex.KeyDir.CollectMerge | internal/engine/compact.go:138-162 | exactly the live and the deleted keys of the merge set, in key order |
| Usage.LiveWithinTotal | internal/engine/store.go:770-777 | live bytes never exceed the bytes of the files |
| Usage.SumCounts | internal/engine/store.go:503-515 | the entry counter is the number of live keys |
| Stores.Store.MaybeRotate | internal/engine/store.go:517-540 | leaves everything alone if the active file is empty or the write fits it, and otherwise opens the next file |
| Stores.Store.Write | internal/engine/store.go:432-475 | encoding, rotating, appending and indexing is the engine's write, over bytes |
| Stores.Store.Put | internal/engine/store.go:337-355 | which error for which input, and otherwise the live map with the key set |
| Stores.Store.BatchPut | internal/engine/store.go:357-397 | the error of the first pair that is wrong, and otherwise the live map with every pair set in order |
| Stores.Store.Delete | internal/engine/store.go:399-421 | which error for which input, and otherwise the live map without the key |
| Stores.Store.Get | internal/engine/store.go:558-608 | the value the store denotes for the key, or not found; on any store, what its locator leads to |
| Stores.Store.Scan | internal/engine/store.go:625-695 | ascending live pairs between the bounds, at most a positive limit; a key that is missing lies behind a full result |
| Stores.Store.ApplyRaw | internal/engine/store.go:886-940 | refuses what is not a run of records, and otherwise installs exactly those |
| Stores.Store.CopyNext | internal/engine/compact.go:206-248 | reading, lifting and appending the bytes of an item is the engine's copy |
| Stores.Store.Abandon | internal/engine/compact.go:189-199 | exactly the outputs are gone, every other file and the index are as they were |
| Stores.Store.RepointAll | internal/engine/compact.go:264-287 | the chunk loop moves every item and keeps the live map |
| Stores.Store.RetireAll | internal/engine/compact.go:289-300 | the chunk loop forgets every retired tombstone and keeps the live map |
| Stores.Store.Finish | internal/engine/compact.go:302-319 | raises the watermark and unlinks exactly the merged files; the total is then off by their bytes less those of the outputs |
| Recount.WritersKeep | internal/engine/store.go:451-475 | writes, in their three steps, leave the error of the last recount as it is |
| Recount.RecountDrift | internal/engine/compact.go:327-341 | a recount while writers are at work is off by exactly the write it counted twice less the writes it lost, and right if and only if there are neither |
| Recount.ClampIdle | internal/engine/store.go:770-777 | with nothing lost, dead bytes are total minus live |
| Recount.ClampActs | internal/engine/store.go:770-777 | an order of a write and a recount after which the total is below the live bytes and the clamp hides it |
| Recount.EngineCovered | internal/engine/store.go:451-475 | between writes an engine's books are within bounds: every entry leads to bytes of its own |
| Recount.GrowingCovered | internal/engine/store.go:451-475 | and inside a write, when the file has grown and the index has not |
| Stores.Store.StoreTotal | internal/engine/compact.go:340-341 | the total is short by exactly the bytes appended, to the files there were and in new ones, since the files were added up |
| Stores.Store.RecomputeUsage | internal/engine/compact.go:327-341 | with no writer at work the counters are again the true sums |
| Stores.Store.DeadBytes | internal/engine/store.go:770-777 | with no merge in flight and nothing lost by the last recount, dead bytes are the bytes on disk less those the index leads to, plus what the recount counted twice |
| Stores.Store.Compact | internal/engine/compact.go:94-325 | the live map is unchanged, every file that held anything is gone, the watermark is the last number, and what is left on disk is exactly what the index leads to, live: total and live bytes are equal; nothing to merge or a closed store changes nothing |
| Wire.DecodeEncode | internal/proto/proto.go:165-258 | decoding undoes encoding for any list of fields and leaves exactly the bytes behind the body, so only an empty rest is done |
| Wire.PrefixFails | internal/proto/proto.go:182-235 | every strict prefix of a body is an error |
| Wire.EncodeDecode | internal/proto/proto.go:182-235 | whatever is accepted is the encoding of what is returned |
| Wire.Dec.TakeU32 | internal/proto/proto.go:204-212 | reads a field or fails, and an earlier error sticks |
| Wire.Dec.TakeBytes | internal/proto/proto.go:226-235 | reads a length and that many bytes or fails, and an earlier error sticks |
| Wire.EncodeBatch | client/client.go:236-249 | the client's loop builds the batch body |
| Wire.HandleBatch | internal/node/node.go:391-419 | the handler's guarded loop is the batch parser |
| Wire.BatchRoundTrip | internal/node/node.go:391-419 | the count guard refuses no body a client can build, and the same pairs come out |
| Wire.BatchExact | internal/node/node.go:391-419 | nothing but such a body is accepted |
| Framing.Writer.WriteFrame | internal/proto/proto.go:112-122 | appends the frame, or refuses an oversized payload and writes nothing |
| Framing.Reader.ReadFrame | internal/proto/proto.go:136-152 | takes a frame if and only if the stream begins with one, and reports an oversized length |
| Framing.FramesCut | internal/proto/proto.go:112-152 | a stream cut at any byte yields exactly the frames that arrived whole |
| Framing.ServeRange | internal/node/node.go:475-514 | the reply is chunk frames holding the pairs in order, each but the last filled and none above the frame limit, and one end frame |
| Framing.ReadRange | client/client.go:282-328 | the client's loop delivers what the frames hold, up to the first error |
| Framing.DeliverIff | client/client.go:282-328 | on any frames, the client takes a reply for complete if and only if it is whole chunks up to an end frame, and then delivers exactly their pairs |
| Framing.UnpackExact | client/client.go:282-306 | on any chunk, what is delivered is a prefix of it, all of it if and only if it ends well |
| Framing.RangeOverStream | client/client.go:277-329 | server, stream and client together deliver the same pairs in the same order |
| Framing.RangeCut | client/client.go:282-328 | a reply cut anywhere is never taken for complete, and what was delivered is the head of the range |
| Election.Node.StartElection | internal/node/election.go:116-166 | promotes if and only if a strict majority answered and no answer is from a current leader, hears one, is further ahead, or is level under a lower id; the new epoch; and what it adopts otherwise |
| Election.Node.PromoteTo | internal/node/election.go:184-194 | becomes leader at that epoch unless already leading at one as high |
| Election.Node.HandleAnnounce | internal/node/election.go:68-99 | believes only a higher epoch, and remembers having led |
| Election.WinnerEpoch | internal/node/election.go:126-165 | a winner's epoch is one above the highest of every responder's and its own |
| Election.NoTwoWinners | internal/node/election.go:152-154 | two candidates with distinct ids that heard each other cannot both win |
| Election.SharedVoter | internal/node/election.go:157-160 | two winners in one cluster were heard by a node they share |
| Election.AnyOrder | internal/node/election.go:68-99 | announcements with distinct epochs give the same view in any order, with duplicates |
| Election.SameLeader | internal/node/election.go:68-99 | nodes that started at different epochs agree on leader and epoch |

## Left out

- A machine crash inside the unlink loop that loses unsynced bytes as well: `Unlinking.KilledIff` is a kill that loses nothing else. Elsewhere the unlink is one step.
- Restarts.CleanRestart: outside the unlink loop; inside it the property is false, and `Unlinking.KilledIff` has the condition.
- Restarts.CleanRestartRun: likewise.
- A writer that rotates between the seal and the collection of the merge set: the two are one step.
- What the page cache happened to write: what a crash leaves of a file is taken to be stable from then on, and a hint that was built is taken to survive.
- Sequence numbers and file ids that wrap: a write is modelled while its numbers fit 64 bits, ids are unbounded.
- Stores.Store.BatchPut: the live map is stated for batches of at most 4 GiB, because past that locators wrap.
- Stores.Store.Compact: one merge with nobody else at work; interleavings are stated over the engine's steps by `Runs.RunInv` and `Runs.RunSafe`.
- Stores.Store.Get: one call with nobody else at work; attempts that race merges are `Lookups`.
- Stores.Store.Scan: one call with nobody else at work; a scan that races writers and merges is `RangeScans`.
- Stores.Store.DeadBytes: writes are whole steps here; the steps inside a write and a recount are `Recount`.
- Stores.Store.CopyNext: covers a readable source record only; a failed read or checksum leads to `Stores.Store.Abandon`.
- Recovery and the counters: the recovered state is a value; the loop that fills the linked index is not repeated there.
- Runs.RunSafe: holds for runs whose unlinks expose no key, which is exactly where the property is true.
- Recovery.ScanIsReplay: for files in which no batch is left open by a later record; `Recovery.Recover` covers every file.
- LogReplay.RecordsSince: the files do not change under it; files that do, and files that go, are `LogWalk.WalkIff`.
- LogReplay.RecordsSinceIsHistory: for a leader that has not restarted, with no merge in flight; `LogWalk.WalkIff` has the merges.
- LogWalk.WalkIff: for a leader that has not restarted, and files listed while no merge had outputs; with outputs, a copy can stand in for a record in a skipped file.
- A replication queue that overflows: a session cut off.
- A restart of the leader or of the follower in the middle of a history: what a crash takes back from a leader, and the number a follower restarts at.
- Convergence across a change of leader, and one leader per epoch over whole runs: epochs and votes are not persisted.
- Election: one round is atomic; the replies, liveness and clocks behind it are parameters.
- Framing.ServeRange: takes the pairs of a scan as they are; the cap a node puts on the limit is a parameter of that scan.
- Log.IntactDamaged: a damaged length field makes the scanner checksum other bytes, and what it then accepts is left to chance.
- I/O errors other than giving a merge up, directory listing, locks, the manifest's text, closing, timers, dialling, retries and redirects: operating-system and network plumbing.
- The random draw of skip-list levels: any level from 1 to 20 may be drawn.
- Statistics, info pairs, shell, benchmarks: no hard property.
