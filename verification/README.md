# arcgraph: verified models of the durable core

Dafny models of the parts of arcgraph where a crash, an interleaving or a byte
boundary can lose data, with proofs over every input, every run and every reachable
state. `dafny verify dfyconfig.toml` checks the whole project.

| files | what they model |
|---|---|
| `GenerationDisk`, `GenerationSettling` | a data-dir root: directory operations and file bytes are volatile until fsynced, and a power loss keeps an arbitrary subset of them |
| `GenerationUpgrade`, `GenerationSafety`, `GenerationRuns`, `GenerationTheorems`, `GenerationContents`, `GenerationReap`, `GenerationCases` | the v4 to v5 (`gen-v9`) and v5 to v6 (`gen-v10`) upgrade legs, checkpoints, reader pins and the reaper of the old generation, one transition per durable act, cut by kills and power losses |
| `GenerationTool`, `GenerationPins` | the upgrade leg as code in source order; the pin registry; the loop that pins whatever `CURRENT` selects while the machine moves |
| `FreshLoad`, `FreshLoadRuns`, `FreshLoadSafety`, `FreshLoadCompletion`, `FreshLoadContents`, `FreshLoadCases`, `FreshLoadTool` | the fresh-load tool: classification, build, commit and resume paths, as a machine cut by kills and power losses, and as code |
| `WalRecovery`, `IncrementalRecovery` | commits, checkpoints, WAL reclamation and replay: anchored on a full snapshot of the memory, and incremental with a dirty-page table that restarts restore as captured |
| `MigrateOnOpen` | the slotted and typed migrations an open performs, with their VERSION stamps |
| `WriterAdmission`, `WriterRuns`, `WriterJournal` | BM25 writer permits, slot locks and write windows under every interleaving |
| `Bm25Index`, `Bm25Handle`, `Bm25Service` | a tenant's index, its handle, and the eviction sweeps with the lone admission loop |
| `NativeInput`, `JsonDepth`, `CanonicalRecord`, `Framing` | the load input: lines through a chunked reader, byte-range partitions, the nesting cap, the canonical codec, framed files |
| `TelProjection`, `CsvRow` | the adjacency-store size projection against the writer it projects; CSV row splitting |

## What the proofs found

Ten promises of the code or its comments hold only under a condition. Each has a lemma
that gives the exact condition, and where it is not plain from the statement, a lemma
with a concrete failing case.

- The loader resumes a published but unselected generation, and a selected but
  unstamped one, without first syncing the root. If an earlier process was killed
  between a rename and its fsync, a power loss during the resume, or after it, can keep
  `CURRENT` without the generation, or VERSION without `CURRENT`, and no rerun accepts
  either (`StuckIff`). Kills alone never do this, and every rerun then completes
  (`KillsNeverStick`, `KillsAlwaysComplete`). Over all runs, a rerun is safe from every
  power loss exactly when it starts rooted: what it builds on is already durable, or a
  stale temporary file makes it sync the root first (`SafeIffRooted`). A kill leaves an
  unrooted directory in exactly three windows (`UnrootedWindows`), and the commit a rerun
  ends with outlasts every power loss exactly under `EndsLasting` (`LoadCompletes`). Runs
  from the empty directory reach each way it can fail (`RerunsCanStick`).
- A store that reports itself upgraded after a kill between the VERSION rename and its
  fsync can still fall back on a power loss; it cannot exactly when the stamp is durable
  (`ResolvedOutlivesLoss`). A run from the empty root does, in either leg
  (`ResolvedCanFall`).
- An incremental checkpoint deletes WAL segments up to and including its redo LSN, but
  replay redoes from that LSN on. An operation is lost exactly when a commit of the deleted
  segment ends at the redo LSN and a page really lacks it (`ReclaimExact`). Over every run,
  recovery is complete at every point exactly when no reclamation does this
  (`CarefulRunsRecover`; the smallest such run is `ReclaimCanLose`). A restart restores
  the table as captured, with stale entries; right after a checkpoint, deferred applies or
  not, the table alone decides while it is exact (`AtFloorAfterCheckpoint`,
  `AtFloorWhenExact`, `OnlyCrashesMakeStale`).
- Falling back to a from-zero replay when the checkpoint is unusable is called always safe;
  over every run it is so exactly while no reclamation has deleted a segment that held a
  commit (`FromZeroIffNothingReclaimed`, `FromZeroCanLose`).
- The adjacency projection is called "never an under-count". A supernode forces the
  pending packed page out, and those short pages are not paid for: the projection covers
  every stream with a given number of runs of small blocks exactly when there is at most
  one run (`CoversIffOneRun`), by a bound that is met for every number of runs
  (`SharpBound`, `BoundsAreMet`). The two counts that the projection's caller has, blocks
  and entries, give an exact condition when there are too few entries for a supernode
  or enough for one after every other block, and in between only a sufficient one
  (`CountsDecide`, `CountsCover`; the smallest uncovered stream is `OneSupernodeUncovered`).
- Opening a typed store whose MANIFEST is missing stamps VERSION down to 3. The stamps
  protect every crash point exactly when the first leg does not start over typed records
  (`Open`, `SlotLegLockedIff`, `LostManifestDowngrades`).
- An upsert whose document the index engine rejects has already buffered its delete. It
  leaves no trace in a committed window exactly when it is not the last write to a node
  that would otherwise be indexed (`RejectedUpsertsHarmless`, `RejectedUpsertDeletes`).
- The BM25 visibility filter is snapshot visibility except when both the read LSN and the
  expiry are the 64-bit maximum (`FilterIsSnapshot`).
- A canonical record that encodes may not decode: it does exactly when every field is
  within the decoder's caps (`DecodeEncoded`).
- Splitting a printed CSV row returns the fields exactly when each is already trimmed;
  quoting does not protect surrounding white space (`RoundTripIffTrimmed`).

Where code and comments disagree the models follow the code. In particular the header of
`data_dir_migration.rs` says an interrupted upgrade leg resumes at its stamp, but the
resolution of `CURRENT` never returns an unstamped generation, so the leg is rebuilt.

## Model

| member | source | states |
|---|---|---|
| GenerationTheorems.AlwaysSound | crates/arcgraph-cli/src/data_dir_migration.rs:828-862 | in every reachable state and after every power loss there, CURRENT holds a whole name and resolves to the legacy root or to a generation that carries its own VERSION and every byte its durability ledger covered |
| GenerationTheorems.NamedMeansStamped | crates/arcgraph-cli/src/data_dir_migration.rs:828-862 | a stamped gen-v10 is the one CURRENT names, and CURRENT names gen-v10 only beside a stamped gen-v9 or gen-v10 |
| GenerationTheorems.NeverUndone | crates/arcgraph-cli/src/data_dir_migration.rs:986-1120 | once a leg has finished, no later run of legs, reaping, kills and power losses resolves to an older generation |
| GenerationTheorems.EveryEvent | crates/arcgraph-cli/src/data_dir_migration.rs:866-1120 | every event of the machine keeps the invariant and never lowers the newest generation that no power loss can take away |
| GenerationTheorems.ResolvedOutlivesLoss | crates/arcgraph-cli/src/data_dir_migration.rs:1188-1230 | the resolved generation survives every power loss if and only if its VERSION rename is durable |
| GenerationCases.ResolvedCanFall | crates/arcgraph-cli/src/data_dir_migration.rs:1491-1516 | for either leg, a run from the empty root killed between the VERSION rename and its fsync resolves to the new generation, and a power loss there resolves to an older one |
| GenerationCases.WrittenCanBeLost | crates/arcgraph-cli/src/data_dir_migration.rs:934-960 | before the durability ledger any file of the written tree may come back from a power loss with any bytes |
| GenerationTheorems.AlwaysCompletable | crates/arcgraph-cli/src/data_dir_migration.rs:760-799 | kill the tool in any reachable state and run it again uninterrupted: whatever the environment decides, no act is blocked, at most 42 events are needed besides those by which a build goes on, and it ends resolved to gen-v10; no power loss can take that away if and only if the tool did anything or found the VERSION rename durable |
| GenerationTheorems.ToolEvent | crates/arcgraph-cli/src/data_dir_migration.rs:866-981 | each event of the tool leaves less to do, and a leg ends only with its own generation resolved and committed for good |
| GenerationTheorems.ReadersKeepTheirFiles | crates/arcgraph-cli/src/data_dir_migration.rs:563-582 | whenever a gen-v9 reader is pinned, its directory is there, stamped and complete |
| GenerationContents.ResolvedHoldsTree | crates/arcgraph-cli/src/data_dir_migration.rs:926-981 | at the end of every run, power losses included, the generation CURRENT resolves to has exactly the files of the tree its leg last wrote, with those bytes, all durable |
| GenerationContents.BuiltAct | crates/arcgraph-cli/src/data_dir_migration.rs:926-981 | each act of a leg carries the tree on: written, then fsynced, then published, then left alone |
| GenerationTheorems.RetiredBehindSuccessor | crates/arcgraph-cli/src/data_dir_migration.rs:1265-1337 | a stamped gen-v9 goes away, other than by a power loss, only when no reader is pinned and gen-v10 is durably committed with a checkpoint later than the migration's own |
| GenerationReap.ReapCompletes | crates/arcgraph-cli/src/data_dir_migration.rs:1265-1330 | with no reader left every uninterrupted reap is never blocked and takes at most eight acts; it ends with neither gen-v9 nor its cleanup name, for good, if gen-v10 has checkpointed after the swap, and otherwise with every entry as it was |
| GenerationReap.NoEarlyReap | crates/arcgraph-cli/src/data_dir_migration.rs:1265-1295 | over every run in which no server checkpoints gen-v10, no reap claims or removes gen-v9 |
| GenerationTheorems.LossEvent | crates/arcgraph-cli/src/data_dir_migration.rs:828-862 | a power loss that keeps any subset of pending directory operations and any bytes of unsynced files keeps the invariant |
| GenerationRuns.LegKeeps | crates/arcgraph-cli/src/data_dir_migration.rs:866-981 | no act of a leg finds a leftover in its way, and each leads to the facts the next act starts from |
| GenerationRuns.LegEnds | crates/arcgraph-cli/src/data_dir_migration.rs:1491-1516 | syncing the VERSION rename commits the generation for good and leaves the older one committed |
| GenerationRuns.AlwaysResolves | crates/arcgraph-cli/src/data_dir_migration.rs:828-862 | CURRENT is never refused, and whatever it selects is stamped |
| GenerationRuns.RetireAct | crates/arcgraph-cli/src/data_dir_migration.rs:1283-1289 | renaming gen-v9 to its cleanup name keeps the invariant with gen-v10 committed |
| GenerationRuns.SweepCleanupAct | crates/arcgraph-cli/src/data_dir_migration.rs:1339-1396 | a partial removal under the cleanup name touches nothing that gen-v9 could still be |
| GenerationDisk.Ledger | crates/arcgraph-cli/src/data_dir_migration.rs:1403-1410 | the recursive fsync leaves every byte in place, durable and covered |
| GenerationDisk.CurrentTextNames | crates/arcgraph-cli/src/data_dir_migration.rs:834-850 | the texts written to CURRENT are gen-v9, gen-v10 and gen-load-v6 with a newline, and each names its own generation |
| GenerationDisk.NamedIff | crates/arcgraph-cli/src/data_dir_migration.rs:828-850 | a text names a generation if and only if it is that name followed by line ends only |
| GenerationDisk.KeptIsPossible | crates/arcgraph-cli/src/data_dir_migration.rs:1248-1258 | whichever pending directory operations a power loss keeps, an entry is one of its possible inodes and a certain entry exists |
| GenerationSettling.LossSettles | crates/arcgraph-cli/src/data_dir_migration.rs:1248-1258 | after any power loss every entry was possible before, certain entries remain, fsynced bytes remain, and two names of which one only arises by renaming the other never both exist |
| GenerationTool.MigrationTool.Perform | crates/arcgraph-cli/src/data_dir_migration.rs:866-981 | each durable act of the code succeeds and is one act of the machine |
| GenerationTool.MigrationTool.RemoveTreeIfExists | crates/arcgraph-cli/src/data_dir_migration.rs:2006-2012 | a stale tree is removed and its absence made durable; without one nothing happens |
| GenerationTool.MigrationTool.BuildGeneration | crates/arcgraph-cli/src/data_dir_migration.rs:926-970 | from a clean root, scratch creation, writing and the ledger lead to a publishable directory with exactly the files and bytes of the tree given, all durable |
| GenerationTool.MigrationTool.WriteCurrentAtomic | crates/arcgraph-cli/src/data_dir_migration.rs:1248-1258 | with or without a stale temporary file, CURRENT durably names the generation before the stamp |
| GenerationTool.MigrationTool.Commit | crates/arcgraph-cli/src/data_dir_migration.rs:1491-1516 | publishing, switching CURRENT and stamping VERSION last commit the generation for good, with the tree that was built |
| GenerationTool.MigrationTool.UpgradeLeg | crates/arcgraph-cli/src/data_dir_migration.rs:866-981 | a whole leg in source order ends resolved to its generation, which has exactly the files and bytes of the tree given, now and after every power loss |
| GenerationPins.GenerationPinRegistry.Pin | crates/arcgraph-cli/src/data_dir_migration.rs:420-437 | counts stay equal to the live readers; a retired generation or a missing directory is refused; for gen-v9 this is the machine's pin, refused exactly when that is |
| GenerationPins.GenerationPinRegistry.Unpin | crates/arcgraph-cli/src/data_dir_migration.rs:563-582 | counts stay equal to the live readers, waiters are notified exactly when the last one leaves, and for gen-v9 this is the machine's unpin |
| GenerationPins.GenerationPinRegistry.TryRetire | crates/arcgraph-cli/src/data_dir_migration.rs:439-454 | a generation is retired exactly when it has no live reader, otherwise the reaper is seen waiting; for gen-v9 this is the machine's drain act, done exactly when that succeeds |
| GenerationPins.OnlyPinsMove | crates/arcgraph-cli/src/data_dir_migration.rs:420-454 | no other event of the machine touches the readers or the retirement claim that the registry mirrors |
| GenerationPins.PinCurrentGeneration | crates/arcgraph-cli/src/data_dir_migration.rs:472-500 | whatever the other threads do, the loop ends, never fails, and returns a reader of the generation CURRENT resolves to while the pin is already held |
| GenerationPins.RankRises | crates/arcgraph-cli/src/data_dir_migration.rs:828-862 | while the process lives, what CURRENT resolves to only moves forward |
| GenerationPins.SelectedIsPinnable | crates/arcgraph-cli/src/data_dir_migration.rs:420-437 | gen-v9 can be pinned whenever CURRENT resolves to it |
| GenerationPins.ReachableGood | crates/arcgraph-cli/src/data_dir_migration.rs:1265-1295 | in every reachable state a claimed gen-v9 has a durable gen-v10 behind it |
| FreshLoadRuns.ClassifyIs | crates/arcgraph-cli/src/m5_load.rs:674-748 | over all runs the class of the directory follows from which entries exist and whether the generation is stamped, and nothing foreign is ever found |
| FreshLoadRuns.PopulatedIff | crates/arcgraph-cli/src/m5_load.rs:674-725 | whatever is in the directory, it is refused as populated if and only if some entry is none of the lock file, the temporary CURRENT, the two loader directories, and a CURRENT whose text is gen-load-v6 followed by line ends |
| FreshLoadRuns.PopulatedIsRefused | crates/arcgraph-cli/src/m5_load.rs:717-730 | a run on a populated directory does not start and changes nothing |
| FreshLoadRuns.ResumesOnWhole | crates/arcgraph-cli/src/m5_load.rs:901-920 | whatever is in the directory, the tool resumes only with a generation that has every byte its ledger covered and no stamp but version 6, and that only beside a CURRENT |
| FreshLoadRuns.StuckIff | crates/arcgraph-cli/src/m5_load.rs:824-938 | over all runs a rerun fails if and only if CURRENT lacks its generation or a stamped generation lacks CURRENT |
| FreshLoadRuns.LStep | crates/arcgraph-cli/src/m5_load.rs:941-1062 | every act of the build and commit path succeeds, whatever the environment decides, keeps the loader's invariant and leaves the directory usable |
| FreshLoadRuns.LStart | crates/arcgraph-cli/src/m5_load.rs:814-862 | taking the lock and dispatching on the class keeps the invariant, from any directory a rerun accepts |
| FreshLoadRuns.KillsNeverStick | crates/arcgraph-cli/src/m5_load.rs:793-862 | however reruns are killed, without a power loss no directory is left that a rerun cannot use |
| FreshLoadRuns.LossSafeIffFirm | crates/arcgraph-cli/src/data_dir_migration.rs:1502-1506 | in every reachable state every power loss leaves a directory a rerun can use, if and only if CURRENT implies a durable generation and VERSION a durable CURRENT |
| FreshLoadSafety.NeverStuck | crates/arcgraph-cli/src/m5_load.rs:674-748 | if every rerun of a run starts rooted, neither the directory left nor any power loss there makes a rerun fail |
| FreshLoadSafety.SafeIffRooted | crates/arcgraph-cli/src/m5_load.rs:901-938 | after any run, a rerun that can start is safe from every power loss during and after it, if and only if it starts rooted |
| FreshLoadSafety.UnrootedWindows | crates/arcgraph-cli/src/data_dir_migration.rs:1502-1506 | a rerun that starts rooted and is killed leaves an unrooted directory exactly after the publishing rename without a temporary file, after dropping one over it, and after the CURRENT rename, until the fsync that follows |
| FreshLoadSafety.UnrootedSwap | crates/arcgraph-cli/src/m5_load.rs:901-938 | from an undurable publication, a resume and a power loss reach CURRENT without its generation |
| FreshLoadSafety.UnrootedStamp | crates/arcgraph-cli/src/data_dir_migration.rs:1188-1230 | from an undurable CURRENT, a resume and a power loss reach VERSION without CURRENT |
| FreshLoadSafety.UnfirmStart | crates/arcgraph-cli/src/data_dir_migration.rs:1188-1230 | a run over a loaded or selected directory that was never synced can be cut by a power loss before its first act so that no rerun follows |
| FreshLoadCases.RerunsCanStick | crates/arcgraph-cli/src/m5_load.rs:901-938 | three runs from the empty directory: killed after the publishing rename, killed after the CURRENT rename, and the rerun after that completed; each ends unrooted, and a power loss in or after the next rerun leaves a directory no rerun accepts |
| FreshLoadCompletion.LoadCompletes | crates/arcgraph-cli/src/m5_load.rs:793-862 | kill the tool and run it again uninterrupted on any directory a rerun accepts: whatever the environment decides it is never blocked, needs at most 14 acts besides repeated ones and ends already-loaded; the commit outlasts every power loss if and only if the rerun started on neither a selected nor a loaded directory with something undurable |
| FreshLoadCompletion.KillsAlwaysComplete | crates/arcgraph-cli/src/m5_load.rs:793-862 | with kills only, from the empty directory on, every rerun can start and completes |
| FreshLoadCompletion.LastingIffSettled | crates/arcgraph-cli/src/m5_load.rs:674-748 | a loaded directory stays loaded after every power loss if and only if its generation, CURRENT and VERSION are all durable |
| FreshLoadContents.LoadedHoldsTree | crates/arcgraph-cli/src/m5_load.rs:941-1062 | at the end of every run a published generation has exactly the files and bytes of the tree last written, all durable |
| FreshLoadTool.Loader.Load | crates/arcgraph-cli/src/m5_load.rs:793-862 | one run of the tool: on a populated directory it fails and changes nothing; from any point earlier runs were cut at it fails exactly on a directory no rerun can use, leaving at most its lock file, and otherwise ends already-loaded, says whether it already was, lasts exactly as foretold, and where it built has exactly the files and bytes it was given, after every power loss too |
| FreshLoadTool.Loader.BuildAndPublish | crates/arcgraph-cli/src/m5_load.rs:941-1062 | with or without a stale building directory the generation is published with exactly the files and bytes of the tree given, and CURRENT comes next |
| FreshLoadTool.Loader.Select | crates/arcgraph-cli/src/m5_load.rs:921-925 | with or without a stale temporary file CURRENT durably names the published generation before the stamp |
| FreshLoadTool.LDispatch | crates/arcgraph-cli/src/m5_load.rs:824-861 | every class of directory has its path, and an own building directory never lies beside a published generation |
| WalRecovery.AnchoredRecoveryIsComplete | crates/arcgraph-cli/src/bootstrap.rs:1183-1283 | for a crash at any point of any run of commits, failures, checkpoints and reclamations, restoring the checkpoint and replaying above its frontier yields exactly the commits that ever became durable |
| WalRecovery.StepRecovers | crates/arcgraph-storage/src/transaction.rs:1769-2000 | a durable append adds its commit to what recovery yields; installing, failing, completing, checkpointing, deleting a segment and crashing change nothing |
| WalRecovery.EstablishKeeps | crates/arcgraph-storage/src/checkpoint/producer.rs:276-340 | the memory captured under the commit freeze, up to the visible LSN, is what recovery would have yielded |
| WalRecovery.VisibleIsRecovered | crates/arcgraph-storage/src/transaction.rs:700-729 | at every point of every run, what readers see is what recovery would give up to the same LSN, and with nothing in flight the whole memory is |
| WalRecovery.ReclaimSegmentsBelow | crates/arcgraph-storage/src/wal/reclaim.rs:151-223 | a prefix of segments is deleted, none without a checkpoint, never the last one nor one with a commit above the frontier, stopping only at such a one, and recovery is unchanged |
| WalRecovery.Replay | crates/arcgraph-cli/src/bootstrap.rs:2329-2352 | replay in disk order, buffered, applies exactly the recovered commits in LSN order and ends at a high-water mark above all of them |
| WalRecovery.Drain | crates/arcgraph-cli/src/bootstrap.rs:2329-2352 | the buffered commits are applied in LSN order after what is there, up to a high-water mark at or above them all |
| WalRecovery.FromZeroIffNothingReclaimed | crates/arcgraph-storage/src/checkpoint/recovery.rs:89-123 | after any run, a from-zero replay yields the same if and only if no reclamation of the run deleted a segment that held a commit |
| WalRecovery.FromZeroCanLose | crates/arcgraph-storage/src/checkpoint/recovery.rs:89-123 | two commits from the empty store, a checkpoint and the reclamation behind it: a from-zero replay misses a durable commit |
| IncrementalRecovery.CarefulRunsRecover | crates/arcgraph-cli/src/bootstrap.rs:1198-1260 | over every run from the empty store, with crashes anywhere and tables restored as captured, every page can be given every durable operation at every point if and only if no reclamation deletes a segment needed at its redo LSN |
| IncrementalRecovery.ReclaimExact | crates/arcgraph-cli/src/bootstrap.rs:1259-1259 | deleting the oldest segment keeps recovery complete if and only if none of its commits ends at the redo LSN with its home page lacking that operation |
| IncrementalRecovery.AtFloorAfterCheckpoint | crates/arcgraph-storage/src/checkpoint/producer.rs:136-162 | right after its checkpoint, with or without deferred applies, that happens if and only if a commit of the segment ends at the redo LSN and some page entered in the table there really lacks it |
| IncrementalRecovery.AtFloorWhenExact | crates/arcgraph-storage/src/checkpoint/producer.rs:136-162 | with an exact table, if and only if some page is dirty and a commit of the segment ends at the redo LSN |
| IncrementalRecovery.RedoIs | crates/arcgraph-storage/src/checkpoint/producer.rs:136-162 | the redo LSN is the least entry of the table, or with an empty table the last commit, or before the oldest deferred commit; it comes before every deferred commit |
| IncrementalRecovery.OnlyCrashesMakeStale | crates/arcgraph-storage/src/redo.rs:617-705 | every event but a restart keeps an exact table exact |
| IncrementalRecovery.RestoredTracks | crates/arcgraph-storage/src/redo.rs:682-705 | the captured table, with what replay dirties, covers every page that lacks an operation, at or below the first it lacks |
| IncrementalRecovery.ReplayTableIs | crates/arcgraph-cli/src/bootstrap.rs:2329-2352 | the restored table is the captured entries unchanged and, for every other page, its first replayed operation |
| IncrementalRecovery.RestoredFromLog | crates/arcgraph-cli/src/bootstrap.rs:2329-2352 | whatever the pages lack, replay marks none dirty from a segment that was deleted |
| IncrementalRecovery.StrictlyBelowIsSafe | crates/arcgraph-storage/src/wal/reclaim.rs:151-223 | deleting only strictly below the redo LSN, or with an empty table and nothing deferred, is always safe |
| IncrementalRecovery.ReclaimCanLose | crates/arcgraph-cli/src/bootstrap.rs:1259-1259 | a run from the empty store, complete at every point, whose checkpoint triggers a reclamation that loses an operation |
| IncrementalRecovery.CheckpointKeeps | crates/arcgraph-storage/src/checkpoint/producer.rs:136-162 | with deferred applies and a dirty-page table, the frontier and redo LSN it picks redo every operation a home page lacks |
| IncrementalRecovery.ApplyTracks | crates/arcgraph-storage/src/redo.rs:617-643 | applying a commit keeps the table conservative: every page that lacks an applied operation is in it, at or below the first it lacks |
| IncrementalRecovery.FlushKeeps | crates/arcgraph-storage/src/redo.rs:743-752 | flushing a page and dropping its entry, stale or not, keeps the table conservative and recovery complete |
| MigrateOnOpen.DataDir.Open | crates/arcgraph-cli/src/bootstrap.rs:2747-2923 | where the open ends and every point a crash may leave it at; from a sane store every such point is sane, opens whatever the next open is told and still has the same records to give, and the end has every migratable record converted; in general the stamps protect every point if and only if the first leg does not start over typed records |
| MigrateOnOpen.CutsThenOpen | crates/arcgraph-cli/src/bootstrap.rs:2735-2752 | after any number of opens cut at any points the store still opens, and the next open that is not cut ends with every record migrated as the first would have |
| MigrateOnOpen.CrashPointReopens | crates/arcgraph-cli/src/bootstrap.rs:2755-2785 | every crash point of an open of a sane store is sane, opens again and keeps its target records |
| MigrateOnOpen.DataDir.CheckVersion | crates/arcgraph-storage/src/data_dir_version.rs:560-660 | which of the versions 1, 3, 4, 5 and 6 and of the unstamped and torn stores pass, and the version the guard settles on, with adoption from the manifest and repair of a torn stamp |
| MigrateOnOpen.DataDir.SlotSweep | crates/arcgraph-storage/src/migrate.rs:521-602 | at every commit each record is as it was or slotted, and at the end all but the large ones are |
| MigrateOnOpen.DataDir.RetypeSweep | crates/arcgraph-storage/src/migrate.rs:325-400 | at every commit each record is as it was or typed, and at the end no JSON bag is left |
| MigrateOnOpen.SlotLegLockedIff | crates/arcgraph-cli/src/bootstrap.rs:2755-2785 | the first leg keeps every crash point protected if and only if there is no typed record |
| MigrateOnOpen.LostManifestDowngrades | crates/arcgraph-cli/src/bootstrap.rs:2749-2753 | a typed store without MANIFEST opens and passes a point with typed records under VERSION 3 |
| WriterRuns.PermitsAndContents | crates/arcgraph-bm25/src/pool.rs:197-316 | over every interleaving the permit count is the occupied slots plus the permits in transit, at most the capacity, and every index is the last-writer-wins map of its successfully committed windows |
| WriterJournal.IndexFollowsJournal | crates/arcgraph-bm25/src/handle.rs:404-464 | over every interleaving a tenant's index has exactly one document for each node whose last write, of the windows its callers saw committed, is an upsert, with its LSN and body; evicted, rolled-back and failed windows contribute nothing |
| WriterJournal.StepFollows | crates/arcgraph-bm25/src/store.rs:109-200 | every step moves each tenant's open and committed windows exactly as the caller's view of it says |
| WriterRuns.EveryStep | crates/arcgraph-bm25/src/handle.rs:348-377 | every critical section of every thread keeps locks, empty-slot, time, permit and content invariants |
| WriterRuns.WaitsRise | crates/arcgraph-bm25/src/service.rs:467-506 | along every lock-wait edge the time the holder took its lock strictly increases |
| WriterRuns.NoWaitCycle | crates/arcgraph-bm25/src/handle.rs:218-246 | no chain of lock waits returns to its start |
| WriterRuns.NoDeadlock | crates/arcgraph-bm25/src/pool.rs:245-301 | while any request is under way, some thread can take a step of one |
| Bm25Index.WindowHolds | crates/arcgraph-bm25/src/handle.rs:690-741 | applying a committed window's buffered deletes and adds is last-writer-wins on its writes, with at most one document per node |
| Bm25Index.LastWriterWins | crates/arcgraph-bm25/src/handle.rs:690-741 | for every node the map holds the LSN and body of the last of all committed writes to it if that is an upsert, and otherwise nothing |
| Bm25Index.HoldsLastWrites | crates/arcgraph-bm25/src/handle.rs:690-725 | the index has one document for each node whose last committed write is an upsert, with its LSN and body, and no other |
| Bm25Index.RejectedUpsertsHarmless | crates/arcgraph-bm25/src/handle.rs:708-719 | failed upserts leave no trace in a committed window if and only if none is the last write to a node that would otherwise be indexed |
| Bm25Index.RejectedUpsertDeletes | crates/arcgraph-bm25/src/handle.rs:708-719 | a rejected upsert of an indexed node deletes it on commit |
| Bm25Index.SearchSees | crates/arcgraph-bm25/src/handle.rs:534-570 | a search can see a node if and only if the last committed write to it is an upsert at or below the read LSN |
| Bm25Index.FilterIsSnapshot | crates/arcgraph-bm25/src/mvcc.rs:35-86 | the filter is commit at or below read below expiry, except when read and expiry are both the maximum |
| Bm25Handle.IndexHandle.EnsureWriter | crates/arcgraph-bm25/src/handle.rs:348-377 | an open writer and its window are kept; otherwise a fresh one is opened or the engine's failure is returned |
| Bm25Handle.IndexHandle.UpsertDocument | crates/arcgraph-bm25/src/handle.rs:690-725 | the window grows by the upsert, or by a rejected one when the engine refuses the document |
| Bm25Handle.IndexHandle.DeleteDocument | crates/arcgraph-bm25/src/handle.rs:731-741 | the window grows by the delete |
| Bm25Handle.IndexHandle.Commit | crates/arcgraph-bm25/src/handle.rs:404-435 | the slot is empty afterwards whatever happens, only a successful engine commit closes the window, and the reader advances only on success |
| Bm25Handle.IndexHandle.DropWriter | crates/arcgraph-bm25/src/handle.rs:218-246 | an evicted or rolled-back window contributes nothing |
| Bm25Handle.IndexHandle.SearchNodes | crates/arcgraph-bm25/src/handle.rs:534-570 | the nodes found are those whose last write, of all windows committed and reloaded, is an upsert at or below the read LSN |
| Bm25Service.Service.EvictIdle | crates/arcgraph-bm25/src/service.rs:393-407 | exactly the idle, unlocked, occupied slots are emptied and their permits returned |
| Bm25Service.Service.EvictOneLru | crates/arcgraph-bm25/src/service.rs:467-506 | one eviction happens exactly when some slot is eligible, of the first least recently written one, and nothing else changes |
| Bm25Service.Service.Acquire | crates/arcgraph-bm25/src/pool.rs:245-301 | a lone acquirer gets a permit exactly when one is free, the idle sweep frees one, or a wait elapses and some writer is not locked; at most one eviction is forced, of the oldest, and with every lock held nothing changes |
| Bm25Service.IdleTracker.NoteCommit | crates/arcgraph-bm25/src/eviction.rs:136-139 | the counter is the commits since the last write, modulo 2 to the 64 |
| Bm25Service.IdleTracker.NoteWrite | crates/arcgraph-bm25/src/eviction.rs:127-130 | a write resets the counter and the clock |
| Bm25Service.IdleTracker.IsIdle | crates/arcgraph-bm25/src/eviction.rs:144-150 | idle after 100 commits or 300 seconds since the last write |
| NativeInput.ReadBoundedLine | crates/arcgraph-cli/src/m5_load.rs:499-524 | one whole line whatever chunks it arrives in; an error exactly when the line is over the cap |
| NativeInput.NativeRecordSource.NextRecord | crates/arcgraph-cli/src/m5_load.rs:472-497 | the first inked line that starts inside the range, stripped; an error exactly at a line over the cap; the end otherwise |
| NativeInput.StripIs | crates/arcgraph-cli/src/m5_load.rs:483-484 | any of the four line ends is taken off a record and nothing else |
| NativeInput.ReadIs | crates/arcgraph-cli/src/m5_load.rs:472-497 | reading from a line start delivers exactly the lines that start before the stop and have a byte other than white space, without their ends, in order, up to the first line over the cap, and fails if and only if there is one |
| NativeInput.EveryInputHasLines | crates/arcgraph-cli/src/m5_load.rs:499-524 | every input is such a sequence of lines |
| NativeInput.OpenRange | crates/arcgraph-cli/src/m5_load.rs:421-452 | reading begins at the first line start at or after the range start; the resync fails exactly on an over-long fragment |
| NativeInput.ReadRange | crates/arcgraph-cli/src/m5_load.rs:472-497 | draining a partition yields exactly the inked lines that start in it |
| NativeInput.ReadSplits | crates/arcgraph-cli/src/m5_load.rs:421-452 | reading up to any cut and then from it is reading straight through |
| NativeInput.PartitionsMakeWhole | crates/arcgraph-cli/src/m5_load.rs:401-411 | for any input and any increasing cut points the partitions in order read exactly what one reader does, each record once |
| NativeInput.ReadPartitioned | crates/arcgraph-cli/src/m5_parallel.rs:1322-1341 | for any lines, number of workers, chunking and cap, what the workers actually read over their ranges, failed resyncs included, is exactly the inked lines in order up to the first over the cap, and fails if and only if there is one |
| NativeInput.ResyncFailsOnLongLine | crates/arcgraph-cli/src/m5_load.rs:429-440 | a worker's resync fails only on a line over the cap that the partitions before it have already failed on |
| NativeInput.PartitionInput | crates/arcgraph-cli/src/m5_parallel.rs:1322-1341 | contiguous equal ranges that cover the input, at most one per worker |
| JsonDepth.EnsureJsonDepth | crates/arcgraph-cli/src/m5_load.rs:526-552 | the loop computes the byte-by-byte scan |
| JsonDepth.AcceptsIffShallow | crates/arcgraph-cli/src/m5_load.rs:526-552 | every well-formed text is accepted if and only if its containers nest no deeper than the cap |
| JsonDepth.StringSteps | crates/arcgraph-cli/src/m5_load.rs:530-540 | strings with any escapes leave the depth unchanged |
| CanonicalRecord.DecodeEncoded | crates/arcgraph-cli/src/m5_load.rs:1515-1603 | an encoded record decodes to itself if and only if it is within the caps |
| CanonicalRecord.EncodeDecoded | crates/arcgraph-cli/src/m5_load.rs:1550-1603 | every accepted payload is the encoding of a record within the caps, the one it decodes to |
| CanonicalRecord.LayoutIs | crates/arcgraph-cli/src/m5_load.rs:1515-1548 | at which offset each field of an encoded record stands, which kind byte it has, and that every number has its lowest byte first |
| CanonicalRecord.FitsFrame | crates/arcgraph-cli/src/m5_load.rs:98-106 | a record within the caps fits one frame |
| CanonicalRecord.EncodeCanonicalRecord | crates/arcgraph-cli/src/m5_load.rs:1515-1548 | the encoder writes the canonical form, or refuses a field a 32-bit length cannot hold |
| CanonicalRecord.DecodeCanonicalRecord | crates/arcgraph-cli/src/m5_load.rs:1550-1603 | the cursor decoder accepts and rejects as the canonical form demands, trailing bytes included |
| CanonicalRecord.TakeBytesAt | crates/arcgraph-cli/src/m5_load.rs:1775-1789 | a length-prefixed field is taken exactly when its length is within the cap and the bytes are there |
| CanonicalRecord.LeRoundTrip | crates/arcgraph-cli/src/m5_load.rs:1757-1773 | little-endian numbers read back |
| Framing.WriteFramed | crates/arcgraph-cli/src/m5_load.rs:1798-1803 | a frame is appended, or a payload a 32-bit length cannot hold is refused |
| Framing.NextFrame | crates/arcgraph-cli/src/m5_load.rs:1831-1857 | the next frame, the end or a broken file, however short the reads are |
| Framing.ReadFrames | crates/arcgraph-cli/src/m5_load.rs:1819-1844 | all frames of a file under any short-read pattern, or failure if it is broken anywhere |
| Framing.FramesReadBack | crates/arcgraph-cli/src/m5_load.rs:1798-1844 | written frames within the cap read back unchanged |
| Framing.FramesWrittenFrom | crates/arcgraph-cli/src/m5_load.rs:1819-1844 | a file that reads was written from what it reads as |
| Framing.FrameIs | crates/arcgraph-cli/src/m5_load.rs:1798-1803 | a frame is a four-byte length, lowest byte first, and the payload |
| Framing.RecordsReadBack | crates/arcgraph-cli/src/m5_load.rs:1515-1844 | any records within the caps survive encoding, framing, reading and decoding |
| TelProjection.PackTel | crates/arcgraph-storage/src/m4_migration.rs:834-935 | the running byte counts place blocks as stream-order next-fit with dedicated pages for supernodes |
| TelProjection.LargestFits | crates/arcgraph-storage/src/m4_migration.rs:700-716 | the largest block is the largest that fits a page, and the supernode threshold is where two blocks no longer share one |
| TelProjection.PackingKeepsStream | crates/arcgraph-storage/src/m4_migration.rs:1251-1300 | no block is lost, repeated or reordered and no packed page overflows |
| TelProjection.PageBound | crates/arcgraph-cli/src/m5_load.rs:1301-1329 | pages used exceed pages charged by less than the number of runs of small blocks |
| TelProjection.CoversIffOneRun | crates/arcgraph-cli/src/m5_load.rs:1301-1329 | the charge covers every stream with that many runs if and only if there is at most one |
| TelProjection.SharpBound | crates/arcgraph-cli/src/m5_load.rs:1301-1329 | for writable blocks the bytes charged pay for half of every page but the short ones, and for a block and a supernode's excess for each of these |
| TelProjection.BoundsAreMet | crates/arcgraph-cli/src/m5_load.rs:1301-1329 | for every number of runs some stream meets that bound exactly, and up to 46 runs one exceeds the charge by all runs but one |
| TelProjection.ProjectedIsClamped | crates/arcgraph-cli/src/m5_load.rs:1331-1349 | the saturating computation is the exact value clamped to the 64-bit maximum |
| TelProjection.ProjectionCovers | crates/arcgraph-cli/src/m5_load.rs:1331-1349 | with at most one run the projected bytes cover the written bytes |
| TelProjection.FewEntriesCovered | crates/arcgraph-cli/src/m5_load.rs:1331-1349 | with too few entries for a supernode among that many blocks, which is sufficient but not necessary, the projected bytes cover the written bytes |
| TelProjection.OneSupernodeUncovered | crates/arcgraph-cli/src/m5_load.rs:1331-1349 | with one entry more they may not: three blocks whose projection is short of the pages written |
| TelProjection.CountsDecide | crates/arcgraph-cli/src/m5_load.rs:1331-1349 | with too few entries for a supernode, or enough for one after every other block, the charge covers every stream with those counts if and only if there are at most two blocks, no room for a supernode, or a page for each block is paid for |
| TelProjection.CountsCover | crates/arcgraph-cli/src/m5_load.rs:1331-1349 | each of those three conditions on the counts is enough for any stream |
| CsvRow.SplitCsvRow | crates/arcgraph-cli/src/migrate.rs:53-79 | the loop with its peek computes the row grammar's fields |
| CsvRow.SplitPrinted | crates/arcgraph-cli/src/migrate.rs:40-79 | any non-empty row, quoted in any allowed way, splits into its fields, trimmed |
| CsvRow.RoundTripIffTrimmed | crates/arcgraph-cli/src/migrate.rs:40-79 | the round trip is exact if and only if every field is trimmed |
| CsvRow.TrimIs | crates/arcgraph-cli/src/migrate.rs:40-79 | trimming takes away exactly the surrounding white space, and changes nothing if and only if there is none |
| CsvRow.SpacesAre | crates/arcgraph-cli/src/migrate.rs:72-77 | the white space that trimming takes away is the 25 characters of the Unicode White_Space property |

## Left out

- Acquire: for one thread, watched for a number of waits; with other threads the admission loop is the `WriterAdmission` machine, where waiting can last as long as they keep all permits busy.
- PinCurrentGeneration: that a pinned directory exists is taken as that it is stamped, which is what CURRENT selected it for.
- Replay: an unbounded buffer; the spill files of a replay over its memory limits are not modelled.
- Ledger: file contents of a generation are the bytes it was built with; what a live server later writes into its generation is seen only as a checkpoint counter.
- Open: a sweep commits record by record, so every crash point of a batched sweep is covered but batch sizes are not; what opening a generation does beyond requiring its manifest is not modelled.
- VisibleIsRecovered: commits of the periodic durability tier, which become visible before they are durable, are not modelled.
- CarefulRunsRecover: generation tokens of the table are not modelled, so a flush and a concurrent re-dirty of the same page are two events; commits may lie in any segment and LSNs may be skipped, but a commit never becomes durable after one with a higher LSN.
- AnchoredRecoveryIsComplete: a failed append leaves nothing on disk; a record that a failed fsync left behind, and that a later replay would find, is not modelled.
- CountsDecide: with room for a supernode but not for one after every other block, the exact condition on the counts depends on how the small blocks pack and is not given; `CountsCover` is sufficient there.
- NoDeadlock: a strict-idle sweep, by a waiting thread, after a commit or on demand, may empty any unlocked slot, whatever its idle clock says; the pool mutex and the engine's own locks are held within one step.
- AcceptsIffShallow: white space, separators, numbers and literals may be any bytes the scan does not react to, which includes every well-formed text.
- PartitionsMakeWhole: parsing of a line into a record is a function of the line and is not modelled.
- Disk-space checks, file copying and checkpoint translation inside an upgrade leg, the index and vector passes, and the validation of a generation beyond "complete and, where required, unstamped".
- `CURRENT` naming a path with several components or bytes that are not UTF-8: refused by the source, and never written by it.
- The loader's tenant census, resource limits, parallel sort and merge stages, and stage-level restart manifests.
- BM25 scoring, tokenisation, the query builder, and TenantNotFound errors of the store facade.
- WAL encryption, torn-tail truncation, MVCC garbage collection and the doublewrite area.
- `chunk_batches`, `split_properties` and the export-statement classifier of `migrate.rs`: easy or without a clean specification.
- Instants, inode numbers, chunk sizes and thread schedules are parameters of the models.
