# Discogs batch import: a verified model

This project models the import engine of the Discogs batch importer (Go, `src/batch` and the
packages it relies on) in Dafny and proves the guarantees the engine is built for. At its centre
is crash and resume convergence: whatever workers, coordinators and processes do, an entity that
completes has the relation table of one uninterrupted pass exactly when, at the admission of the
run that completes it,

1. the chunks inherited from earlier attempts are still in place, and nothing else was changed by
   another run, and
2. no chunk that remains refers to an artist or a label whose own step the run skips as already
   complete.

Neither condition is enforced by the code; each has a reachable counterexample.

`dafny verify dfyconfig.toml` checks everything.

## How the model is organised

| part of the importer | files |
|---|---|
| durable import protocol | `coverage`, `database`, `history`, `invariant`, `admission`, `effects`, `protocol`, `safety` |
| what each transaction decides and leaves, row by row, and the laws that follow over histories | `resumption`, `decisions`, `admissions`, `completions`, `finishes`, `durability`, `chunk_rows`, `last_writer` |
| convergence of resumed imports, and two histories that do not converge | `convergence`, `references`, `scenarios`, `divergence`, `skipped` |
| the same transactions statement by statement, on mutable tables | `import_database`, `coordinator` |
| worker pipeline | `pipeline` |
| reconciliation of relation tables, backlinks, name cache | `reconciliation`, `backlink`, `namecache` |
| collision-safe identities | `utf8`, `framing`, `identities`, `slots`, `deduplication`, `rowbatch`, `canonical_rows`, `quantity` |
| migration ledger | `legacy`, `migration`, `migration_runs` |
| segmented identifier set | `idset` |
| shared definitions | `options`, `sets`, `ordering` |

Code that changes state in place is modelled twice: once as a function on values (the
specification, about which the properties are proved) and once as methods of a class that follow
the order of the original's statements, whose contracts equate the new state with that function. A
SQL statement is a loop over the rows in any order, or one assignment of a whole table together with
the row count that the code checks. Loops over Go maps take their elements in any order.

Concurrency is modelled by state machines whose steps are the atomic actions (a transaction, a
lock call, a channel operation, an atomic word operation); theorems quantify over every finite
sequence of steps. A crash is a step that may be taken at any time, and worker steps carry only
a run identifier, so they may still be taken after their coordinator is gone.

## What is proved

**Import protocol.** `Protocol.Inv` holds in every state reachable from an empty import
database (`Safety.ReachableStatesAreSafe`). From it follow: fencing (a run that stopped running
never commits again), lock safety (recovery fails only runs whose coordinator session is gone,
and completing a live run never trips over its own guards), conservation of item counts, exactly-once
commitment along a resume path, and the tiling theorem for the coverage query.

**Admission, progress, completion.** What a transaction does is stated twice over: it keeps the invariant,
and it leaves rows whose every field is determined by the plan, the checkpoints and the rows before it.

- A plan under `force` is never skipped and begins anew; without `force`, a satisfied plan starts nothing, a partly
  satisfied one is refused, and any other resumes the latest fitting failed run
  (`Admissions.HistoriesForceBeginsAnew`, `Admissions.HistoriesResumeOrBeginAnew`).
- A failed run owns each chunk its path committed until an admission resumes it, or a completion finds all of its
  dumps applied (`Durability.HistoriesKeepProgress`); so the next fitting plan goes on with its chunks
  (`Durability.HistoriesResumeInterruptedRuns`).
- A live run ends well exactly when there was no error and each of its entities was completed by it or by an attempt
  it resumed (`Finishes.HistoriesSucceedIffCompleted`), and it skips exactly what such an attempt completed.
- The row of a root is the one in the last commit that contains it (`LastWriter.HistoriesLastWriteStands`).

**Convergence.** `References.HistoriesConvergeIff` is the crash and resume theorem. It assumes of the
history only what the code does: the completing run derives the rows of a chunk from the source and
from the identifiers it knows, which are those of the dumps whose steps it runs and, for entities that
are not selected, those in their tables. For any position in the history it says exactly when the
final table is that of a pass begun there by a process that ran every step. All of the condition can
be evaluated when the run is admitted: `Convergence.WroteWhatRemained` shows that the run writes
precisely the chunks that no earlier attempt had committed, and `Safety.SkipsAreDecidedAtAdmission`
and `Effects.StartSkipsComplete` that the skipped steps are those of entities complete at that time.
`References.PathConvergesIff` says the same of a whole resume path in terms of what each attempt knew,
and `Convergence.HistoriesConverge` is the plain sufficient form.

*Where code and documentation disagree.* `docs/import-safety.md:141-163` lists what a resumed run
must match and says that verified chunks are kept; `README.md:56-57` promises that compatible runs resume
and that relations missing from the source are removed. The model follows the code, in which a resumption
can fail to deliver the source's relations in two ways:

- `src/batch/execution.go:935-950` refuses a resumption only when a later *checkpoint* exists for another
  dump. A run of another dump that commits chunks and then fails leaves no checkpoint, so the first
  manifest is resumed over rows the other run has replaced
  (`Divergence.ForeignWriterBreaksConvergence`).
- A new process starts with empty identifier sets (`src/batch/runner.go:126`), does not preload those of
  selected entities (`src/batch/runner.go:249-264`), and skips the step of an entity that is complete
  (`src/batch/artist.go:37`, `src/batch/progress.go:54-64`). It then knows none of that entity's
  identifiers and drops the relations to them from every chunk that remains
  (`SkippedReferences.SkippedStepBreaksConvergence`, an ordinary resumption without any other run). The
  same happens to the `master_id` column of releases, which is a column of root rows and not modelled.

**Reconciliation.** Delete-stale followed by insert-on-conflict-do-nothing equals replacement of
the chunk's roots; doing it again affects no row. The two-statement backlink repair is an argmax
from any prior state. A name in the name cache is committed in every reachable state.

**Identities.** The hashed bytes decode uniquely, with a concrete collision beyond 2^32 bytes per
field. Slot allocation depends on the set of input rows alone, gives distinct hashes within a
scope, lets the least digest of each legacy hash keep it, and is stable on its own output. What comes
out of the deduplication meets the preconditions of reconciliation.

**Migrations.** Under older and newer artifacts, failures, crashes and adoption of Liquibase
histories, the ledger is a canonical prefix and each migration that was not adopted ran exactly once
and in order.

## Assumptions

- Each database transaction is atomic, and transactions on one run are serialised by its row lock.
- `(run, entity, chunk_index)` is unique. Run identifiers are unique, and a run's is greater than that of
  the run it resumes; admissions of disjoint entities may commit out of identifier order.
- The lock types of an entity are the ones expected in `src/batch/execution_test.go:666-729`; they
  include the entity itself.
- SHA-256 is a function parameter. It is injective only where a lemma says so.
- A source delivers windows of items; the callback after the last window runs once. No root occurs in two
  windows.
- The checkpoint view, the successful-manifest query and the consolidated dumps are inputs of
  admission and completion. Nothing is assumed about their contents but that an exact successful run,
  when reported, is one.
- Times are opaque ordered numbers.

## Model

| member | source | states |
|---|---|---|
| Coverage.QueryCoverage | src/batch/progress.go:318-346 | The aggregate over the ledger, read in any order, passes its three guards exactly when row count, item sum and every single row are as expected. |
| Coverage.AcceptsIffTiles | src/batch/progress.go:294-362 | The count, sum and per-row guards hold if and only if the recorded indexes are exactly 0..n-1 and the ranges follow one another from 0 to the item total (pigeonhole and telescoping). |
| Coverage.AcceptedLedgerPartitions | src/batch/progress.go:294-362 | An accepted ledger covers every item of the source in exactly one chunk and nothing else. |
| Coverage.NegativeIndexIsAccepted | src/batch/progress.go:318-346 | The query has no lower bound on the index: a ledger with a negative index is accepted without tiling. |
| Safety.ReachableStatesAreSafe | src/batch/execution.go:90-449 | After any history of admissions, worker transactions, completions, lock calls, crashes and zombie workers, the whole protocol invariant holds. |
| Protocol.StepKeepsInv | src/batch/execution.go:90-449 | Every single step keeps the invariant of runs, ledgers, committed history, locks and catalog states; new run identifiers need only be unused and above the resumed one. |
| Protocol.RecoveryKeepsCoordinators | src/batch/execution.go:610-630 | Marking abandoned runs, under the plan's locks, leaves every live coordinator's run running and active. |
| Protocol.LocksAreExclusive | src/batch/execution.go:465-489 | Two coordinator sessions never hold a lock of the same entity. |
| Protocol.LiveRunsAreDisjoint | src/batch/execution.go:465-489 | A session holding a plan's locks shares no entity with any run that lives on another session. |
| Safety.ClosedRunsAreSilent | src/batch/progress.go:121-158 | Fencing: once a run is no longer running, its row and summaries are frozen and no later history contains another commit or ledger row of it, zombies included. |
| Safety.StepFrameHolds | src/batch/progress.go:121-158 | In each step a status moves only away from running, and business rows change only through a commit of a run that is running before and after. |
| Safety.LiveRunsKeepRunning | src/batch/execution.go:334-449 | A prepared coordinator's run stays running and keeps owning its catalog states until its own session completes it or is lost. |
| Safety.HistoriesKeepCompletionPossible | src/batch/execution.go:334-449 | After any history, completing a run whose coordinator is alive passes all row-count guards, and succeeds exactly when there was no error and no incomplete dump. |
| Safety.HistoriesConserveItems | src/batch/progress.go:238-292 | After any history, the counter of every running or failed run equals the items committed along its path, and equals the items of its ledger unless a failed run has lost its whole ledger. |
| Safety.HistoriesCommitAtMostOnce | src/batch/execution.go:974-1052 | After any history, a running run's ledger says of each chunk whether its resume path committed it, and none was committed twice. |
| Safety.HistoriesCommitExactlyOnce | src/batch/progress.go:294-362 | After any history, when an entity completes its ledger tiles the source, each of its chunks was committed exactly once along the resume path, and no other chunk was. |
| Safety.EmptiedRunsAreNeverResumed | src/batch/execution.go:914-924 | A failed run whose ledger was transferred or pruned while items were counted can never again be resumed, whatever happens later. |
| RunAdmission.ResumableIsWhole | src/batch/execution.go:885-972 | What the resumable-run query returns still owns every chunk its path committed. |
| RunAdmission.TookOverKeepsInv | src/batch/execution.go:974-1052 | Handing a failed run's ledger and counters to a new running run keeps the invariant. |
| Effects.AbandoningKeepsInv | src/batch/execution.go:610-630 | Failing abandoned runs keeps the invariant and leaves the plan's entities without a running run. |
| Effects.CompleteKeepsInv | src/batch/execution.go:1054-1080 | Closing a run and pruning superseded ledgers keeps the invariant. |
| Decisions.AdmissionDecides | src/batch/execution.go:90-332 | When an admission succeeds, whether it skips the plan or starts a run, and from which run; and the tables it leaves: run, summaries, ledger, catalog states, and nothing else. |
| Decisions.AdmissionIsDecided | src/batch/execution.go:198-244 | A successful admission skips exactly the plans without `force` that are wholly satisfied; partly satisfied and outdated plans are refused. |
| Admissions.HistoriesAdmitAsDecided | src/batch/execution.go:90-332 | After any history, an admission either changes nothing or does all that the recovered tables, the plan and the inputs call for. |
| Admissions.HistoriesForceBeginsAnew | src/batch/execution.go:198-263 | After any history, a plan under `force` is admitted unless a dump is outdated, a catalog row is missing or the bootstrap fails; its run resumes nothing, counts no item, skips no entity and has no recorded chunk. |
| Admissions.HistoriesResumeOrBeginAnew | src/batch/execution.go:198-300 | After any history, without `force`: a satisfied plan starts nothing, a partly satisfied or outdated one changes nothing, and a started run takes over summaries and chunks of the latest fitting failed run, or begins anew when there is none. |
| Admissions.LocksConflictIff | src/batch/execution_test.go:666-729 | The lock types of two selections meet exactly when they share an entity, when one has the releases, or when one has the masters and the other the artists. |
| Admissions.HistoriesNeverConflict | src/batch/execution.go:465-489 | After any history, no two imports under way conflict in that sense. |
| Resumption.LatestIsFound | src/batch/execution.go:885-972 | Written over checkpoints, summaries and completion times: the resumable-run query finds the latest compatible failed run that no other dump or revision was applied after, whenever there is one. |
| Completions.CompletionDecides | src/batch/execution.go:334-449 | When a completion succeeds, its outcome, and the tables it leaves: the run row with its time, the catalog states, the ledgers, and nothing else. |
| Completions.FailedRunsKeepProgress | src/batch/execution.go:1054-1080 | A failed run keeps its whole ledger when another completes if one of its entities has no checkpoint or one of another dump or revision, and is emptied otherwise; an unsuccessful completion drops nothing. |
| Durability.HistoriesKeepProgress | src/batch/execution.go:1054-1080 | After any history, a failed run owns each chunk its path committed, unless an admission resumed it or a completion found all of its dumps applied; then it owns none. |
| Durability.HistoriesResumeInterruptedRuns | src/batch/execution.go:885-1052 | After a crash or failure and any further history that did not take its ledger, the next admission of a fitting plan goes on with the chunks of the interrupted run, or of a fitting run that failed later. |
| Durability.CompletionsKeepResumable | src/batch/execution.go:1054-1080 | After any history, a completion leaves another failed run resumable exactly as before, under every plan and view, unless it finds each of its dumps applied; then the run is resumable only if it has no items. |
| Finishes.HistoriesFinishAlongPaths | src/batch/progress.go:294-362 | After any history, a summary of an unsuccessful or running run is finished exactly when a run of its resume path completed the entity, and its step is skipped exactly when that was an earlier run. |
| Finishes.FinishedStaysFinished | src/batch/execution.go:974-1052 | An entity once completed stays complete in every later history, also in the summaries of the runs that resume, which skip it. |
| Finishes.HistoriesSucceedIffCompleted | src/batch/execution.go:334-449 | After any history, completing a live run closes it with success exactly when there was no run error and every entity was completed along its resume path, and as failed otherwise. |
| LastWriter.HistoriesRecordCommits | src/batch/progress.go:160-191 | The history on which the theorems count consists of the commits of the steps taken, one after the other. |
| LastWriter.HistoriesLastWriteStands | src/batch/extract.go:114-132 | After any history, the row of a root is the one in the last commit that contains it, the relation rows below a root are those of the last chunk that contains it, and what no commit contains is as it was at first. |
| References.HistoriesConvergeIff | src/batch/progress.go:160-191 | After any history, a completed entity has the table of an uninterrupted pass begun at a given position if and only if, at the admission of the completing run, the inherited chunks were in place, no remaining chunk needed an identifier of a skipped step, and nothing else had changed since that position. |
| References.ImportConvergesIff | src/batch/execution.go:885-1052 | The same for any state that satisfies the invariant. |
| References.PathConvergesIff | src/batch/relations.go:107-164 | When nobody else wrote since the resume path began, a completed entity has the table of one pass if and only if every chunk was committed by an attempt that knew the same of the identifiers the chunk refers to. |
| References.FilterReferences | src/batch/xml.go:718-759 | The getters keep, in order, exactly the rows without a reference or with a known one. |
| References.SameRowsIff | src/batch/xml.go:718-759 | Two processes write the same rows for a chunk exactly when it refers to no identifier that only one of them knows. |
| Effects.StartSkipsComplete | src/batch/progress.go:18-64 | Right after admission, a run skips exactly the entities whose summary is complete. |
| Safety.SkipsAreDecidedAtAdmission | src/batch/progress.go:18-64 | No later step changes which entities a run skips, nor the dump, chunk size or revision of a summary; and a complete summary stays complete. |
| Convergence.CompletedTableIff | src/batch/execution.go:885-1052 | A completed table equals a pass over any batches with the same roots, begun anywhere, exactly when the remaining chunks were written with the pass's rows, the others were in place at admission, and nothing else differed. |
| Convergence.ResumedRunConvergesIff | src/batch/execution.go:885-1052 | A resumed run ends in the table of a pass over its own source begun at its admission if and only if every chunk committed before along its path was then in place, whatever earlier attempts had derived. |
| Convergence.WroteWhatRemained | src/batch/progress.go:160-191 | A completing run wrote precisely the chunks that its resume path had not committed when it was admitted. |
| Convergence.FreshRunConverges | src/batch/relations.go:107-164 | A run that resumed nothing converges whatever others did before it was admitted. |
| Convergence.HistoriesConverge | src/batch/progress.go:160-191 | Any history that completes an entity, with the same rows in every attempt and no foreign writer since the path began, leaves the table of one sequential pass. |
| Convergence.ReplayOverlay | src/batch/progress.go:160-191 | Committing source chunks in any order and any number of times replaces exactly the rows of the chunks touched. |
| Divergence.ForeignWriterBreaksConvergence | src/batch/execution.go:935-950 | A reachable history in which a foreign run commits, fails and is not noticed: the resumed entity completes with a table that no pass over its source produces. |
| SkippedReferences.SkippedStepBreaksConvergence | src/batch/runner.go:249-264 | A reachable history without any foreign run: the artists are complete before the crash, the resumed run skips their step, and the masters complete with a table that no pass knowing the artists produces. |
| ImportTables.ImportDatabase.RecordCompletedChunk | src/batch/progress.go:238-292 | One update happens exactly when the run is running, the chunk is new and the open summary has this chunk size; then ledger and counter grow together. |
| ImportTables.ImportDatabase.ExecuteChunk | src/batch/progress.go:160-191 | Business rows and ledger row are committed together or not at all; a recorded chunk is skipped or reported as mismatching. After a written chunk every root of the batch has the batch's row, below its roots stand exactly the batch's relation rows, and every other row is as before. |
| Safety.HistoriesReportChunksTruly | src/batch/progress.go:160-236 | After any history, what the chunk transaction of a running run reports is true: "already completed" means committed once along the resume path with exactly this range and not written again, a chunk committed with another range is an error, and a written chunk had not been committed before. |
| ImportTables.ImportDatabase.ExecuteActiveRunTransaction | src/batch/progress.go:121-158 | Root rows are committed only under a run that is still running; then each has its new row, and every other row is as before. |
| ImportTables.ImportDatabase.CompleteEntityProgress | src/batch/progress.go:294-362 | The entity is completed exactly when the fence, the counter and the coverage guards hold. Its summary then has the given item and chunk totals, the time and the counter from before, and is no longer incomplete; nothing else changes. |
| ImportTables.ImportDatabase.MarkAbandonedRuns | src/batch/execution.go:610-630 | Fails exactly the running runs that have a summary of a given entity, at the given time. |
| ImportTables.ImportDatabase.FindResumableRun | src/batch/execution.go:885-972 | Finds a failed run of the same manifest whose counters, revisions, chunk sizes and ranges fit, and to whose entities no checkpoint of another dump or revision was applied after it failed; every other such run failed earlier, ties going to the greater identifier; nothing is found only if there is none. |
| ImportTables.ImportDatabase.CopyResumeProgress | src/batch/execution.go:974-1052 | Updating the summaries, inserting the moved ledger rows and deleting the old ones hands progress over exactly when every summary matched; the inserted and deleted counts always agree. |
| ExecutionCoordinator.ImportExecutionCoordinator.AcquireEntityLocks | src/batch/execution.go:465-489 | All locks are taken if and only if all are free; otherwise the locks taken so far are remembered for release. |
| ExecutionCoordinator.ImportExecutionCoordinator.Release | src/batch/execution.go:491-508 | Every held lock is returned and the coordinator is idle again. |
| ExecutionCoordinator.ImportExecutionCoordinator.UpdateCatalog | src/batch/execution.go:584-608 | The number of changed rows tells exactly whether every selected entity was eligible. |
| ExecutionCoordinator.ImportExecutionCoordinator.AssertNotDowngrade | src/batch/execution.go:632-667 | Refuses exactly the plans with a dump older than its entity's checkpoint. |
| ExecutionCoordinator.ImportExecutionCoordinator.InsertImportRun | src/batch/execution.go:1125-1186 | The new running run and one empty summary per selected dump are inserted. |
| ExecutionCoordinator.ImportExecutionCoordinator.Prepare | src/batch/execution.go:90-332 | A malformed, outdated or partly satisfied plan is refused. A successful admission skips exactly a satisfied plan without `force`, and under `force` starts a blank run that resumes nothing. Only a started run keeps its locks; a skip releases them; every failure leaves database and locks as they were. |
| ExecutionCoordinator.ImportExecutionCoordinator.Complete | src/batch/execution.go:334-449 | Closes the run, with success exactly when there is no run error and every summary is finished, sets its catalog states and drops exactly the ledgers that are due; or rolls back. The locks are released in every case. |
| ExecutionCoordinator.ImportExecutionCoordinator.PruneSuperseded | src/batch/execution.go:1054-1080 | Removes the ledger of the completed run, and of exactly those failed runs each of whose entities has a checkpoint of the very same dump and revision. |
| Pipeline.WorkersAreBounded | src/batch/order.go:66-83 | Never more than the configured number of bodies run; when the channel is closed, each accepted worker has delivered its result and none is left to send. |
| Pipeline.FinalizerIsJustified | src/batch/relations.go:69-170 | The finalizer runs only if every delivered window was in the inventory with its exact range or produced exactly one result, without error. |
| Pipeline.FinalizerTotals | src/batch/relations.go:107-164 | The windows delivered follow one another without gap, and the item total is where the last one ends. |
| Pipeline.StepKeepsInv | src/batch/relations.go:94-169 | Slots, wait group, workers and results stay consistent under every interleaving. |
| Pipeline.ReconcileRelations | src/batch/relations.go:17-26 | Runs the reconciliations on the tables in order up to the first failure: the tables are as those leave them, later ones are not run, and the affected rows are summed. |
| Pipeline.TotalOkIff | src/result/result.go:20-29 | A sum of results is without error exactly when every part is, in whatever order the parts came. |
| Pipeline.SourceErrorRecorder.Record | src/batch/relations.go:33-50 | The first error wins. |
| Reconciliation.ReconcileIsReplacement | src/batch/convergence.go:146-195 | Deleting stale rows and inserting missing ones leaves below the chunk's roots exactly the incoming rows and everything else untouched; legacy rows without identity are replaced. |
| Reconciliation.KeptRows | src/batch/convergence.go:349-408 | The delete keeps exactly the rows of other roots and the rows that already match by key and identity. |
| Reconciliation.ExistingRootsSuffice | src/batch/convergence.go:64-100 | Limiting the delete to roots that have rows, or skipping it, gives the same table and the same count. |
| Reconciliation.ReconcileAgain | src/batch/convergence.go:146-195 | A second reconciliation with the same rows changes nothing and reports zero rows. |
| Reconciliation.ReplacementsCommute | src/batch/relations.go:107-164 | Chunks with disjoint roots may be reconciled in either order. |
| Reconciliation.RelationTable.ReconcileRelation | src/batch/convergence.go:146-195 | The statements over parallel key arrays delete and insert as specified and count the affected rows. |
| Reconciliation.RelationTable.ReconcileChunk | src/batch/release.go:237-362 | A chunk's reconciliation replaces the rows of its roots. |
| Reconciliation.RelationTable.FindExistingRelationRoots | src/batch/convergence.go:64-100 | Finds exactly the chunk's roots that have rows. |
| Reconciliation.RelationTable.DoWrite | src/batch/writer.go:198-233 | Writing in safe batches inserts what one statement would insert, and counts it. |
| Reconciliation.PostgresSafeBatchSize | src/batch/writer.go:260-273 | The largest batch not above the request that stays within the bind-parameter limit, or an error. |
| Backlink.TwoStatementsRepair | src/batch/release.go:16-57 | From any prior state, clear then set links every master to its qualifying release that is maximal by (last modified, id), or to none. |
| Backlink.RepairIsDetermined | src/batch/release.go:16-57 | The repaired backlinks are determined by the releases alone. |
| Backlink.MasterTable.ReconcileMasterMainReleases | src/batch/release.go:381-399 | The statements repair every master; zero rows are reported exactly when all were already repaired. |
| Backlink.MasterTable.Desired | src/batch/release.go:33-52 | Ordering and keeping the first row of each master yields the newest qualifying release of each. |
| NameCache.CacheIsSound | src/batch/release.go:207-232 | In every reachable state, with concurrent and rolled-back workers, cached names are committed, and a chunk that commits finds all of its names in the database. |
| NameCache.FilterNames | src/batch/release.go:401-441 | Blank and repeated names are dropped, every other normalized name is kept once, in the order of first occurrence. |
| NameCache.FilterConfirmed | src/batch/writer.go:42-59 | Exactly the names the cache does not hold remain to be inserted, in order and as often as given. |
| NameCache.Confirm | src/batch/writer.go:61-68 | Exactly the given names are added to the cache. |
| Utf8.EncodeIsInjective | src/relationidentity/identity.go:58-67 | Texts with the same bytes are the same text. |
| Framing.FieldsRoundTrip | src/relationidentity/identity.go:87-107 | Decoding the framed fields returns them, for fields shorter than 2^32 bytes. |
| Framing.IdentityFrameIsInjective | src/relationidentity/identity.go:87-107 | The bytes hashed for an identity determine domain, relation and fields. |
| Framing.SlotFrameIsInjective | src/relationidentity/identity.go:140-152 | The bytes hashed for a slot determine domain, relation, digest and attempt. |
| Framing.LongFieldCollides | src/relationidentity/identity.go:87-107 | Beyond 2^32 bytes the truncated length makes two different field lists frame alike. |
| Framing.Sum | src/relationidentity/identity.go:87-107 | The writes to the hash, one after the other, are the framed bytes. |
| Identities.GetRows | src/batch/xml.go:602-696 | Every row of a getter has normalized columns, the legacy hash computed from them, and is not blank. |
| Identities.BuiltRows | src/batch/xml.go:602-696 | Each element that is not blank gives its row, and there are no other rows. |
| Identities.FilterStrStrips | src/helper/func.go:46-56 | A column is its value without the white space around it, and absent exactly when nothing else is left. |
| Identities.GetterRowsNeverConflict | src/batch/release_dedupe.go:460-476 | With an injective hash, rows built by the getters never reach the conflicting-payload or conflicting-legacy-hash error. |
| Identities.IdentityDeterminesPayload | src/relationidentity/identity.go:58-107 | With an injective hash, equal identities mean equal columns. |
| Identities.NamesAreSeparated | src/relationidentity/identity.go:87-107 | For names without NUL, equal hashed bytes mean the same domain, relation and fields. |
| Identities.ReducedListsTexts | src/batch/xml.go:916-929 | A reduced description is absent exactly when every description is blank, and otherwise lists the trimmed descriptions in brackets in their order. |
| Identities.ReducedDeterminesTexts | src/batch/xml.go:916-929 | For descriptions without a closing bracket, the column determines the descriptions and their order. |
| Identities.BracketsCollide | src/batch/xml.go:916-929 | With a closing bracket it does not: a concrete collision. |
| Slots.AllocationIsCorrect | src/batch/release_dedupe.go:533-580 | On success each identity of a scope has one hash, different identities different ones, and the least digest of every legacy hash keeps it. |
| Slots.UncollidedKeepHashes | src/batch/release_dedupe.go:533-580 | An identity that collides with no other keeps its legacy hash. |
| Slots.AllocationIsStable | src/batch/release_dedupe.go:533-580 | Allocating again from the allocated hashes succeeds and changes nothing. |
| Deduplication.OrderIsIrrelevant | src/batch/release_dedupe.go:431-501 | Batches with the same rows in any order and multiplicity both fail or give every identity the same hash. |
| Deduplication.OutcomeIsCorrect | src/batch/release_dedupe.go:431-501 | On success exactly the batch's identities have hashes, distinct within a scope, and least digests keep theirs. |
| Deduplication.DeduplicationIsStable | src/batch/release_dedupe.go:431-501 | Deduplicating the output again gives every identity the hash it has. |
| RowBatch.DeduplicateHashedRows | src/batch/release_dedupe.go:431-501 | The loops over slices and Go maps, in any map order, fail exactly on a missing row, a conflict or exhausted slots; otherwise they keep the first row of each identity in input order and write its hash into it, and into no other row. |
| RowBatch.AssignScope | src/batch/release_dedupe.go:533-580 | Sorting the legacy hashes and digests and searching slots assigns the specified allocation, for any input order. |
| RowBatch.Collect | src/batch/release_dedupe.go:443-487 | Fails exactly on a missing row or conflicting rows; otherwise groups the digests by scope and legacy hash and keeps the first row of each identity, in order. |
| RowBatch.FindSlot | src/batch/release_dedupe.go:555-575 | The first generated slot that is neither reserved nor used, if one of the attempts yields it. |
| CanonicalRows.DeduplicateCanonicalRows | src/batch/release_dedupe.go:582-610 | Fails exactly on a missing row or on two rows of one key with different payloads; otherwise keeps the first row of each key, in order. |
| CanonicalRows.DeduplicateComparable | src/batch/canonical_rows.go:26-37 | The first occurrence of every value, in order. |
| Ordering.FirstsKeepOrder | src/batch/canonical_rows.go:26-37 | First occurrences stand in input order, one for each new key and no other. |
| CanonicalRows.DeduplicatedRowsAreCanonical | src/batch/release_dedupe.go:582-610 | Rows deduplicated by conflict key are what reconciliation asks for. |
| CanonicalRows.HashedRowsAreCanonical | src/batch/release_dedupe.go:431-501 | Rows that come out of the deduplication of hashed rows have distinct conflict keys and identities, as reconciliation asks. |
| Quantity.CanonicalReleaseFormatQuantity | src/batch/release_dedupe.go:228-251 | For decimal texts of any length: canonical text of the same value, and an integer exactly when the value fits 32 bits; the loop never overflows. |
| Quantity.CanonicalIsUnique | src/batch/release_dedupe.go:228-251 | Each value has one canonical text. |
| Quantity.OversizedIff | src/batch/release_dedupe.go:228-251 | Comparing length, then text, with "2147483647" decides whether the number exceeds 32 bits. |
| Quantity.ReleaseItemFormat.CanonicalizeQuantity | src/batch/release_dedupe.go:197-226 | Fails exactly when the columns disagree or are malformed; otherwise both columns agree, the denoted number is kept, and a second pass changes nothing. |
| Quantity.ConsistentIsUnique | src/batch/release_dedupe.go:197-226 | Two canonical rows that denote one number are equal. |
| LegacyHistory.ValidateLegacyLiquibaseRows | src/batch/legacy_migration.go:224-279 | Accepts exactly the histories that begin both the manifest and the artifact; what it adopts is a prefix of the artifact. |
| LegacyHistory.TrustedIff | src/batch/legacy_migration.go:224-279 | A row is trusted exactly when it names the first change set of the schema mode, ran in a permitted way and has its checksum unless that depends on parameters; the way it ran decides whether the schema must be proved. |
| Migrations.AgreementIsPrefix | src/batch/ddl.go:236-273 | Comparing the ledger row by row accepts exactly the ledgers that record a prefix of the artifact with its checksums. |
| Migrations.MigrationDatabase.ValidateMigrationLedger | src/batch/ddl.go:236-273 | The validation passes exactly on a recorded prefix. |
| Migrations.AppliedOnce | src/batch/ddl.go:297-339 | On a ledger that records the first migrations of an artifact: a recorded migration changes nothing, the next one is recorded and executed together or fails, and a version recorded with another checksum is refused. |
| Migrations.MigrationDatabase.AdoptLegacyLiquibaseHistory | src/batch/legacy_migration.go:128-193 | An empty ledger adopts a recognised history, whose schema is proved where a row asks for it, and then records exactly the migrations of that history; a ledger with rows or an empty history is left alone. |
| Migrations.MigrationDatabase.RunDDL | src/batch/ddl.go:71-114 | On success the ledger records exactly the artifact, and exactly the migrations missing before were executed, in order; a failing migration leaves the prefix reached and executed so far; a longer ledger or a taken Liquibase lock changes nothing. |
| MigrationRuns.LedgerStaysCanonical | src/batch/ddl.go:71-114 | Over any history of attempts, crashes, failures, older and newer artifacts, the ledger is a canonical prefix and every migration not adopted took effect exactly once and in order. |
| MigrationRuns.OlderArtifactIsRefused | src/batch/ddl.go:236-273 | Validation refuses exactly the artifacts shorter than the ledger and changes nothing. |
| MigrationRuns.SuccessMeansComplete | src/batch/ddl.go:71-114 | An attempt that ends well leaves the ledger of its whole artifact. |
| MigrationRuns.CrashLeavesLock | src/batch/legacy_migration.go:46-126 | A crash under the Liquibase lock leaves the lock row set although its session is gone. |
| MigrationRuns.StaleLockBlocks | src/batch/legacy_migration.go:46-106 | Until an operator clears it, a stale lock row keeps every later attempt from touching the schema. |
| IdSets.PositionIsUnique | src/cache/cache.go:53-78 | Segment, word and bit identify a 32-bit identifier. |
| IdSets.WithBitAdds | src/cache/cache.go:53-65 | Setting a bit adds its identifier to the word's members, and no other. |
| IdSets.IDSet.Contains | src/cache/cache.go:67-78 | Answers membership of the abstract set. |
| IdSets.IDSet.Add | src/cache/cache.go:53-65 | Adds a positive identifier and nothing else; other identifiers are ignored. |
| IdSets.IDSet.AllocatedWordBytes | src/cache/cache.go:87-94 | One 8 KiB segment for each range of 65,536 identifiers that has a member. |
| IdSets.NoMemberIsLost | src/cache/cache.go:53-65 | Under any interleaving of the atomic steps of concurrent additions, the set shows exactly the identifiers whose addition has completed. |
| IdSets.ConcurrentAddsAreComplete | src/cache/cache.go:53-65 | From the empty set, any interleaving of additions leaves exactly what was added. |

## Left out

- Convergence.HistoriesConverge: the sufficient form; References.HistoriesConvergeIff has neither of its two hypotheses and is exact.
- References.PathConvergesIff: assumes that nobody else wrote; References.HistoriesConvergeIff does not.
- References.HistoriesConvergeIff: is about relation tables; root rows are upserts that are never deleted, and LastWriter.HistoriesLastWriteStands says which row each root has. Timestamps are not modelled, and a root row is one value, so that the `master_id` that a resumed run drops from releases is not told apart from its other columns.
- Durability.HistoriesResumeInterruptedRuns: assumes that the fitting failed runs imported the plan's dumps, as runs of one manifest fingerprint do; otherwise the copy of progress refuses the admission (Decisions.AdmissionDecides).
- Convergence.ReplayOverlay: one digest relation per entity stands for its family of relation tables, which are reconciled alike and independently.
- Pipeline.FinalizerIsJustified: a panic in a worker body is not modelled; liveness (that a started pipeline ends) is not stated.
- Reconciliation.RelationTable.ReconcileChunk: one generic table stands for the ten relations of a release chunk; the genre and style rows written before them are the subject of NameCache.
- Identities.GetRows: one generic getter stands for the hashed-relation getters; the integer quantity column of release formats follows from its text.
- RowBatch.DeduplicateHashedRows: groups hold digests, and rows are found through the identity map, where the code keeps row pointers in the groups; which rows are mutated is the same.
- RowBatch.FindSlot: the slot function is a parameter; that it is a truncated SHA-256 is used nowhere.
- Utf8.EncodeIsInjective: texts are sequences of Unicode scalar values; byte strings that are not valid UTF-8 are not modelled.
- Reconciliation.ReconcileIsReplacement: the columns that are not key or identity are not modelled; "nulls not distinct" keys are modelled by comparing optional values.
- Backlink.TwoStatementsRepair: a null last-modified time is not modelled, because every writer of releases sets it (src/batch/xml.go:221).
- LegacyHistory.ValidateLegacyLiquibaseRows: the schema fingerprint proof is a boolean input of the adoption.
- MigrationRuns.LedgerStaysCanonical: only other migration attempts compete for the import locks; imports holding them appear as an attempt that cannot take them yet.
- Orders without a run (run 0): they write without ledger and fence, so nothing of the protocol applies to them.
- The body of the checkpoint view, the successful-manifest query and the consolidation query: not part of this model; no claim depends on what they return.
- Dump provenance rows (`findOrInsertDump`): a dump is its identifier.
- Bootstrap foreign-key operations: a boolean outcome of admission and completion.
- Lost connections and failed unlocks: covered by the steps that release a lock or drop a session at any time.
- The per-table wrappers of reconciliation, deduplication and writing: one generic version of each shape is modelled.
- HTTP, catalog pages, downloads, checksums, command line, environment, progress reporting, XML and gzip decoding, image tables and date parsing: input, output and plumbing around the modelled engine.
