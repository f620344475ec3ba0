/** What completing an entity and completing a run leave in the tables, row by row and field by field. */
module Completions {
  import opened Options
  import opened Coverage
  import opened Database
  import opened History
  import opened Invariant
  import opened Effects
  import opened Resumption
  import opened Decisions

  // ----- completing an entity -----

  /** Both totals are known, all items are counted, and the time of completion is set. */
  predicate Finished(d: RunDump) {
    d.completedAt.Some? && d.totalChunks.Some? && d.totalItems == Some(d.processedItems)
  }

  lemma FinishedMeans(d: RunDump)
    ensures Finished(d) <==> !IncompleteDump(d)
  {}

  /** Of one summary, the totals and the time were set to the given values; nothing else changed. */
  ghost predicate EntityFinished(db: Db, k: DumpKey, totalItems: int, totalChunks: int, now: int, db': Db) {
    && k in db.dumps && db.dumps[k].processedItems == totalItems
    && db' == db.(dumps := db'.dumps) && db'.dumps.Keys == db.dumps.Keys
    && (forall other :: other in db.dumps && other != k ==> db'.dumps[other] == db.dumps[other])
    && db'.dumps[k] == RunDump(
         db.dumps[k].dumpId, db.dumps[k].chunkSize, db.dumps[k].revision, totalItems,
         Some(totalItems), Some(totalChunks), Some(now), db.dumps[k].skipped)
    && Finished(db'.dumps[k])
  }

  /** The run is running, and its summary counts all items of a source that its ledger covers. */
  ghost predicate CanFinish(db: Db, k: DumpKey, chunkSize: int, totalItems: int, totalChunks: int) {
    && k.run in db.runs && db.runs[k.run].status == Running
    && k in db.dumps && db.dumps[k].chunkSize == chunkSize && db.dumps[k].processedItems == totalItems
    && CoverageAccepts(LedgerOf(db.chunks, k.run, k.entity), chunkSize, totalItems, totalChunks)
  }

  lemma EntityCompletesIff(db: Db, order: Order, totalItems: int, totalChunks: int, now: int)
    ensures CompleteEntity(db, order, totalItems, totalChunks, now).Ok?
            <==> CanFinish(db, DumpKey(order.run, order.entity), order.chunkSize, totalItems, totalChunks)
  {
    hide CoverageAccepts, LedgerOf;
  }

  lemma EntityCompletes(db: Db, order: Order, totalItems: int, totalChunks: int, now: int)
    ensures var r := CompleteEntity(db, order, totalItems, totalChunks, now);
            r.Ok? ==> EntityFinished(db, DumpKey(order.run, order.entity), totalItems, totalChunks, now, r.value)
  {
    hide CoverageAccepts, LedgerOf;
  }

  // ----- completing a run -----

  /** One of the run's entities has no checkpoint, or one that applied another dump or revision. */
  ghost predicate Unapplied(dumps: map<DumpKey, RunDump>, r: RunId, view: View) {
    exists e :: DumpKey(r, e) in dumps && !Applied(dumps, r, e, view)
  }

  /** The checkpoint of `e` applied the very dump and revision of the run. */
  predicate Applied(dumps: map<DumpKey, RunDump>, r: RunId, e: Entity, view: View)
    requires DumpKey(r, e) in dumps
  {
    && e in view && DumpKey(view[e].run, e) in dumps
    && dumps[DumpKey(view[e].run, e)].dumpId == dumps[DumpKey(r, e)].dumpId
    && dumps[DumpKey(view[e].run, e)].revision == dumps[DumpKey(r, e)].revision
  }

  lemma SupersededIff(runs: map<RunId, Run>, dumps: map<DumpKey, RunDump>, r: RunId, view: View)
    ensures ProgressSuperseded(runs, dumps, r, view)
            <==> r in runs && runs[r].status == Failed && !Unapplied(dumps, r, view)
  {
    EntitiesAreKeys(dumps, r);
  }

  /** Which ledgers are left: all after a failure; after a success those of other runs, unless failed and wholly applied. */
  ghost predicate LedgersLeft(db: Db, run: RunId, view: View, success: bool, chunks': map<ChunkKey, ChunkRange>) {
    && (forall k :: k in chunks' ==> k in db.chunks && chunks'[k] == db.chunks[k])
    && forall k :: k in db.chunks ==>
         (k in chunks' <==> !success || (k.run != run && !SpentBy(db, k.run, view)))
  }

  /** A failed run all of whose dumps are the ones that the checkpoints applied. */
  ghost predicate SpentBy(db: Db, r: RunId, view: View) {
    r in db.runs && db.runs[r].status == Failed && !Unapplied(db.dumps, r, view)
  }

  lemma PruningLeaves(db: Db, run: RunId, view: View, now: int)
    requires IsRunning(db.runs, run)
    ensures LedgersLeft(db, run, view, true, PruneChunks(CloseRun(db, run, Success, now), run, view))
  {
    var closed := CloseRun(db, run, Success, now);
    forall r
      ensures r != run ==> (ProgressSuperseded(closed.runs, closed.dumps, r, view) <==> SpentBy(db, r, view))
    {
      SupersededIff(closed.runs, closed.dumps, r, view);
    }
    hide ProgressSuperseded, SpentBy;
  }

  ghost predicate AllFinished(dumps: map<DumpKey, RunDump>, run: RunId) {
    forall k :: k in dumps && k.run == run ==> Finished(dumps[k])
  }

  lemma AllFinishedMeans(db: Db, run: RunId)
    ensures AllFinished(db.dumps, run) <==> !HasIncompleteDump(db, run)
  {
    forall d
      ensures Finished(d) <==> !IncompleteDump(d)
    {
      FinishedMeans(d);
    }
    hide Finished, IncompleteDump;
  }

  /** All that completion changes: one run is closed, its catalog states follow, superseded ledgers go. */
  ghost predicate Closes(
      db: Db, run: RunId, entities: set<Entity>, runErr: Option<string>, view: View, now: int, db': Db, success: bool)
  {
    && (success <==> runErr.None? && AllFinished(db.dumps, run))
    && db' == Db(db'.runs, db.dumps, db'.chunks, db'.catalog, db.locks, db.content, db.base, db.history)
    && IsRunning(db.runs, run)
    && db'.runs == db.runs[run := db.runs[run].(status := if success then Success else Failed, completedAt := now)]
    && LedgersLeft(db, run, view, success, db'.chunks)
    && if success then Ready(db.catalog, entities, run, db'.catalog)
       else FailedFor(db.catalog, entities, if runErr.Some? then runErr.value else "incomplete entities", db'.catalog)
  }

  /** Completion succeeds for a running run that may write its catalog states, and a good end also needs its bootstrap. */
  ghost predicate CanClose(
      db: Db, run: RunId, entities: set<Entity>, runErr: Option<string>, bootstrapOk: bool)
  {
    && IsRunning(db.runs, run)
    && if runErr.None? && AllFinished(db.dumps, run) then
         bootstrapOk && forall e :: e in entities ==> e in db.catalog && db.catalog[e].activeRun in {0, run}
       else forall e :: e in entities ==> e in db.catalog && db.catalog[e].activeRun == run
  }

  lemma SuccessCloses(closed: Db, run: RunId, entities: set<Entity>, view: View, bootstrapOk: bool)
    ensures var r := FinishSuccess(closed, run, entities, view, bootstrapOk);
            && (r.Ok? <==> bootstrapOk && forall e :: e in entities ==> e in closed.catalog && closed.catalog[e].activeRun in {0, run})
            && (r.Ok? ==> r.value.1 && Ready(closed.catalog, entities, run, r.value.0.catalog)
                          && r.value.0 == closed.(catalog := r.value.0.catalog, chunks := PruneChunks(closed, run, view)))
  {
    CatalogOutcomes(closed, run, entities);
    hide MarkReady, PruneChunks, Ready;
  }

  lemma FailureCloses(closed: Db, run: RunId, entities: set<Entity>, failure: string)
    ensures var r := FinishFailure(closed, run, entities, failure);
            && (r.Ok? <==> forall e :: e in entities ==> e in closed.catalog && closed.catalog[e].activeRun == run)
            && (r.Ok? ==> !r.value.1 && FailedFor(closed.catalog, entities, failure, r.value.0.catalog)
                          && r.value.0 == closed.(catalog := r.value.0.catalog))
  {
    FailureOutcome(closed, run, entities, failure);
    hide MarkFailed, FailedFor;
  }

  lemma CompletionDecides(
      db: Db, run: RunId, entities: set<Entity>, runErr: Option<string>, view: View, now: int, bootstrapOk: bool)
    ensures var r := CompleteTx(db, run, entities, runErr, view, now, bootstrapOk);
            && (r.Ok? <==> CanClose(db, run, entities, runErr, bootstrapOk))
            && (r.Ok? ==> Closes(db, run, entities, runErr, view, now, r.value.0, r.value.1))
  {
    hide FinishSuccess, FinishFailure, HasIncompleteDump, AllFinished, PruneChunks, LedgersLeft, Ready, FailedFor;
    AllFinishedMeans(db, run);
    if IsRunning(db.runs, run) {
      var failure := if runErr.Some? then runErr.value else "incomplete entities";
      SuccessCloses(CloseRun(db, run, Success, now), run, entities, view, bootstrapOk);
      FailureCloses(CloseRun(db, run, Failed, now), run, entities, failure);
      PruningLeaves(db, run, view, now);
      NothingPruned(db, run, view);
    }
  }

  lemma NothingPruned(db: Db, run: RunId, view: View)
    ensures LedgersLeft(db, run, view, false, db.chunks)
  {}

  // ----- what is left of failed runs -----

  /**
   * A failed run keeps its whole ledger when another one completes, if one of its entities has no checkpoint
   * or one of another dump or revision, and loses it otherwise. The completed run has none any more.
   */
  lemma FailedRunsKeepProgress(
      db: Db, run: RunId, entities: set<Entity>, runErr: Option<string>, view: View, now: int, db': Db, success: bool, r: RunId)
    requires Closes(db, run, entities, runErr, view, now, db', success)
    requires r in db.runs && db.runs[r].status == Failed
    ensures (exists e :: DumpKey(r, e) in db.dumps
                && (|| e !in view || DumpKey(view[e].run, e) !in db.dumps
                    || db.dumps[DumpKey(view[e].run, e)].dumpId != db.dumps[DumpKey(r, e)].dumpId
                    || db.dumps[DumpKey(view[e].run, e)].revision != db.dumps[DumpKey(r, e)].revision)) ==>
              SameRows(db.chunks, db'.chunks, r)
    ensures success && (forall e :: DumpKey(r, e) in db.dumps ==>
                && e in view && DumpKey(view[e].run, e) in db.dumps
                && db.dumps[DumpKey(view[e].run, e)].dumpId == db.dumps[DumpKey(r, e)].dumpId
                && db.dumps[DumpKey(view[e].run, e)].revision == db.dumps[DumpKey(r, e)].revision) ==>
              Emptied(db'.chunks, r)
    ensures !success ==> SameRows(db.chunks, db'.chunks, r)
    ensures success ==> Emptied(db'.chunks, run)
  {
    hide AllFinished, Ready, FailedFor;
  }
}
