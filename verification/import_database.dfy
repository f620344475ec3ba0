/**
 * The import tables as an object, and the transactions of chunk workers as the statements they
 * execute. A transaction that fails restores what it found.
 */
module ImportTables {
  import opened Options
  import opened Sets
  import opened Coverage
  import opened Reconciliation
  import opened Database
  import opened ChunkRows
  import opened Resumption
  import opened Decisions
  import opened Completions

  function LedgerKeys(chunks: map<ChunkKey, ChunkRange>, run: RunId): set<ChunkKey> {
    set k | k in chunks && k.run == run
  }

  function Moved(keys: set<ChunkKey>, target: RunId): set<ChunkKey> {
    set k | k in keys :: ChunkKey(target, k.entity, k.index)
  }

  /** As many rows arrive as leave. */
  lemma {:induction false} MovedCount(keys: set<ChunkKey>, source: RunId, target: RunId)
    requires forall k :: k in keys ==> k.run == source
    ensures |Moved(keys, target)| == |keys|
    decreases |keys|
  {
    if keys != {} {
      var k := Pick(keys);
      var k' := ChunkKey(target, k.entity, k.index);
      MovedCount(keys - {k}, source, target);
      assert Moved(keys, target) == Moved(keys - {k}, target) + {k'};
      assert k' !in Moved(keys - {k}, target);
    }
  }

  /** The ledger rows of one run, under the number of another. */
  function MovedRows(chunks: map<ChunkKey, ChunkRange>, source: RunId, target: RunId): map<ChunkKey, ChunkRange> {
    map k | k in MovedKeys(chunks, source, target) :: chunks[ChunkKey(source, k.entity, k.index)]
  }

  lemma MovedRowKeys(chunks: map<ChunkKey, ChunkRange>, source: RunId, target: RunId)
    ensures MovedRows(chunks, source, target).Keys == MovedKeys(chunks, source, target) == Moved(LedgerKeys(chunks, source), target)
    ensures forall k :: k in MovedRows(chunks, source, target) ==> k.run == target
  {}

  /** Deleting a run's rows does not touch rows that were just inserted for another run. */
  lemma DeletedBeside(chunks: map<ChunkKey, ChunkRange>, inserted: map<ChunkKey, ChunkRange>, source: RunId, target: RunId)
    requires source != target && forall k :: k in inserted ==> k.run == target
    ensures LedgerKeys(chunks + inserted, source) == LedgerKeys(chunks, source)
    ensures chunks + inserted - LedgerKeys(chunks, source) == (map k | k in chunks && k.run != source :: chunks[k]) + inserted
  {
    forall k
      ensures k in chunks + inserted - LedgerKeys(chunks, source) <==> (k in chunks && k.run != source) || k in inserted
    {}
  }

  /** Inserting the moved rows and deleting the old ones moves the ledger, and both statements report the same count. */
  lemma Transferred(chunks: map<ChunkKey, ChunkRange>, source: RunId, target: RunId)
    requires source != target
    ensures var inserted := MovedRows(chunks, source, target);
            var deleted := LedgerKeys(chunks + inserted, source);
            && chunks + inserted - deleted == (map k | k in chunks && k.run != source :: chunks[k]) + inserted
            && |deleted| == |inserted|
  {
    var inserted := MovedRows(chunks, source, target);
    MovedRowKeys(chunks, source, target);
    KeysOfRun(chunks, source);
    hide MovedRows, MovedKeys, Moved, LedgerKeys;
    DeletedBeside(chunks, inserted, source, target);
    MovedCount(LedgerKeys(chunks, source), source, target);
    assert |inserted| == |inserted.Keys|;
  }

  lemma KeysOfRun(chunks: map<ChunkKey, ChunkRange>, run: RunId)
    ensures forall k :: k in LedgerKeys(chunks, run) ==> k.run == run
  {}

  class ImportDatabase {
    var runs: map<RunId, Run>
    var dumps: map<DumpKey, RunDump>
    var chunks: map<ChunkKey, ChunkRange>
    var catalog: map<Entity, CatalogState>
    var locks: map<Entity, Session>
    var content: map<Entity, Content>
    // bookkeeping of the model: the content before any commit, and the commits
    var base: map<Entity, Content>
    var history: seq<Commit>

    function Value(): Db
      reads this
    {
      Db(runs, dumps, chunks, catalog, locks, content, base, history)
    }

    method Restore(db: Db)
      modifies this
      ensures Value() == db
    {
      runs, dumps, chunks, catalog := db.runs, db.dumps, db.chunks, db.catalog;
      locks, content, base, history := db.locks, db.content, db.base, db.history;
    }

    // ----- advisory locks -----

    method TryAdvisoryLock(session: Session, entity: Entity) returns (acquired: bool)
      modifies this`locks
      ensures var r := TryLock(old(Value()), session, entity);
              acquired == r.Some? && Value() == if acquired then r.value else old(Value())
    {
      if entity in locks && locks[entity] != session {
        return false;
      }
      locks := locks[entity := session];
      return true;
    }

    method AdvisoryUnlock(session: Session, entity: Entity)
      modifies this`locks
      ensures Value() == Unlock(old(Value()), session, entity)
    {
      if entity in locks && locks[entity] == session {
        locks := locks - {entity};
      }
    }

    // ----- chunk workers -----

    /** Is the chunk recorded already, with the range the source gives it? */
    method ChunkAlreadyCompleted(order: Order, chunk: ChunkMetadata) returns (completed: Result<bool>)
      ensures var key := ChunkKey(order.run, order.entity, chunk.index);
              completed == if key !in chunks then Ok(false)
                           else if chunks[key] == chunk.range then Ok(true)
                           else Err("recorded range does not match source range")
    {
      var key := ChunkKey(order.run, order.entity, chunk.index);
      if key !in chunks {
        return Ok(false);
      }
      var recorded := chunks[key];
      if recorded.first != chunk.range.first || recorded.count != chunk.range.count {
        return Err("recorded range does not match source range");
      }
      return Ok(true);
    }

    /** Fence, insert the ledger row, update the summary; the number of updated summaries decides. */
    method RecordCompletedChunk(order: Order, chunk: ChunkMetadata) returns (updated: nat)
      modifies this`chunks, this`dumps
      ensures var r := Database.RecordCompletedChunk(old(Value()), order, chunk);
              (updated == 1 <==> r.Ok?) && (r.Ok? ==> Value() == r.value)
      ensures var k := DumpKey(order.run, order.entity);
              updated == 1 <==>
              && order.run in runs && runs[order.run].status == Running
              && ChunkKey(order.run, order.entity, chunk.index) !in old(chunks)
              && k in old(dumps) && old(dumps)[k].chunkSize == order.chunkSize && old(dumps)[k].completedAt.None?
      ensures updated == 1 ==>
                && chunks == old(chunks)[ChunkKey(order.run, order.entity, chunk.index) := chunk.range]
                && var k := DumpKey(order.run, order.entity);
                   dumps == old(dumps)[k := old(dumps)[k].(processedItems := old(dumps)[k].processedItems + chunk.range.count)]
    {
      if order.run !in runs || runs[order.run].status != Running {
        return 0;
      }
      var key := ChunkKey(order.run, order.entity, chunk.index);
      if key in chunks {
        return 0;
      }
      chunks := chunks[key := chunk.range];
      var summary := DumpKey(order.run, order.entity);
      if summary !in dumps || dumps[summary].chunkSize != order.chunkSize || dumps[summary].completedAt.Some? {
        return 0;
      }
      dumps := dumps[summary := dumps[summary].(processedItems := dumps[summary].processedItems + chunk.range.count)];
      return 1;
    }

    /** The chunk writer's statements: upsert the roots, then reconcile the relation table. */
    method Write(order: Order, chunk: ChunkMetadata, batch: Batch)
      modifies this`content, this`history
      ensures Value() == CommitBatch(old(Value()), order, chunk, batch)
    {
      hide ExistingRoots, DeleteStale, InsertMissing;
      var tables := EntityContent(content, order.entity);
      var roots := tables.roots + batch.rootRows;
      var existing := ExistingRoots(tables.relations, RootSet(batch.rootIDs));
      var relations := tables.relations;
      if existing != {} {
        relations := DeleteStale(relations, existing, batch.rows, true);
      }
      relations := InsertMissing(relations, batch.rows);
      content := content[order.entity := Content(roots, relations)];
      history := history + [ChunkCommit(order.run, order.entity, chunk.index, chunk.range, batch)];
    }

    /** Business rows and ledger row together, or neither. */
    method WriteAndRecord(order: Order, chunk: ChunkMetadata, batch: Batch) returns (ok: bool)
      modifies this
      ensures var r := Database.RecordCompletedChunk(CommitBatch(old(Value()), order, chunk, batch), order, chunk);
              ok == r.Ok? && Value() == if ok then r.value else old(Value())
    {
      hide CommitBatch, Database.RecordCompletedChunk;
      var begun := Value();
      Write(order, chunk, batch);
      var updated := RecordCompletedChunk(order, chunk);
      ok := updated == 1;
      if !ok {
        Restore(begun);
      }
    }

    /** The transaction of one chunk of a tracked order. */
    method ExecuteChunk(order: Order, chunk: ChunkMetadata, write: Result<Batch>) returns (outcome: Result<ChunkOutcome>)
      modifies this
      ensures var r := Database.ExecuteChunk(old(Value()), order, chunk, write);
              && outcome.Ok? == r.Ok?
              && (r.Ok? ==> outcome.value == r.value.1 && Value() == r.value.0)
              && (r.Err? ==> Value() == old(Value()))
      ensures if outcome.Ok? && outcome.value.Written? then
                write.Ok? && EntityWritten(old(content), order.entity, write.value, content)
              else content == old(content)
    {
      hide CommitBatch, Database.RecordCompletedChunk, EntityWritten;
      if order.resume {
        var completed := ChunkAlreadyCompleted(order, chunk);
        if completed.Err? {
          return Err(completed.error);
        }
        if completed.value {
          return Ok(AlreadyCompleted);
        }
      }
      if write.Err? {
        return Err(write.error);
      }
      RecordedBatch(Value(), order, chunk, write.value);
      var recorded := WriteAndRecord(order, chunk, write.value);
      if !recorded {
        return Err("run is not active, completion already exists, or run summary is unavailable");
      }
      return Ok(Written);
    }

    /** A transaction of root rows that is fenced after its writes. */
    method ExecuteActiveRunTransaction(order: Order, write: Result<map<int, int>>) returns (failure: Option<string>)
      modifies this
      ensures var r := InsertRoots(old(Value()), order, write);
              failure.None? == r.Ok? && Value() == if r.Ok? then r.value else old(Value())
      ensures failure.None? ==> write.Ok? && RootsWritten(old(content), order.entity, write.value, content)
    {
      WrittenRoots(Value(), order, write);
      hide RootsWritten;
      var begun := Value();
      if write.Err? {
        return Some(write.error);
      }
      var before := EntityContent(content, order.entity);
      content := content[order.entity := before.(roots := before.roots + write.value)];
      history := history + [RootCommit(order.run, order.entity, write.value)];
      if order.run !in runs || runs[order.run].status != Running {
        Restore(begun);
        return Some("run is not active");
      }
      return None;
    }

    /** Complete an entity when the coverage query finds every chunk of the source. */
    method CompleteEntityProgress(order: Order, totalItems: int, totalChunks: int, now: int) returns (failure: Option<string>)
      modifies this`dumps
      ensures var r := CompleteEntity(old(Value()), order, totalItems, totalChunks, now);
              failure.None? == r.Ok? && Value() == if r.Ok? then r.value else old(Value())
      ensures failure.None? ==>
                EntityFinished(old(Value()), DumpKey(order.run, order.entity), totalItems, totalChunks, now, Value())
      ensures failure.None? <==>
              CanFinish(old(Value()), DumpKey(order.run, order.entity), order.chunkSize, totalItems, totalChunks)
    {
      EntityCompletes(Value(), order, totalItems, totalChunks, now);
      EntityCompletesIff(Value(), order, totalItems, totalChunks, now);
      hide CoverageAccepts, LedgerOf, Items, EntityFinished, CanFinish;
      var completedChunks, completedItems, invalidChunks :=
        QueryCoverage(LedgerOf(chunks, order.run, order.entity), order.chunkSize, totalItems, totalChunks);
      var summary := DumpKey(order.run, order.entity);
      if order.run in runs && runs[order.run].status == Running && summary in dumps
         && dumps[summary].chunkSize == order.chunkSize && dumps[summary].processedItems == totalItems
         && completedChunks == totalChunks && completedItems == totalItems && invalidChunks == 0 {
        dumps := dumps[summary := dumps[summary].(
          totalItems := Some(totalItems), totalChunks := Some(totalChunks), completedAt := Some(now))];
        return None;
      }
      return Some("chunk coverage does not match");
    }

    // ----- recovery and resumption -----

    /** Fail the running runs that work on the given entities; the statement visits runs in any order. */
    method MarkAbandonedRuns(entities: set<Entity>, now: int)
      modifies this`runs
      ensures Value() == Database.MarkAbandonedRuns(old(Value()), entities, now)
      ensures Recovered(old(Value()), entities, now, Value())
    {
      RecoveryFails(Value(), entities, now);
      hide Recovered;
      ghost var before := Value();
      var rest := runs.Keys;
      while rest != {}
        invariant rest <= runs.Keys == before.runs.Keys
        invariant forall r :: r in runs ==>
                    runs[r] == if r !in rest && Abandoned(before, r, entities)
                               then before.runs[r].(status := Failed, completedAt := now) else before.runs[r]
        decreases |rest|
      {
        ghost var some := Pick(rest);
        var r :| r in rest;
        if runs[r].status == Running && EntitiesOf(dumps, r) * entities != {} {
          runs := runs[r := runs[r].(status := Failed, completedAt := now)];
        }
        rest := rest - {r};
      }
      assert runs == Database.MarkAbandonedRuns(before, entities, now).runs;
    }

    /**
     * Update the summaries of `target` from those of `source`, insert its ledger rows under the new run,
     * delete the old ones. The last row count always agrees; after a failure the caller rolls back.
     */
    method CopyResumeProgress(source: RunId, target: RunId, expected: int) returns (ok: bool)
      requires source != target && forall k :: k in chunks ==> k.run != target
      modifies this`dumps, this`chunks
      ensures var r := Database.CopyResumeProgress(old(Value()), source, target, expected);
              ok == r.Ok? && (ok ==> Value() == r.value)
    {
      ghost var before := Value();
      var matched := set e | e in EntitiesOf(dumps, target) && CopyMatches(Value(), source, target, e);
      dumps := CopiedSummaries(dumps, source, target, matched);
      if |matched| != expected {
        return false;
      }
      hide LedgerKeys;
      Transferred(chunks, source, target);
      var inserted := MovedRows(chunks, source, target);
      chunks := chunks + inserted;
      var deleted := LedgerKeys(chunks, source);
      chunks := chunks - deleted;
      ok := |deleted| == |inserted|;
    }

    /** Insert a successful run and the summaries the query found, then compare the row count; a failure rolls back. */
    method ConsolidateSuccessfulRun(plan: Plan, consolidated: map<Entity, RunDump>, newId: RunId, now: int) returns (ok: bool)
      modifies this`runs, this`dumps
      ensures ok <==> |consolidated| == |plan.dumps|
      ensures Value() == RecordConsolidated(old(Value()), plan, consolidated, newId, now)
    {
      runs := runs[newId := Run(plan.manifest, Success, now, false, 0, |history|)];
      var recorded := map k | k in (set e | e in consolidated :: DumpKey(newId, e)) :: consolidated[k.entity];
      dumps := dumps + recorded;
      ok := |consolidated| == |plan.dumps|;
    }

    /** The aggregate and the row conditions of the resumable-run query, for one entity of a run. */
    method SummaryResumable(run: RunId, e: Entity, plan: Plan) returns (ok: bool)
      requires DumpKey(run, e) in dumps
      ensures ok <==>
              && e in plan.revisions && dumps[DumpKey(run, e)].revision == plan.revisions[e]
              && dumps[DumpKey(run, e)].chunkSize == plan.chunkSize
              && dumps[DumpKey(run, e)].processedItems == Items(LedgerOf(chunks, run, e))
    {
      var _, items, _ := QueryCoverage(LedgerOf(chunks, run, e), plan.chunkSize, 0, 0);
      return e in plan.revisions && dumps[DumpKey(run, e)].revision == plan.revisions[e]
             && dumps[DumpKey(run, e)].chunkSize == plan.chunkSize
             && dumps[DumpKey(run, e)].processedItems == items;
    }

    method SummariesResumable(run: RunId, plan: Plan) returns (ok: bool)
      ensures ok <==> forall e :: e in EntitiesOf(dumps, run) ==>
                && e in plan.revisions && dumps[DumpKey(run, e)].revision == plan.revisions[e]
                && dumps[DumpKey(run, e)].chunkSize == plan.chunkSize
                && dumps[DumpKey(run, e)].processedItems == Items(LedgerOf(chunks, run, e))
    {
      hide Items, LedgerOf;
      var rest := EntitiesOf(dumps, run);
      while rest != {}
        invariant rest <= EntitiesOf(dumps, run)
        invariant forall e :: e in EntitiesOf(dumps, run) && e !in rest ==>
                    && e in plan.revisions && dumps[DumpKey(run, e)].revision == plan.revisions[e]
                    && dumps[DumpKey(run, e)].chunkSize == plan.chunkSize
                    && dumps[DumpKey(run, e)].processedItems == Items(LedgerOf(chunks, run, e))
        decreases |rest|
      {
        ghost var some := Pick(rest);
        var e :| e in rest;
        var fits := SummaryResumable(run, e, plan);
        if !fits {
          return false;
        }
        rest := rest - {e};
      }
      return true;
    }

    /** All filters of the resumable-run query for one run. */
    method IsResumable(run: RunId, plan: Plan, view: View) returns (ok: bool)
      requires run in runs
      ensures ok <==> Resumable(Value(), run, plan, view)
    {
      hide Items, LedgerOf, SupersededBy;
      var summaries := SummariesResumable(run, plan);
      if runs[run].manifest != plan.manifest || runs[run].status != Failed || runs[run].forceRequested
         || |EntitiesOf(dumps, run)| != |plan.dumps| || !summaries {
        return false;
      }
      if exists k :: k in chunks && k.run == run && DumpKey(run, k.entity) in dumps
                     && !(chunks[k].first == k.index * dumps[DumpKey(run, k.entity)].chunkSize
                          && chunks[k].count <= dumps[DumpKey(run, k.entity)].chunkSize) {
        return false;
      }
      return forall e :: e in EntitiesOf(dumps, run) ==> !SupersededBy(Value(), run, e, view);
    }

    /** `order by completed_at desc, id desc limit 1` over the resumable runs, visited in any order. */
    method FindResumableRun(plan: Plan, view: View) returns (found: RunId)
      requires forall r :: r in runs ==> 0 < r
      ensures found == Database.FindResumableRun(Value(), plan, view)
      ensures Finds(Value(), plan, view, found)
    {
      hide Resumable, Finds;
      LatestIsFound(Value(), plan, view);
      found := 0;
      var rest := runs.Keys;
      while rest != {}
        invariant rest <= runs.Keys
        invariant found == 0 ==> forall r :: r in runs && r !in rest ==> !Resumable(Value(), r, plan, view)
        invariant found != 0 ==>
                    found in runs && Resumable(Value(), found, plan, view)
                    && forall r :: r in runs && r !in rest && r != found && Resumable(Value(), r, plan, view) ==>
                         Later(Value(), found, r)
        decreases |rest|
      {
        ghost var some := Pick(rest);
        var r :| r in rest;
        var ok := IsResumable(r, plan, view);
        if ok && (found == 0 || Later(Value(), r, found)) {
          found := r;
        }
        rest := rest - {r};
      }
      LatestIsUnique(Value(), plan, view, found);
    }

    lemma LatestIsUnique(db: Db, plan: Plan, view: View, found: RunId)
      requires found == 0 ==> forall r :: r in db.runs ==> !Resumable(db, r, plan, view)
      requires found != 0 ==>
                 found in db.runs && Resumable(db, found, plan, view)
                 && forall r :: r in db.runs && r != found && Resumable(db, r, plan, view) ==> Later(db, found, r)
      ensures found == Database.FindResumableRun(db, plan, view)
    {
      hide Resumable;
      var candidates := set r | r in db.runs && Resumable(db, r, plan, view);
      if found != 0 {
        assert found in candidates;
        var latest := Latest(db, candidates);
        assert latest in candidates;
      }
    }
  }
}
