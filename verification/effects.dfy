/** The coordinator's transactions, read as changes of runs, ledgers and catalog states. */
module Effects {
  import opened Options
  import opened Sets
  import opened Database
  import opened Invariant
  import opened RunAdmission

  lemma {:induction false} DistinctCount(dumps: seq<Dump>)
    requires DistinctEntities(dumps)
    ensures |EntitiesIn(dumps)| == |dumps|
  {
    if dumps != [] {
      var n := |dumps| - 1;
      var before := dumps[..n];
      DistinctCount(before);
      assert EntitiesIn(dumps) == EntitiesIn(before) + {dumps[n].entity} by {
        assert dumps == before + [dumps[n]];
      }
      assert dumps[n].entity !in EntitiesIn(before) by {
        assert forall d :: d in before ==> d.entity != dumps[n].entity;
      }
    }
  }

  lemma AbandoningKeepsInv(db: Db, entities: set<Entity>, now: int)
    requires DbInv(db)
    ensures DbInv(MarkAbandonedRuns(db, entities, now))
    ensures Idle(MarkAbandonedRuns(db, entities, now), entities)
  {
    var db' := MarkAbandonedRuns(db, entities, now);
    ClosingKeepsInv(db, db'.runs);
    forall k | k in db'.dumps && k.entity in entities
      ensures !IsRunning(db'.runs, k.run)
    {
      assert k.entity in EntitiesOf(db.dumps, k.run) * entities;
    }
  }

  lemma InsertedRun(db: Db, n: RunId, plan: Plan, source: RunId)
    requires FreshRun(db, n) && source < n && PlanError(plan).None?
    requires forall k :: k in db.dumps ==> k.run in db.runs
    ensures var db' := InsertRun(db, n, plan, source);
            && RunAdded(db, n, Selected(plan), db')
            && db'.runs[n].status == Running && db'.runs[n].resumedFrom == source
            && db'.chunks == db.chunks && db'.catalog == db.catalog && db'.locks == db.locks
            && forall k :: k in db'.dumps && k.run == n ==> db'.dumps[k].processedItems == 0
  {
    var db' := InsertRun(db, n, plan, source);
    forall k
      ensures k in db'.dumps <==> k in db.dumps || (k.run == n && k.entity in Selected(plan))
    {
      if k.run == n && k.entity in Selected(plan) {
        var d :| d in plan.dumps && d.entity == k.entity;
      }
    }
  }

  lemma EntitiesAreKeys(dumps: map<DumpKey, RunDump>, run: RunId)
    ensures forall e :: e in EntitiesOf(dumps, run) <==> DumpKey(run, e) in dumps
  {}

  /** All summaries were copied: the two runs have the same entities. */
  lemma CopyCoversSelection(inserted: Db, source: RunId, n: RunId, entities: set<Entity>, db': Db)
    requires EntitiesOf(inserted.dumps, n) == entities
    requires |EntitiesOf(inserted.dumps, source)| == |entities|
    requires CopyResumeProgress(inserted, source, n, |entities|) == Ok(db')
    ensures EntitiesOf(inserted.dumps, source) == entities
    ensures forall e :: e in entities ==> CopyMatches(inserted, source, n, e)
  {
    var copied := set e | e in EntitiesOf(inserted.dumps, n) && CopyMatches(inserted, source, n, e);
    assert |copied| == |entities|;
    SubsetCardinality(copied, entities);
    forall e | e in entities
      ensures e in EntitiesOf(inserted.dumps, source)
    {
      assert e in copied;
      EntitiesAreKeys(inserted.dumps, source);
    }
    SubsetCardinality(entities, EntitiesOf(inserted.dumps, source));
  }

  lemma CopiedRows(db: Db, source: RunId, n: RunId, db': Db, expected: int)
    requires CopyResumeProgress(db, source, n, expected) == Ok(db') && source != n
    ensures db'.runs == db.runs && db'.history == db.history && db'.content == db.content && db'.base == db.base
    ensures db'.catalog == db.catalog && db'.locks == db.locks
    ensures db'.dumps.Keys == db.dumps.Keys
    ensures forall k :: k in db.dumps && k.run != n ==> db'.dumps[k] == db.dumps[k]
    ensures forall k :: k in db.dumps && k.run == n && CopyMatches(db, source, n, k.entity) ==>
              db'.dumps[k].processedItems == db.dumps[DumpKey(source, k.entity)].processedItems
  {
    EntitiesAreKeys(db.dumps, n);
  }

  lemma MovedRows(db: Db, source: RunId, n: RunId, db': Db, expected: int)
    requires CopyResumeProgress(db, source, n, expected) == Ok(db') && source != n
    requires forall k :: k in db.chunks ==> k.run != n
    ensures forall k: ChunkKey :: k in db'.chunks <==>
              if k.run == n then ChunkKey(source, k.entity, k.index) in db.chunks else k.run != source && k in db.chunks
    ensures forall k: ChunkKey :: k in db'.chunks ==>
              db'.chunks[k] == db.chunks[if k.run == n then ChunkKey(source, k.entity, k.index) else k]
  {
    forall k: ChunkKey | k.run == n && ChunkKey(source, k.entity, k.index) in db.chunks
      ensures k in db'.chunks && db'.chunks[k] == db.chunks[ChunkKey(source, k.entity, k.index)]
    {
      var key := ChunkKey(source, k.entity, k.index);
      assert ChunkKey(n, key.entity, key.index) == k;
    }
  }

  lemma ResumableIsResumed(db: Db, source: RunId, plan: Plan, view: View)
    requires Resumable(db, source, plan, view)
    ensures Resumed(db, source) && |EntitiesOf(db.dumps, source)| == |plan.dumps|
  {
    EntitiesAreKeys(db.dumps, source);
  }

  lemma CopiedProgress(db: Db, inserted: Db, n: RunId, entities: set<Entity>, source: RunId, db': Db)
    requires RowsOk(db.runs, db.dumps, db.chunks) && RunAdded(db, n, entities, inserted)
    requires inserted.chunks == db.chunks && inserted.runs[n].resumedFrom == source
    requires source in db.runs && |EntitiesOf(db.dumps, source)| == |entities|
    requires CopyResumeProgress(inserted, source, n, |entities|) == Ok(db')
    ensures RunAdded(db, n, entities, db') && db'.runs == inserted.runs
    ensures TookOver(db, source, n, db')
    ensures db'.catalog == inserted.catalog && db'.locks == inserted.locks
  {
    EntitiesAreKeys(inserted.dumps, n);
    EntitiesAreKeys(inserted.dumps, source);
    EntitiesAreKeys(db.dumps, source);
    assert EntitiesOf(inserted.dumps, source) == EntitiesOf(db.dumps, source);
    assert EntitiesOf(inserted.dumps, n) == entities;
    CopyCoversSelection(inserted, source, n, entities, db');
    CopiedRows(inserted, source, n, db', |entities|);
    MovedRows(inserted, source, n, db', |entities|);
  }

  // ----- catalog states -----

  /** Nothing but the catalog states of `entities` differs. */
  ghost predicate CatalogChanged(db: Db, entities: set<Entity>, db': Db) {
    && db' == db.(catalog := db'.catalog)
    && db'.catalog.Keys == db.catalog.Keys
    && forall e :: e in db.catalog && e !in entities ==> db'.catalog[e] == db.catalog[e]
  }

  lemma CatalogTransitions(db: Db, run: RunId, entities: set<Entity>, failure: string)
    ensures MarkImporting(db, run, entities).Ok? ==> CatalogChanged(db, entities, MarkImporting(db, run, entities).value)
    ensures MarkReady(db, run, entities).Ok? ==> CatalogChanged(db, entities, MarkReady(db, run, entities).value)
    ensures MarkFailed(db, run, entities, failure).Ok? ==>
              CatalogChanged(db, entities, MarkFailed(db, run, entities, failure).value)
    ensures MarkImporting(db, run, entities).Ok? ==>
              forall e :: e in entities ==> e in db.catalog && MarkImporting(db, run, entities).value.catalog[e].activeRun == run
  {}

  lemma CatalogKeepsInv(db: Db, entities: set<Entity>, db': Db)
    requires DbInv(db) && CatalogChanged(db, entities, db')
    ensures DbInv(db')
  {}

  // ----- whole transactions -----

  ghost predicate ActiveFor(db: Db, run: RunId, entities: set<Entity>) {
    forall e :: e in entities ==> e in db.catalog && db.catalog[e].activeRun == run
  }

  /** What an admitted run finds: its own row and dumps, and the progress it starts from. */
  ghost predicate Admitted(db: Db, n: RunId, entities: set<Entity>, source: RunId, db': Db) {
    && Prepared(db, n, entities, source, db')
    && ActiveFor(db', n, entities)
    && (forall e :: e in db.catalog && e !in entities ==> e in db'.catalog && db'.catalog[e] == db.catalog[e])
  }

  /** The run and its progress are in place; catalog states are not considered. */
  ghost predicate Prepared(db: Db, n: RunId, entities: set<Entity>, source: RunId, db': Db) {
    && RunAdded(db, n, entities, db')
    && db'.runs[n].status == Running && db'.runs[n].resumedFrom == source
    && db'.locks == db.locks
    && (if source == 0 then StartedEmpty(db, n, db') else TookOver(db, source, n, db'))
  }

  lemma ResumeEffects(db: Db, inserted: Db, n: RunId, entities: set<Entity>, source: RunId, resumed: Db)
    requires RowsOk(db.runs, db.dumps, db.chunks) && RunAdded(db, n, entities, inserted)
    requires inserted.runs[n].status == Running && inserted.runs[n].resumedFrom == source
    requires inserted.chunks == db.chunks && inserted.catalog == db.catalog && inserted.locks == db.locks
    requires forall k :: k in inserted.dumps && k.run == n ==> inserted.dumps[k].processedItems == 0
    requires source != 0 ==> source in db.runs && |EntitiesOf(db.dumps, source)| == |entities|
    requires ResumeInto(inserted, source, n, |entities|) == Ok(resumed)
    ensures Prepared(db, n, entities, source, resumed) && resumed.catalog == db.catalog
  {
    if source != 0 {
      CopiedProgress(db, inserted, n, entities, source, resumed);
    }
  }

  lemma PreparedKeepsInv(db: Db, n: RunId, entities: set<Entity>, source: RunId, db': Db)
    requires DbInv(db) && Idle(db, entities) && Prepared(db, n, entities, source, db')
    requires source != 0 ==> Resumed(db, source)
    ensures DbInv(db')
  {
    if source == 0 {
      StartedEmptyKeepsInv(db, n, entities, db');
    } else {
      TookOverKeepsInv(db, source, n, entities, db');
    }
  }

  lemma FinishStartEffects(resumed: Db, n: RunId, source: RunId, entities: set<Entity>, bootstrapOk: bool, db': Db)
    requires FinishStart(Ok(resumed), n, source, entities, bootstrapOk) == Ok((db', Started(n, source)))
    ensures CatalogChanged(resumed, entities, db') && ActiveFor(db', n, entities)
  {
    CatalogTransitions(resumed, n, entities, "");
  }

  lemma CatalogKeepsPrepared(db: Db, n: RunId, entities: set<Entity>, source: RunId, resumed: Db, db': Db)
    requires Prepared(db, n, entities, source, resumed) && resumed.catalog == db.catalog
    requires CatalogChanged(resumed, entities, db') && ActiveFor(db', n, entities)
    ensures Admitted(db, n, entities, source, db')
  {}

  lemma StartedWith(db: Db, plan: Plan, view: View, n: RunId, bootstrapOk: bool, db': Db, source: RunId)
    requires PlanError(plan).None?
    requires StartTx(db, plan, view, n, bootstrapOk) == Ok((db', Started(n, source)))
    ensures source == SourceOf(db, plan, view)
    ensures forall d :: d in plan.dumps ==> d.entity in plan.revisions
    ensures FinishStart(ResumeInto(InsertRun(db, n, plan, source), source, n, |plan.dumps|), n, source, Selected(plan), bootstrapOk)
            == Ok((db', Started(n, source)))
  {
    hide InsertRun, ResumeInto, FinishStart, SourceOf;
  }

  lemma PlanIsDistinct(plan: Plan)
    requires PlanError(plan).None?
    ensures DistinctEntities(plan.dumps) && Selected(plan) == EntitiesIn(plan.dumps)
  {}

  lemma StartEffects(db: Db, plan: Plan, view: View, n: RunId, bootstrapOk: bool, db': Db, source: RunId)
    requires FreshRun(db, n) && source < n && PlanError(plan).None? && RowsOk(db.runs, db.dumps, db.chunks)
    requires StartTx(db, plan, view, n, bootstrapOk) == Ok((db', Started(n, source)))
    ensures Admitted(db, n, Selected(plan), source, db')
    ensures source == SourceOf(db, plan, view)
  {
    StartedWith(db, plan, view, n, bootstrapOk, db', source);
    PlanIsDistinct(plan);
    hide StartTx, PlanError, Resumable, FinishStart, ResumeInto, RunAdded, Admitted;
    var inserted, entities := InsertRun(db, n, plan, source), Selected(plan);
    InsertedRun(db, n, plan, source);
    DistinctCount(plan.dumps);
    assert |entities| == |plan.dumps|;
    if source != 0 {
      assert source == FindResumableRun(db, plan, view);
      ResumableIsResumed(db, source, plan, view);
    }
    StartedFrom(db, inserted, n, entities, source, bootstrapOk, db');
  }

  lemma StartedFrom(db: Db, inserted: Db, n: RunId, entities: set<Entity>, source: RunId, bootstrapOk: bool, db': Db)
    requires RowsOk(db.runs, db.dumps, db.chunks) && RunAdded(db, n, entities, inserted)
    requires inserted.runs[n].status == Running && inserted.runs[n].resumedFrom == source
    requires inserted.chunks == db.chunks && inserted.catalog == db.catalog && inserted.locks == db.locks
    requires forall k :: k in inserted.dumps && k.run == n ==> inserted.dumps[k].processedItems == 0
    requires source != 0 ==> source in db.runs && |EntitiesOf(db.dumps, source)| == |entities|
    requires FinishStart(ResumeInto(inserted, source, n, |entities|), n, source, entities, bootstrapOk)
             == Ok((db', Started(n, source)))
    ensures Admitted(db, n, entities, source, db')
  {
    var resumed := ResumeInto(inserted, source, n, |entities|).value;
    ResumeEffects(db, inserted, n, entities, source, resumed);
    FinishStartEffects(resumed, n, source, entities, bootstrapOk, db');
    CatalogKeepsPrepared(db, n, entities, source, resumed, db');
  }

  /** An admitted run: the invariant holds, and the catalog names the run active for its entities. */
  lemma StartKeepsInv(db: Db, plan: Plan, view: View, n: RunId, bootstrapOk: bool, db': Db, source: RunId)
    requires DbInv(db) && FreshRun(db, n) && source < n && PlanError(plan).None? && Idle(db, Selected(plan))
    requires StartTx(db, plan, view, n, bootstrapOk) == Ok((db', Started(n, source)))
    ensures DbInv(db') && Admitted(db, n, Selected(plan), source, db')
  {
    StartEffects(db, plan, view, n, bootstrapOk, db', source);
    if source != 0 {
      assert source == FindResumableRun(db, plan, view);
      ResumableIsResumed(db, source, plan, view);
    }
    PreparedKeepsInv(db, n, Selected(plan), source, db');
  }

  lemma ConsolidatedRows(db: Db, plan: Plan, consolidated: map<Entity, RunDump>, n: RunId, now: int)
    requires FreshRun(db, n) && RowsOk(db.runs, db.dumps, db.chunks)
    ensures RunAdded(db, n, consolidated.Keys, RecordConsolidated(db, plan, consolidated, n, now))
  {
    var recorded := RecordConsolidated(db, plan, consolidated, n, now);
    forall k
      ensures k in recorded.dumps <==> k in db.dumps || (k.run == n && k.entity in consolidated.Keys)
    {
      if k.run == n && k.entity in consolidated.Keys { assert DumpKey(n, k.entity) == k; }
    }
  }

  lemma FinishSkipKeepsInv(recorded: Db, run: RunId, entities: set<Entity>, db': Db)
    requires DbInv(recorded)
    requires FinishSkip(recorded, run, entities) == Ok((db', Skipped(run)))
    ensures DbInv(db') && CatalogChanged(recorded, entities, db')
  {
    CatalogTransitions(recorded, run, entities, "");
    CatalogKeepsInv(recorded, entities, db');
  }

  /** A skipped admission adds at most one successful run and leaves every earlier run alone. */
  ghost predicate SkipEffects(db: Db, n: RunId, added: set<Entity>, entities: set<Entity>, db': Db) {
    && db'.locks == db.locks && db'.chunks == db.chunks && db'.history == db.history
    && (|| (db'.runs == db.runs && db'.dumps == db.dumps)
        || (RunAdded(db, n, added, db') && db'.runs[n].status == Success))
    && (forall e :: e in db.catalog && e !in entities ==> e in db'.catalog && db'.catalog[e] == db.catalog[e])
  }

  lemma ConsolidationKeepsInv(db: Db, n: RunId, added: set<Entity>, recorded: Db, entities: set<Entity>, db': Db)
    requires DbInv(db) && RunAdded(db, n, added, recorded) && recorded.chunks == db.chunks
    requires recorded.runs[n].status == Success && recorded.runs[n].resumedFrom == 0
    requires recorded.locks == db.locks && recorded.catalog == db.catalog
    requires FinishSkip(recorded, n, entities) == Ok((db', Skipped(n)))
    ensures DbInv(db')
  {
    ConsolidatedKeepsInv(db, n, added, recorded);
    FinishSkipKeepsInv(recorded, n, entities, db');
  }

  lemma ConsolidationEffects(db: Db, n: RunId, added: set<Entity>, recorded: Db, entities: set<Entity>, db': Db)
    requires RunAdded(db, n, added, recorded) && recorded.chunks == db.chunks
    requires recorded.runs[n].status == Success && recorded.runs[n].resumedFrom == 0
    requires recorded.locks == db.locks && recorded.catalog == db.catalog
    requires FinishSkip(recorded, n, entities) == Ok((db', Skipped(n)))
    ensures SkipEffects(db, n, added, entities, db')
  {
    CatalogTransitions(recorded, n, entities, "");
  }

  lemma SkipKeepsInv(
      db: Db, plan: Plan, compat: Compatibility, consolidated: map<Entity, RunDump>, n: RunId, now: int, db': Db, run: RunId)
    requires DbInv(db) && FreshRun(db, n)
    requires SkipTx(db, plan, compat, consolidated, n, now) == Ok((db', Skipped(run)))
    ensures DbInv(db') && SkipEffects(db, n, consolidated.Keys, Selected(plan), db')
  {
    if compat.exactRun != 0 {
      FinishSkipKeepsInv(db, run, Selected(plan), db');
    } else {
      ConsolidatedRows(db, plan, consolidated, n, now);
      var recorded := RecordConsolidated(db, plan, consolidated, n, now);
      ConsolidationEffects(db, n, consolidated.Keys, recorded, Selected(plan), db');
      ConsolidationKeepsInv(db, n, consolidated.Keys, recorded, Selected(plan), db');
    }
  }

  lemma PrunedRows(db: Db, run: RunId, view: View)
    requires run in db.runs && db.runs[run].status != Running
    ensures Pruned(db.runs, db.chunks, PruneChunks(db, run, view))
    ensures forall k :: k in PruneChunks(db, run, view) ==> k in db.chunks && PruneChunks(db, run, view)[k] == db.chunks[k]
  {
    var chunks' := PruneChunks(db, run, view);
    forall r | r in db.runs
      ensures (Emptied(chunks', r) && db.runs[r].status != Running) || SameRows(db.chunks, chunks', r)
    {
      if r == run || ProgressSuperseded(db.runs, db.dumps, r, view) {
        assert Emptied(chunks', r);
      }
    }
  }

  lemma FailureEffects(closed: Db, run: RunId, entities: set<Entity>, failure: string, db': Db)
    requires FinishFailure(closed, run, entities, failure) == Ok((db', false))
    ensures CatalogChanged(closed, entities, db')
  {
    CatalogTransitions(closed, run, entities, failure);
  }

  lemma SuccessEffects(closed: Db, run: RunId, entities: set<Entity>, view: View, bootstrapOk: bool, db': Db)
    requires FinishSuccess(closed, run, entities, view, bootstrapOk) == Ok((db', true))
    ensures CatalogChanged(closed, entities, db'.(chunks := closed.chunks))
    ensures db'.chunks == PruneChunks(closed, run, view)
  {
    CatalogTransitions(closed, run, entities, "");
  }

  lemma CompleteEffects(
      db: Db, run: RunId, entities: set<Entity>, runErr: Option<string>, view: View, now: int, bootstrapOk: bool,
      db': Db, success: bool)
    requires CompleteTx(db, run, entities, runErr, view, now, bootstrapOk) == Ok((db', success))
    ensures IsRunning(db.runs, run)
    ensures var closed := CloseRun(db, run, if success then Success else Failed, now);
            && CatalogChanged(closed, entities, db'.(chunks := db.chunks))
            && db'.chunks == if success then PruneChunks(closed, run, view) else db.chunks
    ensures success <==> runErr.None? && !HasIncompleteDump(db, run)
  {
    var failure := if runErr.Some? then runErr.value else "incomplete entities";
    var closed := CloseRun(db, run, if success then Success else Failed, now);
    if success {
      SuccessEffects(closed, run, entities, view, bootstrapOk, db');
    } else {
      FailureEffects(closed, run, entities, failure, db');
    }
  }

  /** Completion closes the run, keeps the invariant, and touches no other run. */
  lemma CompleteKeepsInv(
      db: Db, run: RunId, entities: set<Entity>, runErr: Option<string>, view: View, now: int, bootstrapOk: bool,
      db': Db, success: bool)
    requires DbInv(db)
    requires CompleteTx(db, run, entities, runErr, view, now, bootstrapOk) == Ok((db', success))
    ensures DbInv(db') && db'.dumps == db.dumps && db'.locks == db.locks
    ensures db'.runs.Keys == db.runs.Keys && !IsRunning(db'.runs, run) && IsRunning(db.runs, run)
    ensures forall r :: r in db.runs && r != run ==> db'.runs[r] == db.runs[r]
    ensures forall e :: e in db.catalog && e !in entities ==> e in db'.catalog && db'.catalog[e] == db.catalog[e]
  {
    hide DbInv, PruneChunks, CompleteTx, HasIncompleteDump, Pruned;
    CompleteEffects(db, run, entities, runErr, view, now, bootstrapOk, db', success);
    var closed := CloseRun(db, run, if success then Success else Failed, now);
    ClosingKeepsInv(db, closed.runs);
    if success {
      PrunedRows(closed, run, view);
      PruningKeepsInv(closed, db'.chunks);
    }
    CatalogKeepsInv(closed.(chunks := db'.chunks), entities, db');
  }

  // ----- the steps that an admitted run skips -----

  /** The flag of each summary is what the run's own row says of its entity: complete, so that its step is skipped. */
  ghost predicate SkipsComplete(dumps: map<DumpKey, RunDump>, n: RunId) {
    forall k :: k in dumps && k.run == n ==> (dumps[k].skipped <==> !IncompleteDump(dumps[k]))
  }

  lemma InsertedSkipsNothing(db: Db, n: RunId, plan: Plan, source: RunId)
    requires FreshRun(db, n) && RowsOk(db.runs, db.dumps, db.chunks)
    requires forall d :: d in plan.dumps ==> d.entity in plan.revisions
    ensures SkipsComplete(InsertRun(db, n, plan, source).dumps, n)
  {
    forall k | k in InsertRun(db, n, plan, source).dumps && k.run == n
      ensures k in NewSummaries(plan, n, Selected(plan))
    {}
  }

  lemma CopySkipsComplete(db: Db, source: RunId, n: RunId, expected: int, db': Db)
    requires CopyResumeProgress(db, source, n, expected) == Ok(db') && SkipsComplete(db.dumps, n)
    ensures SkipsComplete(db'.dumps, n)
  {}

  /** A run skips an entity exactly when its summary is complete right after its admission. */
  lemma StartSkipsComplete(db: Db, plan: Plan, view: View, n: RunId, bootstrapOk: bool, db': Db, source: RunId)
    requires FreshRun(db, n) && RowsOk(db.runs, db.dumps, db.chunks) && PlanError(plan).None?
    requires StartTx(db, plan, view, n, bootstrapOk) == Ok((db', Started(n, source)))
    ensures SkipsComplete(db'.dumps, n)
  {
    StartedWith(db, plan, view, n, bootstrapOk, db', source);
    hide StartTx, PlanError, RowsOk, FreshRun, InsertRun, CopyResumeProgress, SkipsComplete;
    var inserted := InsertRun(db, n, plan, source);
    InsertedSkipsNothing(db, n, plan, source);
    var resumed := ResumeInto(inserted, source, n, |plan.dumps|).value;
    if source != 0 {
      CopySkipsComplete(inserted, source, n, |plan.dumps|, resumed);
    }
    CatalogTransitions(resumed, n, Selected(plan), "");
  }
}
