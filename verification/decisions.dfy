/** What an admission decides, and what it leaves in the tables, row by row and field by field. */
module Decisions {
  import opened Options
  import opened Sets
  import opened Coverage
  import opened Database
  import opened Invariant
  import opened RunAdmission
  import opened Effects
  import opened Resumption

  // ----- the decision -----

  /** A plan that can be admitted: some dumps, each entity at most once, known revisions, and chunks of some size. */
  ghost predicate WellPosed(plan: Plan) {
    && 0 < |plan.dumps| && 0 < plan.chunkSize
    && (forall i, j :: 0 <= i < j < |plan.dumps| ==> plan.dumps[i].entity != plan.dumps[j].entity)
    && (forall d :: d in plan.dumps ==> d.entity in plan.revisions && 0 < plan.revisions[d.entity])
  }

  lemma WellPosedMeans(plan: Plan)
    ensures WellPosed(plan) <==> PlanError(plan).None?
  {}

  /** No dump of the plan is older than what its entity's checkpoint applied, unless that is allowed. */
  ghost predicate UpToDate(plan: Plan, view: View) {
    plan.allowDowngrade || forall d :: d in plan.dumps ==> CurrentDump(d, view)
  }

  ghost predicate CurrentDump(d: Dump, view: View) {
    d.entity in view ==> view[d.entity].dumpDate.None? || view[d.entity].dumpDate.value <= d.date
  }

  lemma UpToDateMeans(plan: Plan, view: View)
    ensures UpToDate(plan, view) <==> !IsDowngrade(plan, view)
  {
    if !plan.allowDowngrade && !UpToDate(plan, view) {
      var d :| d in plan.dumps && !CurrentDump(d, view);
      assert d.entity in view;
    }
  }

  /**
   * A successful admission skips exactly the satisfied plans without `force`; a partly satisfied one and one
   * with an outdated dump are refused.
   */
  lemma AdmissionIsDecided(
      db: Db, plan: Plan, view: View, compat: Compatibility, consolidated: map<Entity, RunDump>,
      n: RunId, now: int, bootstrapOk: bool)
    requires PlanError(plan).None?
    ensures var r := AdmitTx(db, plan, view, compat, consolidated, n, now, bootstrapOk);
            && (r.Ok? ==> (r.value.1.Skipped? <==> !plan.force && compat.selected == |plan.dumps| == compat.compatible))
            && (r.Ok? ==> UpToDate(plan, view))
            && (!plan.force && compat.selected == |plan.dumps| && 0 < compat.compatible < compat.selected ==> r.Err?)
  {
    hide PlanError, Selected, MarkAbandonedRuns, UpToDate, IsDowngrade, SourceOf, SkipTx, StartTx;
    UpToDateMeans(plan, view);
  }

  // ----- the rows of a new run -----

  /** A summary as the plan describes it. */
  ghost predicate Planned(d: RunDump, plan: Plan, e: Entity) {
    && d.chunkSize == plan.chunkSize && e in plan.revisions && d.revision == plan.revisions[e]
    && exists dump :: dump in plan.dumps && dump.entity == e && dump.dumpId == d.dumpId
  }

  predicate Blank(d: RunDump) {
    d.processedItems == 0 && d.totalItems.None? && d.totalChunks.None? && d.completedAt.None? && !d.skipped
  }

  /** The new run and its summaries, one for each selected entity. */
  ghost predicate RowsOf(db: Db, n: RunId, plan: Plan, source: RunId, db': Db) {
    && n in db'.runs && db'.runs[n] == Run(plan.manifest, Running, 0, plan.force, source, |db.history|)
    && (forall e :: DumpKey(n, e) in db'.dumps <==> e in Selected(plan))
    && (forall e :: e in Selected(plan) ==> Planned(db'.dumps[DumpKey(n, e)], plan, e))
  }

  /** Nothing is taken over: no item is counted, no entity is complete or skipped, no chunk is recorded. */
  ghost predicate FromZero(db: Db, n: RunId, plan: Plan, db': Db)
    requires forall e :: e in Selected(plan) ==> DumpKey(n, e) in db'.dumps
  {
    && (forall e :: e in Selected(plan) ==> Blank(db'.dumps[DumpKey(n, e)]))
    && (forall k :: k in db'.chunks ==> k.run != n)
    && db'.chunks == db.chunks
  }

  /** One summary continues the other, of the same dump. */
  predicate Continues(d: RunDump, was: RunDump) {
    && d.dumpId == was.dumpId && d.processedItems == was.processedItems
    && d.totalItems == was.totalItems && d.totalChunks == was.totalChunks && d.completedAt == was.completedAt
    && (d.skipped <==> !IncompleteDump(was))
  }

  /** Every summary continues that of the failed run, which had no other. */
  ghost predicate SummariesContinue(dumps: map<DumpKey, RunDump>, source: RunId, n: RunId, entities: set<Entity>,
                                    dumps': map<DumpKey, RunDump>)
    requires forall e :: e in entities ==> DumpKey(n, e) in dumps'
  {
    && (forall e :: DumpKey(source, e) in dumps <==> e in entities)
    && (forall e :: e in entities ==> Continues(dumps'[DumpKey(n, e)], dumps[DumpKey(source, e)]))
  }

  /** The recorded chunks of one run now belong to the other. */
  ghost predicate ChunksMoved(chunks: map<ChunkKey, ChunkRange>, source: RunId, n: RunId, chunks': map<ChunkKey, ChunkRange>) {
    && (forall e, i :: ChunkKey(n, e, i) in chunks' <==> ChunkKey(source, e, i) in chunks)
    && (forall e, i :: ChunkKey(n, e, i) in chunks' ==> chunks'[ChunkKey(n, e, i)] == chunks[ChunkKey(source, e, i)])
    && (forall k :: k in chunks' && k.run != n ==> k.run != source && k in chunks && chunks'[k] == chunks[k])
    && (forall k :: k in chunks && k.run != source ==> k in chunks' && chunks'[k] == chunks[k])
  }

  ghost predicate TakesOver(db: Db, source: RunId, n: RunId, plan: Plan, db': Db)
    requires forall e :: e in Selected(plan) ==> DumpKey(n, e) in db'.dumps
  {
    SummariesContinue(db.dumps, source, n, Selected(plan), db'.dumps) && ChunksMoved(db.chunks, source, n, db'.chunks)
  }

  /** The rows of a started run. */
  ghost predicate StartedRows(db: Db, n: RunId, plan: Plan, source: RunId, db': Db) {
    && RowsOf(db, n, plan, source, db')
    && (if source == 0 then FromZero(db, n, plan, db') else TakesOver(db, source, n, plan, db'))
    && (plan.force ==> source == 0)
  }

  lemma InsertedRows(db: Db, n: RunId, plan: Plan, source: RunId)
    requires FreshRun(db, n) && RowsOk(db.runs, db.dumps, db.chunks) && PlanError(plan).None?
    ensures var db' := InsertRun(db, n, plan, source);
            RowsOf(db, n, plan, source, db') && FromZero(db, n, plan, db')
  {
    var db' := InsertRun(db, n, plan, source);
    var added := NewSummaries(plan, n, Selected(plan));
    forall e
      ensures DumpKey(n, e) in added <==> e in Selected(plan)
      ensures e in Selected(plan) ==> db'.dumps[DumpKey(n, e)] == NewSummary(plan, e)
    {}
    forall e | e in Selected(plan)
      ensures Planned(NewSummary(plan, e), plan, e) && Blank(NewSummary(plan, e))
    {}
  }

  /** The copy keeps what the plan says of a summary and continues the other. */
  lemma CopiedSummary(db: Db, source: RunId, n: RunId, e: Entity, plan: Plan)
    requires CopyMatches(db, source, n, e) && Planned(db.dumps[DumpKey(n, e)], plan, e)
    ensures var d := TakeOver(db.dumps[DumpKey(n, e)], db.dumps[DumpKey(source, e)]);
            Planned(d, plan, e) && Continues(d, db.dumps[DumpKey(source, e)])
  {}

  lemma CopiedAll(inserted: Db, source: RunId, n: RunId, entities: set<Entity>, db': Db, e: Entity)
    requires CopyResumeProgress(inserted, source, n, |entities|) == Ok(db')
    requires e in entities && DumpKey(n, e) in inserted.dumps && CopyMatches(inserted, source, n, e)
    ensures DumpKey(n, e) in db'.dumps
    ensures db'.dumps[DumpKey(n, e)] == TakeOver(inserted.dumps[DumpKey(n, e)], inserted.dumps[DumpKey(source, e)])
  {
    EntitiesAreKeys(inserted.dumps, n);
  }

  /** The two runs have the same entities, and of each the same dump. */
  lemma CopyIsTotal(db: Db, inserted: Db, n: RunId, entities: set<Entity>, source: RunId, db': Db)
    requires source != n && |EntitiesOf(db.dumps, source)| == |entities|
    requires forall k: DumpKey :: k.run != n ==> (k in inserted.dumps <==> k in db.dumps)
    requires forall e :: DumpKey(n, e) in inserted.dumps <==> e in entities
    requires CopyResumeProgress(inserted, source, n, |entities|) == Ok(db')
    ensures forall e :: DumpKey(source, e) in db.dumps <==> e in entities
    ensures forall e :: e in entities ==> CopyMatches(inserted, source, n, e)
  {
    EntitiesAreKeys(inserted.dumps, n);
    EntitiesAreKeys(inserted.dumps, source);
    EntitiesAreKeys(db.dumps, source);
    hide CopyResumeProgress, CopyMatches, EntitiesOf;
    assert EntitiesOf(inserted.dumps, source) == EntitiesOf(db.dumps, source);
    assert EntitiesOf(inserted.dumps, n) == entities;
    CopyCoversSelection(inserted, source, n, entities, db');
  }

  lemma ResumedSummary(db: Db, inserted: Db, n: RunId, plan: Plan, source: RunId, db': Db, e: Entity)
    requires source != n && |EntitiesOf(db.dumps, source)| == |Selected(plan)|
    requires forall k: DumpKey :: k.run != n ==> (k in inserted.dumps <==> k in db.dumps)
    requires forall k :: k in db.dumps && k.run != n ==> inserted.dumps[k] == db.dumps[k]
    requires forall e :: DumpKey(n, e) in inserted.dumps <==> e in Selected(plan)
    requires CopyResumeProgress(inserted, source, n, |Selected(plan)|) == Ok(db')
    requires e in Selected(plan) && Planned(inserted.dumps[DumpKey(n, e)], plan, e)
    ensures DumpKey(source, e) in db.dumps && DumpKey(n, e) in db'.dumps
    ensures Planned(db'.dumps[DumpKey(n, e)], plan, e)
    ensures Continues(db'.dumps[DumpKey(n, e)], db.dumps[DumpKey(source, e)])
  {
    hide Selected, EntitiesOf, CopyResumeProgress, CopyMatches, Planned, Continues, TakeOver;
    CopyIsTotal(db, inserted, n, Selected(plan), source, db');
    CopiedAll(inserted, source, n, Selected(plan), db', e);
    CopiedSummary(inserted, source, n, e, plan);
  }

  lemma ResumedChunks(inserted: Db, n: RunId, source: RunId, expected: int, db': Db)
    requires source != n && forall k :: k in inserted.chunks ==> k.run != n
    requires CopyResumeProgress(inserted, source, n, expected) == Ok(db')
    ensures ChunksMoved(inserted.chunks, source, n, db'.chunks)
  {
    hide CopyResumeProgress;
    MovedRows(inserted, source, n, db', expected);
  }

  /** What the insertion of a run leaves to the copy. */
  ghost predicate Inserted(db: Db, n: RunId, plan: Plan, source: RunId, inserted: Db) {
    && RowsOf(db, n, plan, source, inserted)
    && inserted.chunks == db.chunks && (forall k :: k in db.chunks ==> k.run != n)
    && (forall k: DumpKey :: k.run != n ==> (k in inserted.dumps <==> k in db.dumps))
    && (forall k :: k in db.dumps && k.run != n ==> inserted.dumps[k] == db.dumps[k])
  }

  lemma ResumedRows(db: Db, inserted: Db, n: RunId, plan: Plan, source: RunId, db': Db)
    requires source != n && Inserted(db, n, plan, source, inserted)
    requires |EntitiesOf(db.dumps, source)| == |Selected(plan)|
    requires CopyResumeProgress(inserted, source, n, |Selected(plan)|) == Ok(db')
    ensures RowsOf(db, n, plan, source, db') && TakesOver(db, source, n, plan, db')
  {
    hide CopyResumeProgress, Selected, Planned, Continues, EntitiesOf, ChunksMoved;
    CopyIsTotal(db, inserted, n, Selected(plan), source, db');
    CopiedRows(inserted, source, n, db', |Selected(plan)|);
    ResumedChunks(inserted, n, source, |Selected(plan)|, db');
    forall e | e in Selected(plan)
      ensures Planned(db'.dumps[DumpKey(n, e)], plan, e)
      ensures DumpKey(source, e) in db.dumps && Continues(db'.dumps[DumpKey(n, e)], db.dumps[DumpKey(source, e)])
    {
      ResumedSummary(db, inserted, n, plan, source, db', e);
    }
  }

  lemma InsertedIs(db: Db, n: RunId, plan: Plan, source: RunId)
    requires FreshRun(db, n) && RowsOk(db.runs, db.dumps, db.chunks) && PlanError(plan).None?
    ensures Inserted(db, n, plan, source, InsertRun(db, n, plan, source))
    ensures FromZero(db, n, plan, InsertRun(db, n, plan, source))
  {
    InsertedRows(db, n, plan, source);
    hide RowsOf, FromZero, PlanError, Selected;
    var inserted := InsertRun(db, n, plan, source);
    forall k: DumpKey | k.run != n
      ensures k !in NewSummaries(plan, n, Selected(plan))
    {}
  }

  /** Marking catalog states changes no run, summary or chunk. */
  lemma CatalogKeepsStarted(db: Db, n: RunId, plan: Plan, source: RunId, resumed: Db, db': Db)
    requires StartedRows(db, n, plan, source, resumed)
    requires db'.runs == resumed.runs && db'.dumps == resumed.dumps && db'.chunks == resumed.chunks
    ensures StartedRows(db, n, plan, source, db')
  {
    hide Planned, Blank, Continues, Selected;
  }

  /** The rows a started run finds; a forced plan takes nothing over. */
  lemma StartLeaves(db: Db, plan: Plan, view: View, n: RunId, bootstrapOk: bool, db': Db, source: RunId)
    requires FreshRun(db, n) && RowsOk(db.runs, db.dumps, db.chunks) && PlanError(plan).None?
    requires StartTx(db, plan, view, n, bootstrapOk) == Ok((db', Started(n, source)))
    ensures StartedRows(db, n, plan, source, db')
  {
    StartedWith(db, plan, view, n, bootstrapOk, db', source);
    PlanIsDistinct(plan);
    DistinctCount(plan.dumps);
    InsertedIs(db, n, plan, source);
    hide StartTx, PlanError, RowsOk, InsertRun, CopyResumeProgress, RowsOf, FromZero, TakesOver, Selected, Resumable;
    var inserted := InsertRun(db, n, plan, source);
    var resumed := ResumeInto(inserted, source, n, |plan.dumps|).value;
    if source != 0 {
      ResumableIsResumed(db, source, plan, view);
      ResumedRows(db, inserted, n, plan, source, resumed);
    }
    CatalogTransitions(resumed, n, Selected(plan), "");
    CatalogKeepsStarted(db, n, plan, source, resumed, db');
  }

  // ----- recovery -----

  /** Exactly the running runs with a summary of one of the entities have failed, just now. */
  ghost predicate Recovered(db: Db, entities: set<Entity>, now: int, db': Db) {
    && db' == db.(runs := db'.runs) && db'.runs.Keys == db.runs.Keys
    && forall r :: r in db.runs ==>
         db'.runs[r] == if db.runs[r].status == Running && WorksOn(db.dumps, r, entities)
                        then db.runs[r].(status := Failed, completedAt := now) else db.runs[r]
  }

  ghost predicate WorksOn(dumps: map<DumpKey, RunDump>, r: RunId, entities: set<Entity>) {
    exists e :: e in entities && DumpKey(r, e) in dumps
  }

  lemma RecoveryFails(db: Db, entities: set<Entity>, now: int)
    ensures Recovered(db, entities, now, MarkAbandonedRuns(db, entities, now))
  {
    forall r
      ensures EntitiesOf(db.dumps, r) * entities != {} <==> WorksOn(db.dumps, r, entities)
    {
      Meets(db.dumps, r, entities);
    }
    hide EntitiesOf, WorksOn;
  }

  lemma Meets(dumps: map<DumpKey, RunDump>, r: RunId, entities: set<Entity>)
    ensures EntitiesOf(dumps, r) * entities != {} <==> WorksOn(dumps, r, entities)
  {
    EntitiesAreKeys(dumps, r);
    if WorksOn(dumps, r, entities) {
      var e :| e in entities && DumpKey(r, e) in dumps;
      assert e in EntitiesOf(dumps, r) * entities;
    }
  }

  // ----- catalog states -----

  /** The catalog rows of `entities` are as given, all others as before. */
  ghost predicate CatalogBecame(
      catalog: map<Entity, CatalogState>, entities: set<Entity>, state: CatalogState -> CatalogState,
      catalog': map<Entity, CatalogState>)
  {
    && catalog'.Keys == catalog.Keys && entities <= catalog.Keys
    && forall e :: e in catalog ==> catalog'[e] == if e in entities then state(catalog[e]) else catalog[e]
  }

  /** An entity that was never imported is bootstrapped, any other refreshed; the last successful run stays. */
  ghost predicate Importing(catalog: map<Entity, CatalogState>, entities: set<Entity>, run: RunId, catalog': map<Entity, CatalogState>) {
    CatalogBecame(catalog, entities, (c: CatalogState) =>
      CatalogState("importing", Some(if c.lastSuccessfulRun != 0 then "refresh" else "bootstrap"), run, c.lastSuccessfulRun, None),
      catalog')
  }

  /** No run is active, and the given one is the last successful. */
  ghost predicate Ready(catalog: map<Entity, CatalogState>, entities: set<Entity>, run: RunId, catalog': map<Entity, CatalogState>) {
    CatalogBecame(catalog, entities, (c: CatalogState) => CatalogState("ready", None, 0, run, None), catalog')
  }

  /** No run is active, the reason is recorded, and the last successful run stays. */
  ghost predicate FailedFor(
      catalog: map<Entity, CatalogState>, entities: set<Entity>, reason: string, catalog': map<Entity, CatalogState>)
  {
    CatalogBecame(catalog, entities, (c: CatalogState) =>
      c.(status := "failed", activeRun := 0, failure := Some(reason)), catalog')
  }

  lemma CatalogOutcomes(db: Db, run: RunId, entities: set<Entity>)
    ensures var r := MarkImporting(db, run, entities);
            && (r.Ok? <==> entities <= db.catalog.Keys)
            && (r.Ok? ==> r.value == db.(catalog := r.value.catalog) && Importing(db.catalog, entities, run, r.value.catalog))
    ensures var r := MarkReady(db, run, entities);
            && (r.Ok? <==> forall e :: e in entities ==> e in db.catalog && db.catalog[e].activeRun in {0, run})
            && (r.Ok? ==> r.value == db.(catalog := r.value.catalog) && Ready(db.catalog, entities, run, r.value.catalog))
  {}

  lemma FailureOutcome(db: Db, run: RunId, entities: set<Entity>, failure: string)
    ensures var r := MarkFailed(db, run, entities, failure);
            && (r.Ok? <==> forall e :: e in entities ==> e in db.catalog && db.catalog[e].activeRun == run)
            && (r.Ok? ==> r.value == db.(catalog := r.value.catalog) && FailedFor(db.catalog, entities, failure, r.value.catalog))
  {}

  // ----- when a run is started, and what it leaves alone -----

  /** The run that is resumed: none under `force`, otherwise the one that is found. */
  ghost predicate ResumesFrom(db: Db, plan: Plan, view: View, source: RunId) {
    if plan.force then source == 0 else Finds(db, plan, view, source)
  }

  lemma SourceIsFound(db: Db, plan: Plan, view: View, source: RunId)
    requires (forall r :: r in db.runs ==> 0 < r) && ResumesFrom(db, plan, view, source)
    ensures source == SourceOf(db, plan, view)
  {
    if !plan.force {
      LatestIsFound(db, plan, view);
      FoundIsUnique(db, plan, view, source, FindResumableRun(db, plan, view));
    }
  }

  lemma FoundIsUnique(db: Db, plan: Plan, view: View, a: RunId, b: RunId)
    requires (forall r :: r in db.runs ==> 0 < r) && Finds(db, plan, view, a) && Finds(db, plan, view, b)
    ensures a == b
  {
    hide LastToWrite;
    assert a != 0 ==> Compatible(db, a, plan) && a in db.runs;
    assert b != 0 ==> Compatible(db, b, plan) && b in db.runs;
  }

  /** The failed run imported the plan's dumps. */
  ghost predicate SameDumps(dumps: map<DumpKey, RunDump>, source: RunId, plan: Plan) {
    forall d :: d in plan.dumps ==>
      DumpKey(source, d.entity) in dumps && dumps[DumpKey(source, d.entity)].dumpId == d.dumpId
  }

  lemma PlannedDump(plan: Plan, d: Dump, summary: RunDump)
    requires DistinctEntities(plan.dumps) && d in plan.dumps && Planned(summary, plan, d.entity)
    ensures summary.dumpId == d.dumpId
  {
    var dump :| dump in plan.dumps && dump.entity == d.entity && dump.dumpId == summary.dumpId;
    var i :| 0 <= i < |plan.dumps| && plan.dumps[i] == d;
    var j :| 0 <= j < |plan.dumps| && plan.dumps[j] == dump;
  }

  lemma MatchesIff(db: Db, inserted: Db, n: RunId, plan: Plan, source: RunId, d: Dump)
    requires source != n && Inserted(db, n, plan, source, inserted) && DistinctEntities(plan.dumps)
    requires Compatible(db, source, plan) && d in plan.dumps
    ensures CopyMatches(inserted, source, n, d.entity)
            <==> DumpKey(source, d.entity) in db.dumps && db.dumps[DumpKey(source, d.entity)].dumpId == d.dumpId
  {
    hide DistinctEntities, Planned, Counted, EntitiesOf;
    assert d.entity in Selected(plan);
    assert Planned(inserted.dumps[DumpKey(n, d.entity)], plan, d.entity);
    PlannedDump(plan, d, inserted.dumps[DumpKey(n, d.entity)]);
    PlannedSize(inserted.dumps[DumpKey(n, d.entity)], plan, d.entity);
  }

  lemma PlannedSize(d: RunDump, plan: Plan, e: Entity)
    requires Planned(d, plan, e)
    ensures d.chunkSize == plan.chunkSize
  {}

  /** The entities of which both runs have a summary, with the same dump and the same chunk size. */
  ghost function Matched(dumps: map<DumpKey, RunDump>, source: RunId, n: RunId): set<Entity> {
    set k | k in dumps && k.run == n && DumpKey(source, k.entity) in dumps
            && dumps[k].dumpId == dumps[DumpKey(source, k.entity)].dumpId
            && dumps[k].chunkSize == dumps[DumpKey(source, k.entity)].chunkSize :: k.entity
  }

  lemma MatchedMeans(db: Db, source: RunId, n: RunId)
    ensures forall e :: e in Matched(db.dumps, source, n) <==> DumpKey(n, e) in db.dumps && CopyMatches(db, source, n, e)
  {
    forall e | DumpKey(n, e) in db.dumps && CopyMatches(db, source, n, e)
      ensures e in Matched(db.dumps, source, n)
    {
      assert DumpKey(n, e).entity == e;
    }
  }

  /** The copy succeeds exactly when it finds as many matching summaries as expected. */
  lemma CopyIsOk(inserted: Db, source: RunId, n: RunId, expected: int)
    ensures CopyResumeProgress(inserted, source, n, expected).Ok? <==> |Matched(inserted.dumps, source, n)| == expected
  {
    MatchedMeans(inserted, source, n);
    EntitiesAreKeys(inserted.dumps, n);
    hide CopyMatches, EntitiesOf, MovedKeys, CopiedSummaries, Matched;
    assert Matched(inserted.dumps, source, n) == set e | e in EntitiesOf(inserted.dumps, n) && CopyMatches(inserted, source, n, e);
  }

  lemma MatchedAmong(inserted: Db, source: RunId, n: RunId, entities: set<Entity>)
    requires forall e :: DumpKey(n, e) in inserted.dumps <==> e in entities
    ensures Matched(inserted.dumps, source, n) <= entities
    ensures forall e :: e in Matched(inserted.dumps, source, n) <==> e in entities && CopyMatches(inserted, source, n, e)
  {
    MatchedMeans(inserted, source, n);
    hide Matched, CopyMatches;
  }

  /** The copy finds all of its summaries exactly when the failed run imported the plan's dumps. */
  lemma CopySucceedsIff(db: Db, inserted: Db, n: RunId, plan: Plan, source: RunId)
    requires source != n && Inserted(db, n, plan, source, inserted) && PlanError(plan).None?
    requires Compatible(db, source, plan)
    ensures CopyResumeProgress(inserted, source, n, |plan.dumps|).Ok? <==> SameDumps(db.dumps, source, plan)
  {
    PlanIsDistinct(plan);
    DistinctCount(plan.dumps);
    MatchedAmong(inserted, source, n, Selected(plan));
    CopyIsOk(inserted, source, n, |plan.dumps|);
    hide PlanError, DistinctEntities, Compatible, CopyMatches, EntitiesOf, Matched, CopyResumeProgress, Inserted;
    forall d | d in plan.dumps
      ensures d.entity in Matched(inserted.dumps, source, n)
              <==> DumpKey(source, d.entity) in db.dumps && db.dumps[DumpKey(source, d.entity)].dumpId == d.dumpId
    {
      MatchesIff(db, inserted, n, plan, source, d);
    }
    CountedAll(Matched(inserted.dumps, source, n), plan);
  }

  lemma CountedAll(copied: set<Entity>, plan: Plan)
    requires copied <= Selected(plan) && |Selected(plan)| == |plan.dumps|
    ensures |copied| == |plan.dumps| <==> forall d :: d in plan.dumps ==> d.entity in copied
  {
    SubsetCardinality(copied, Selected(plan));
    if forall d :: d in plan.dumps ==> d.entity in copied {
      assert copied == Selected(plan);
    }
  }

  /** No other run, summary or commit is touched. */
  ghost predicate OthersKept(db: Db, n: RunId, db': Db) {
    && db' == Db(db'.runs, db'.dumps, db'.chunks, db'.catalog, db.locks, db.content, db.base, db.history)
    && db'.runs.Keys == db.runs.Keys + {n} && (forall r :: r in db.runs && r != n ==> db'.runs[r] == db.runs[r])
    && (forall k: DumpKey :: k.run != n ==> (k in db'.dumps <==> k in db.dumps))
    && (forall k :: k in db.dumps && k.run != n ==> db'.dumps[k] == db.dumps[k])
  }

  lemma InsertKeepsOthers(db: Db, n: RunId, plan: Plan, source: RunId)
    requires FreshRun(db, n) && RowsOk(db.runs, db.dumps, db.chunks) && PlanError(plan).None?
    ensures OthersKept(db, n, InsertRun(db, n, plan, source)) && InsertRun(db, n, plan, source).catalog == db.catalog
  {
    InsertedIs(db, n, plan, source);
    hide RowsOf, FromZero, PlanError, Selected, NewSummaries;
  }

  lemma ResumeKeepsOthers(db: Db, n: RunId, source: RunId, expected: int, inserted: Db, resumed: Db)
    requires OthersKept(db, n, inserted) && inserted.catalog == db.catalog && source != n
    requires ResumeInto(inserted, source, n, expected) == Ok(resumed)
    ensures OthersKept(db, n, resumed) && resumed.catalog == db.catalog
  {
    hide CopyResumeProgress;
    if source != 0 {
      CopiedRows(inserted, source, n, resumed, expected);
    }
  }

  /** All that a started run changes. */
  ghost predicate Starts(db: Db, n: RunId, plan: Plan, source: RunId, db': Db) {
    && StartedRows(db, n, plan, source, db')
    && OthersKept(db, n, db')
    && Importing(db.catalog, Selected(plan), n, db'.catalog)
  }

  ghost predicate CanStart(db: Db, plan: Plan, source: RunId, bootstrapOk: bool) {
    && Selected(plan) <= db.catalog.Keys && bootstrapOk
    && (source != 0 ==> SameDumps(db.dumps, source, plan))
  }

  lemma SourceIsCompatible(db: Db, plan: Plan, view: View, source: RunId)
    requires (forall r :: r in db.runs ==> 0 < r) && ResumesFrom(db, plan, view, source) && source != 0
    ensures source in db.runs && Compatible(db, source, plan) && |EntitiesOf(db.dumps, source)| == |plan.dumps|
  {}

  lemma ResumeSucceedsIff(db: Db, plan: Plan, view: View, n: RunId, source: RunId)
    requires FreshRun(db, n) && RowsOk(db.runs, db.dumps, db.chunks) && PlanError(plan).None?
    requires (forall r :: r in db.runs ==> 0 < r) && ResumesFrom(db, plan, view, source)
    ensures var resumed := ResumeInto(InsertRun(db, n, plan, source), source, n, |plan.dumps|);
            && (resumed.Ok? <==> source == 0 || SameDumps(db.dumps, source, plan))
            && (resumed.Ok? ==> OthersKept(db, n, resumed.value) && resumed.value.catalog == db.catalog)
  {
    var inserted := InsertRun(db, n, plan, source);
    InsertedIs(db, n, plan, source);
    InsertKeepsOthers(db, n, plan, source);
    hide InsertRun, PlanError, Inserted, OthersKept, SameDumps, CopyResumeProgress, Compatible, EntitiesOf, RowsOk;
    if source != 0 {
      SourceIsCompatible(db, plan, view, source);
      CopySucceedsIff(db, inserted, n, plan, source);
    }
    var resumed := ResumeInto(inserted, source, n, |plan.dumps|);
    if resumed.Ok? && source != n {
      ResumeKeepsOthers(db, n, source, |plan.dumps|, inserted, resumed.value);
    }
  }

  lemma FinishStartIff(resumed: Db, n: RunId, source: RunId, entities: set<Entity>, bootstrapOk: bool)
    ensures var r := FinishStart(Ok(resumed), n, source, entities, bootstrapOk);
            && (r.Ok? <==> entities <= resumed.catalog.Keys && bootstrapOk)
            && (r.Ok? ==> r.value.0 == resumed.(catalog := r.value.0.catalog)
                          && Importing(resumed.catalog, entities, n, r.value.0.catalog))
  {
    CatalogOutcomes(resumed, n, entities);
    hide MarkImporting;
  }

  /** Catalog states are the last thing to change. */
  lemma CatalogKeepsOthers(db: Db, n: RunId, resumed: Db, db': Db)
    requires OthersKept(db, n, resumed) && db' == resumed.(catalog := db'.catalog)
    ensures OthersKept(db, n, db')
  {}

  lemma StartUnfolds(db: Db, plan: Plan, view: View, n: RunId, bootstrapOk: bool)
    requires PlanError(plan).None?
    ensures forall d :: d in plan.dumps ==> d.entity in plan.revisions
    ensures var source := SourceOf(db, plan, view);
            StartTx(db, plan, view, n, bootstrapOk)
            == FinishStart(ResumeInto(InsertRun(db, n, plan, source), source, n, |plan.dumps|), n, source, Selected(plan), bootstrapOk)
  {
    hide InsertRun, ResumeInto, FinishStart, SourceOf;
  }

  lemma StartSucceedsIff(db: Db, plan: Plan, view: View, n: RunId, bootstrapOk: bool, source: RunId)
    requires FreshRun(db, n) && RowsOk(db.runs, db.dumps, db.chunks) && PlanError(plan).None?
    requires (forall r :: r in db.runs ==> 0 < r) && ResumesFrom(db, plan, view, source) && source == SourceOf(db, plan, view)
    ensures var r := StartTx(db, plan, view, n, bootstrapOk);
            && (r.Ok? <==> CanStart(db, plan, source, bootstrapOk))
            && (r.Ok? ==> OthersKept(db, n, r.value.0) && Importing(db.catalog, Selected(plan), n, r.value.0.catalog))
  {
    StartUnfolds(db, plan, view, n, bootstrapOk);
    ResumeSucceedsIff(db, plan, view, n, source);
    hide StartTx, SourceOf, ResumesFrom, InsertRun, PlanError, OthersKept, SameDumps, ResumeInto, Importing, RowsOk, FreshRun;
    var resumed := ResumeInto(InsertRun(db, n, plan, source), source, n, |plan.dumps|);
    var r := FinishStart(resumed, n, source, Selected(plan), bootstrapOk);
    if resumed.Ok? {
      FinishStartIff(resumed.value, n, source, Selected(plan), bootstrapOk);
      if r.Ok? {
        CatalogKeepsOthers(db, n, resumed.value, r.value.0);
      }
    }
  }

  lemma StartDecides(db: Db, plan: Plan, view: View, n: RunId, bootstrapOk: bool, source: RunId)
    requires FreshRun(db, n) && RowsOk(db.runs, db.dumps, db.chunks) && PlanError(plan).None?
    requires (forall r :: r in db.runs ==> 0 < r) && ResumesFrom(db, plan, view, source)
    ensures var r := StartTx(db, plan, view, n, bootstrapOk);
            && (r.Ok? <==> CanStart(db, plan, source, bootstrapOk))
            && (r.Ok? ==> r.value.1 == Started(n, source) && Starts(db, n, plan, source, r.value.0))
  {
    SourceIsFound(db, plan, view, source);
    StartSucceedsIff(db, plan, view, n, bootstrapOk, source);
    var r := StartTx(db, plan, view, n, bootstrapOk);
    if r.Ok? {
      StartLeaves(db, plan, view, n, bootstrapOk, r.value.0, source);
    }
  }

  // ----- when a plan is skipped -----

  /** Nothing is to be imported, and the plan does not insist. */
  predicate Satisfied(plan: Plan, compat: Compatibility) {
    !plan.force && compat.selected == |plan.dumps| == compat.compatible
  }

  predicate PartlySatisfied(plan: Plan, compat: Compatibility) {
    !plan.force && compat.selected == |plan.dumps| && 0 < compat.compatible < compat.selected
  }

  /** The successful run that stands for a skipped import. */
  function SkippedRun(compat: Compatibility, n: RunId): RunId {
    if compat.exactRun != 0 then compat.exactRun else n
  }

  ghost predicate CanSkip(db: Db, plan: Plan, compat: Compatibility, consolidated: map<Entity, RunDump>, n: RunId) {
    && (compat.exactRun == 0 ==> |consolidated| == |plan.dumps|)
    && forall e :: e in Selected(plan) ==> e in db.catalog && db.catalog[e].activeRun in {0, SkippedRun(compat, n)}
  }

  /** The successful run and summaries that a consolidation records. */
  ghost predicate Consolidates(db: Db, n: RunId, plan: Plan, consolidated: map<Entity, RunDump>, now: int, db': Db) {
    && db'.runs == db.runs[n := Run(plan.manifest, Success, now, false, 0, |db.history|)]
    && (forall k: DumpKey :: k in db'.dumps <==> if k.run == n then k.entity in consolidated else k in db.dumps)
    && (forall k: DumpKey :: k in db'.dumps ==> db'.dumps[k] == if k.run == n then consolidated[k.entity] else db.dumps[k])
  }

  /** All that a skipped import changes: at most one successful run is added, and the entities are ready. */
  ghost predicate Skips(
      db: Db, n: RunId, plan: Plan, compat: Compatibility, consolidated: map<Entity, RunDump>, now: int, db': Db)
  {
    && db' == Db(db'.runs, db'.dumps, db.chunks, db'.catalog, db.locks, db.content, db.base, db.history)
    && Ready(db.catalog, Selected(plan), SkippedRun(compat, n), db'.catalog)
    && if compat.exactRun != 0 then db'.runs == db.runs && db'.dumps == db.dumps
       else Consolidates(db, n, plan, consolidated, now, db')
  }

  lemma ConsolidationRecords(db: Db, plan: Plan, consolidated: map<Entity, RunDump>, n: RunId, now: int)
    requires FreshRun(db, n) && RowsOk(db.runs, db.dumps, db.chunks)
    ensures var recorded := RecordConsolidated(db, plan, consolidated, n, now);
            && recorded == db.(runs := recorded.runs, dumps := recorded.dumps)
            && Consolidates(db, n, plan, consolidated, now, recorded)
  {
    var recorded := RecordConsolidated(db, plan, consolidated, n, now);
    forall k: DumpKey
      ensures k in recorded.dumps <==> if k.run == n then k.entity in consolidated else k in db.dumps
    {
      if k.run == n && k.entity in consolidated { assert DumpKey(n, k.entity) == k; }
    }
  }

  lemma FinishSkipIff(recorded: Db, run: RunId, entities: set<Entity>)
    ensures var r := FinishSkip(recorded, run, entities);
            && (r.Ok? <==> forall e :: e in entities ==> e in recorded.catalog && recorded.catalog[e].activeRun in {0, run})
            && (r.Ok? ==> r.value.0 == recorded.(catalog := r.value.0.catalog)
                          && Ready(recorded.catalog, entities, run, r.value.0.catalog))
  {
    CatalogOutcomes(recorded, run, entities);
    hide MarkReady;
  }

  lemma SkipDecides(db: Db, plan: Plan, compat: Compatibility, consolidated: map<Entity, RunDump>, n: RunId, now: int)
    requires FreshRun(db, n) && RowsOk(db.runs, db.dumps, db.chunks)
    ensures var r := SkipTx(db, plan, compat, consolidated, n, now);
            && (r.Ok? <==> CanSkip(db, plan, compat, consolidated, n))
            && (r.Ok? ==> r.value.1 == Skipped(SkippedRun(compat, n)) && Skips(db, n, plan, compat, consolidated, now, r.value.0))
  {
    hide FinishSkip, RecordConsolidated, Ready, Consolidates, Selected, FreshRun, RowsOk;
    ConsolidationRecords(db, plan, consolidated, n, now);
    FinishSkipIff(RecordConsolidated(db, plan, consolidated, n, now), n, Selected(plan));
    FinishSkipIff(db, compat.exactRun, Selected(plan));
    var r := SkipTx(db, plan, compat, consolidated, n, now);
    if r.Ok? && compat.exactRun == 0 {
      CatalogKeepsConsolidated(db, plan, consolidated, n, now, RecordConsolidated(db, plan, consolidated, n, now), r.value.0);
    }
  }

  lemma CatalogKeepsConsolidated(
      db: Db, plan: Plan, consolidated: map<Entity, RunDump>, n: RunId, now: int, recorded: Db, db': Db)
    requires Consolidates(db, n, plan, consolidated, now, recorded) && db' == recorded.(catalog := db'.catalog)
    ensures Consolidates(db, n, plan, consolidated, now, db')
  {}

  // ----- force -----

  /** The new run and its summaries, which count nothing; no recorded chunk has changed hands. */
  ghost predicate BlankRun(db: Db, n: RunId, plan: Plan, db': Db) {
    && n in db'.runs && db'.runs[n] == Run(plan.manifest, Running, 0, plan.force, 0, |db.history|)
    && (forall e :: e in Selected(plan) ==>
          DumpKey(n, e) in db'.dumps && Planned(db'.dumps[DumpKey(n, e)], plan, e) && Blank(db'.dumps[DumpKey(n, e)]))
    && db'.chunks == db.chunks
  }

  lemma InsertedBlank(db: Db, n: RunId, plan: Plan)
    requires PlanError(plan).None?
    ensures forall d :: d in plan.dumps ==> d.entity in plan.revisions
    ensures BlankRun(db, n, plan, InsertRun(db, n, plan, 0))
  {
    var added := NewSummaries(plan, n, Selected(plan));
    forall e | e in Selected(plan)
      ensures DumpKey(n, e) in added && added[DumpKey(n, e)] == NewSummary(plan, e)
      ensures Planned(NewSummary(plan, e), plan, e) && Blank(NewSummary(plan, e))
    {}
  }

  /** Under `force` whatever was imported before is of no account: a successful admission starts a blank run. */
  lemma ForceStartsBlank(
      db: Db, plan: Plan, view: View, compat: Compatibility, consolidated: map<Entity, RunDump>,
      n: RunId, now: int, bootstrapOk: bool)
    requires PlanError(plan).None? && plan.force
    ensures var r := AdmitTx(db, plan, view, compat, consolidated, n, now, bootstrapOk);
            r.Ok? ==> r.value.1 == Started(n, 0) && BlankRun(db, n, plan, r.value.0)
  {
    var rec := MarkAbandonedRuns(db, Selected(plan), now);
    RecoveryFails(db, Selected(plan), now);
    InsertedBlank(rec, n, plan);
    StartUnfolds(rec, plan, view, n, bootstrapOk);
    FinishStartIff(InsertRun(rec, n, plan, 0), n, 0, Selected(plan), bootstrapOk);
    hide PlanError, Selected, MarkAbandonedRuns, InsertRun, SkipTx, StartTx, FinishStart, IsDowngrade, Importing, WorksOn, Planned, Blank;
  }

  // ----- the whole admission -----

  /** When an admission succeeds, given the tables after recovery. */
  ghost predicate CanAdmit(
      rec: Db, plan: Plan, view: View, compat: Compatibility, consolidated: map<Entity, RunDump>, n: RunId,
      source: RunId, bootstrapOk: bool)
  {
    && UpToDate(plan, view) && !PartlySatisfied(plan, compat)
    && if Satisfied(plan, compat) then CanSkip(rec, plan, compat, consolidated, n) else CanStart(rec, plan, source, bootstrapOk)
  }

  /** What a successful admission makes of the tables after recovery. */
  ghost predicate Admits(
      rec: Db, plan: Plan, compat: Compatibility, consolidated: map<Entity, RunDump>, n: RunId, source: RunId, now: int, db': Db)
  {
    if Satisfied(plan, compat) then Skips(rec, n, plan, compat, consolidated, now, db') else Starts(rec, n, plan, source, db')
  }

  lemma RecoveryIsDetermined(db: Db, entities: set<Entity>, now: int, rec: Db)
    requires Recovered(db, entities, now, rec)
    ensures rec == MarkAbandonedRuns(db, entities, now)
  {
    RecoveryFails(db, entities, now);
    var other := MarkAbandonedRuns(db, entities, now);
    hide WorksOn, MarkAbandonedRuns;
    forall r | r in rec.runs
      ensures rec.runs[r] == other.runs[r]
    {}
  }

  lemma RecoveredRows(db: Db, entities: set<Entity>, now: int, n: RunId, rec: Db)
    requires Recovered(db, entities, now, rec) && FreshRun(db, n) && DbInv(db)
    ensures FreshRun(rec, n) && RowsOk(rec.runs, rec.dumps, rec.chunks) && forall r :: r in rec.runs ==> 0 < r
  {
    hide WorksOn;
  }

  /**
   * The admission transaction: when it succeeds, which way it goes, and the tables it leaves. `source` is
   * the run that is resumed after recovery, if any.
   */
  lemma AdmissionDecides(
      db: Db, plan: Plan, view: View, compat: Compatibility, consolidated: map<Entity, RunDump>,
      n: RunId, now: int, bootstrapOk: bool, rec: Db, source: RunId)
    requires DbInv(db) && FreshRun(db, n) && PlanError(plan).None?
    requires Recovered(db, Selected(plan), now, rec) && ResumesFrom(rec, plan, view, source)
    ensures var r := AdmitTx(db, plan, view, compat, consolidated, n, now, bootstrapOk);
            && (r.Ok? <==> CanAdmit(rec, plan, view, compat, consolidated, n, source, bootstrapOk))
            && (r.Ok? ==> r.value.1 == (if Satisfied(plan, compat) then Skipped(SkippedRun(compat, n)) else Started(n, source)))
            && (r.Ok? ==> Admits(rec, plan, compat, consolidated, n, source, now, r.value.0))
  {
    hide DbInv, FreshRun, PlanError, Selected, Recovered, MarkAbandonedRuns, RowsOk, UpToDate, IsDowngrade, ResumesFrom,
      SkipTx, StartTx, CanSkip, CanStart, Skips, Starts;
    RecoveryIsDetermined(db, Selected(plan), now, rec);
    RecoveredRows(db, Selected(plan), now, n, rec);
    UpToDateMeans(plan, view);
    SkipDecides(rec, plan, compat, consolidated, n, now);
    StartDecides(rec, plan, view, n, bootstrapOk, source);
  }
}
