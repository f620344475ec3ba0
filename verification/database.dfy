/**
 * The import tables of the database as one value, and each transaction of the importer
 * as a function on that value. A transaction that fails returns `Err` and, being rolled
 * back, leaves the value it was given.
 */
module Database {
  import opened Options
  import opened Sets
  import opened Coverage
  import opened Reconciliation

  datatype Entity = Artist | Label | Master | Release

  /** A run identifier; 0 stands for SQL null. */
  type RunId = int
  type Session = nat

  datatype Status = Running | Success | Failed

  /** `admittedAt` is the length of the commit history when the run was inserted. */
  datatype Run = Run(
    manifest: string, status: Status, completedAt: int, forceRequested: bool, resumedFrom: RunId, admittedAt: nat)

  datatype DumpKey = DumpKey(run: RunId, entity: Entity)

  /** `skipped` records that the entity was complete when its run was admitted, so that the run skips its step. */
  datatype RunDump = RunDump(
    dumpId: int, chunkSize: int, revision: int, processedItems: int,
    totalItems: Option<int>, totalChunks: Option<int>, completedAt: Option<int>, skipped: bool)

  datatype ChunkKey = ChunkKey(run: RunId, entity: Entity, index: int)

  datatype CatalogState = CatalogState(
    status: string, operation: Option<string>, activeRun: RunId, lastSuccessfulRun: RunId, failure: Option<string>)

  /** What one chunk transaction writes: upserted root rows and the relation rows of `rootIDs`. */
  datatype Batch = Batch(rootIDs: seq<int>, rootRows: map<int, int>, rows: seq<Row>)

  /** The business tables of one entity; the digest relation stands for its relation family. */
  datatype Content = Content(roots: map<int, int>, relations: Table)

  /** One committed business transaction. */
  datatype Commit =
    | ChunkCommit(run: RunId, entity: Entity, index: int, range: ChunkRange, batch: Batch)
    | RootCommit(run: RunId, entity: Entity, rootRows: map<int, int>)

  /** `history` lists the committed business transactions, `base` is the content before them. */
  datatype Db = Db(
    runs: map<RunId, Run>,
    dumps: map<DumpKey, RunDump>,
    chunks: map<ChunkKey, ChunkRange>,
    catalog: map<Entity, CatalogState>,
    locks: map<Entity, Session>,
    content: map<Entity, Content>,
    base: map<Entity, Content>,
    history: seq<Commit>)

  datatype Order = Order(run: RunId, entity: Entity, chunkSize: int, resume: bool)
  datatype ChunkMetadata = ChunkMetadata(index: int, range: ChunkRange)
  datatype ChunkOutcome = Written | AlreadyCompleted

  // ----- worker transactions -----

  predicate IsRunning(runs: map<RunId, Run>, run: RunId) {
    run in runs && runs[run].status == Running
  }

  function RecordedIndexes(chunks: map<ChunkKey, ChunkRange>, run: RunId, entity: Entity): set<int> {
    set k | k in chunks && k.run == run && k.entity == entity :: k.index
  }

  /** The ledger of one run and entity, keyed by chunk index. */
  function LedgerOf(chunks: map<ChunkKey, ChunkRange>, run: RunId, entity: Entity): Ledger {
    map i | i in RecordedIndexes(chunks, run, entity) :: chunks[ChunkKey(run, entity, i)]
  }

  ghost predicate WellFormedBatch(batch: Batch) {
    Canonical(batch.rows, true) && BelongTo(batch.rows, RootSet(batch.rootIDs))
  }

  /** Upsert the root rows, then reconcile the relation table below the batch's roots. */
  function WriteBatch(c: Content, batch: Batch): Content {
    var existing := ExistingRoots(c.relations, RootSet(batch.rootIDs));
    Content(c.roots + batch.rootRows, Reconcile(c.relations, existing != {}, existing, batch.rows, true))
  }

  function EntityContent(content: map<Entity, Content>, entity: Entity): Content {
    if entity in content then content[entity] else Content(map[], map[])
  }

  /** Fence on the running run, insert the ledger row, add its items to the run dump. */
  function RecordCompletedChunk(db: Db, order: Order, chunk: ChunkMetadata): Result<Db> {
    var dump := DumpKey(order.run, order.entity);
    var key := ChunkKey(order.run, order.entity, chunk.index);
    if IsRunning(db.runs, order.run) && key !in db.chunks && dump in db.dumps
      && db.dumps[dump].chunkSize == order.chunkSize && db.dumps[dump].completedAt.None? then
      Ok(db.(chunks := db.chunks[key := chunk.range],
             dumps := db.dumps[dump := db.dumps[dump].(processedItems := db.dumps[dump].processedItems + chunk.range.count)]))
    else
      Err("run is not active, completion already exists, or run summary is unavailable")
  }

  function CommitBatch(db: Db, order: Order, chunk: ChunkMetadata, batch: Batch): Db {
    db.(content := db.content[order.entity := WriteBatch(EntityContent(db.content, order.entity), batch)],
        history := db.history + [ChunkCommit(order.run, order.entity, chunk.index, chunk.range, batch)])
  }

  /** One chunk transaction of a tracked order; `write` is what the chunk writer produces. */
  function ExecuteChunk(db: Db, order: Order, chunk: ChunkMetadata, write: Result<Batch>): Result<(Db, ChunkOutcome)> {
    var key := ChunkKey(order.run, order.entity, chunk.index);
    if order.resume && key in db.chunks then
      if db.chunks[key] == chunk.range then Ok((db, AlreadyCompleted))
      else Err("recorded range does not match source range")
    else if write.Err? then Err(write.error)
    else
      var recorded := RecordCompletedChunk(CommitBatch(db, order, chunk, write.value), order, chunk);
      if recorded.Err? then Err(recorded.error) else Ok((recorded.value, Written))
  }

  /** A transaction of root rows alone, fenced on the running run. */
  function InsertRoots(db: Db, order: Order, write: Result<map<int, int>>): Result<Db> {
    if write.Err? then Err(write.error)
    else if !IsRunning(db.runs, order.run) then Err("run is not active")
    else
      var c := EntityContent(db.content, order.entity);
      Ok(db.(content := db.content[order.entity := c.(roots := c.roots + write.value)],
             history := db.history + [RootCommit(order.run, order.entity, write.value)]))
  }

  /** Mark one entity of a run complete when its ledger covers the source. */
  ghost function CompleteEntity(db: Db, order: Order, totalItems: int, totalChunks: int, now: int): Result<Db> {
    var dump := DumpKey(order.run, order.entity);
    if IsRunning(db.runs, order.run) && dump in db.dumps
      && db.dumps[dump].chunkSize == order.chunkSize && db.dumps[dump].processedItems == totalItems
      && CoverageAccepts(LedgerOf(db.chunks, order.run, order.entity), order.chunkSize, totalItems, totalChunks) then
      Ok(db.(dumps := db.dumps[dump := db.dumps[dump].(
           totalItems := Some(totalItems), totalChunks := Some(totalChunks), completedAt := Some(now))]))
    else
      Err("chunk coverage does not match")
  }

  // ----- coordinator transactions -----

  datatype Dump = Dump(entity: Entity, dumpId: int, date: int)

  /** `revisions` is the import contract revision of each entity in the running artifact. */
  datatype Plan = Plan(
    manifest: string, dumps: seq<Dump>, chunkSize: int, force: bool, allowDowngrade: bool, revisions: map<Entity, int>)

  /** One row of the checkpoint view, whose definition is not part of this model. */
  datatype Checkpoint = Checkpoint(run: RunId, appliedAt: int, dumpDate: Option<int>)
  type View = map<Entity, Checkpoint>

  /** What the successful-manifest query reports; `exactRun` is 0 when there is none. */
  datatype Compatibility = Compatibility(exactRun: RunId, compatible: nat, selected: nat)

  datatype Admission = Skipped(run: RunId) | Started(run: RunId, resumedFrom: RunId)

  function EntitiesIn(dumps: seq<Dump>): set<Entity> {
    set d | d in dumps :: d.entity
  }

  function Selected(plan: Plan): set<Entity> {
    EntitiesIn(plan.dumps)
  }

  /** The order in which entity locks are taken. */
  const ENTITY_ORDER: seq<Entity> := [Artist, Label, Master, Release]

  function RequiredLocks(entity: Entity): set<Entity> {
    match entity
    case Artist => {Artist}
    case Label => {Label}
    case Master => {Artist, Master}
    case Release => {Artist, Label, Master, Release}
  }

  function LockTypes(entities: set<Entity>): set<Entity> {
    set e, l | e in entities && l in RequiredLocks(e) :: l
  }

  /** Every selected entity is locked itself. */
  lemma SelectedAreLocked(entities: set<Entity>)
    ensures entities <= LockTypes(entities)
  {
    forall e | e in entities ensures e in LockTypes(entities) {
      assert e in RequiredLocks(e);
    }
  }

  function EntitiesOf(dumps: map<DumpKey, RunDump>, run: RunId): set<Entity> {
    set k | k in dumps && k.run == run :: k.entity
  }

  predicate Abandoned(db: Db, run: RunId, entities: set<Entity>) {
    IsRunning(db.runs, run) && EntitiesOf(db.dumps, run) * entities != {}
  }

  /** Running runs on the locked entities belong to nobody: fail them. */
  function MarkAbandonedRuns(db: Db, entities: set<Entity>, now: int): Db {
    db.(runs := map r | r in db.runs ::
      if Abandoned(db, r, entities) then db.runs[r].(status := Failed, completedAt := now) else db.runs[r])
  }

  predicate IsDowngrade(plan: Plan, view: View) {
    && !plan.allowDowngrade
    && exists d :: (
         && d in plan.dumps && d.entity in view
         && view[d.entity].dumpDate.Some? && d.date < view[d.entity].dumpDate.value)
  }

  function ImportingState(c: CatalogState, run: RunId): CatalogState {
    CatalogState(
      "importing", Some(if c.lastSuccessfulRun == 0 then "bootstrap" else "refresh"), run, c.lastSuccessfulRun, None)
  }

  function ReadyState(run: RunId): CatalogState {
    CatalogState("ready", None, 0, run, None)
  }

  function FailedState(c: CatalogState, failure: string): CatalogState {
    CatalogState("failed", c.operation, 0, c.lastSuccessfulRun, Some(failure))
  }

  function MarkImporting(db: Db, run: RunId, entities: set<Entity>): Result<Db> {
    if forall e :: e in entities ==> e in db.catalog then
      Ok(db.(catalog := map e | e in db.catalog ::
        if e in entities then ImportingState(db.catalog[e], run) else db.catalog[e]))
    else Err("catalog state transition")
  }

  function MarkReady(db: Db, run: RunId, entities: set<Entity>): Result<Db> {
    if forall e :: e in entities ==> e in db.catalog && (db.catalog[e].activeRun == run || db.catalog[e].activeRun == 0) then
      Ok(db.(catalog := map e | e in db.catalog :: if e in entities then ReadyState(run) else db.catalog[e]))
    else Err("catalog state transition")
  }

  function MarkFailed(db: Db, run: RunId, entities: set<Entity>, failure: string): Result<Db> {
    if forall e :: e in entities ==> e in db.catalog && db.catalog[e].activeRun == run then
      Ok(db.(catalog := map e | e in db.catalog ::
        if e in entities then FailedState(db.catalog[e], failure) else db.catalog[e]))
    else Err("catalog state transition")
  }

  /** The filters of the resumable-run query. */
  ghost predicate Resumable(db: Db, run: RunId, plan: Plan, view: View) {
    && run in db.runs
    && db.runs[run].manifest == plan.manifest
    && db.runs[run].status == Failed
    && !db.runs[run].forceRequested
    && |EntitiesOf(db.dumps, run)| == |plan.dumps|
    && (forall e :: e in EntitiesOf(db.dumps, run) ==>
          && e in plan.revisions && db.dumps[DumpKey(run, e)].revision == plan.revisions[e]
          && db.dumps[DumpKey(run, e)].chunkSize == plan.chunkSize
          && db.dumps[DumpKey(run, e)].processedItems == Items(LedgerOf(db.chunks, run, e)))
    && (forall k :: k in db.chunks && k.run == run && DumpKey(run, k.entity) in db.dumps ==>
          && db.chunks[k].first == k.index * db.dumps[DumpKey(run, k.entity)].chunkSize
          && db.chunks[k].count <= db.dumps[DumpKey(run, k.entity)].chunkSize)
    && (forall e :: e in EntitiesOf(db.dumps, run) ==> !SupersededBy(db, run, e, view))
  }

  /** A checkpoint of another dump or revision was applied after the run failed. */
  predicate SupersededBy(db: Db, run: RunId, e: Entity, view: View)
    requires run in db.runs && DumpKey(run, e) in db.dumps
  {
    && e in view && DumpKey(view[e].run, e) in db.dumps
    && var current, failed := db.dumps[DumpKey(view[e].run, e)], db.dumps[DumpKey(run, e)];
       && (current.dumpId != failed.dumpId || current.revision != failed.revision)
       && (view[e].appliedAt > db.runs[run].completedAt
           || (view[e].appliedAt == db.runs[run].completedAt && view[e].run > run))
  }

  predicate Later(db: Db, a: RunId, b: RunId)
    requires a in db.runs && b in db.runs
  {
    db.runs[a].completedAt > db.runs[b].completedAt
    || (db.runs[a].completedAt == db.runs[b].completedAt && a > b)
  }

  /** `order by completed_at desc, id desc limit 1`. */
  ghost function Latest(db: Db, candidates: set<RunId>): (latest: RunId)
    requires candidates != {} && candidates <= db.runs.Keys
    ensures latest in candidates
    ensures forall r :: r in candidates && r != latest ==> Later(db, latest, r)
    decreases |candidates|
  {
    var r := Pick(candidates);
    if candidates == {r} then r
    else
      var best := Latest(db, candidates - {r});
      assert forall x :: x in candidates && x != r ==> x in candidates - {r};
      if Later(db, r, best) then r else best
  }

  ghost function FindResumableRun(db: Db, plan: Plan, view: View): (run: RunId)
    ensures run != 0 ==> Resumable(db, run, plan, view)
  {
    var candidates := set r | r in db.runs && Resumable(db, r, plan, view);
    if candidates == {} then 0 else Latest(db, candidates)
  }

  /** The plan's dump of an entity. */
  function DumpFor(dumps: seq<Dump>, e: Entity): (d: Dump)
    requires exists d :: d in dumps && d.entity == e
    ensures d in dumps && d.entity == e
  {
    if dumps[0].entity == e then dumps[0]
    else
      assert exists d :: d in dumps[1..] && d.entity == e by {
        var d :| d in dumps && d.entity == e;
        assert d in dumps[1..];
      }
      DumpFor(dumps[1..], e)
  }

  /** The summary of a new run for one of the plan's entities. */
  function NewSummary(plan: Plan, e: Entity): RunDump
    requires e in Selected(plan) && e in plan.revisions
  {
    RunDump(DumpFor(plan.dumps, e).dumpId, plan.chunkSize, plan.revisions[e], 0, None, None, None, false)
  }

  function NewSummaries(plan: Plan, newId: RunId, entities: set<Entity>): map<DumpKey, RunDump>
    requires forall e :: e in entities ==> e in Selected(plan) && e in plan.revisions
  {
    map k | k in (set e | e in entities :: DumpKey(newId, e)) :: NewSummary(plan, k.entity)
  }

  function InsertRun(db: Db, newId: RunId, plan: Plan, resumedFrom: RunId): Db
    requires forall d :: d in plan.dumps ==> d.entity in plan.revisions
  {
    db.(runs := db.runs[newId := Run(plan.manifest, Running, 0, plan.force, resumedFrom, |db.history|)],
        dumps := db.dumps + NewSummaries(plan, newId, Selected(plan)))
  }

  predicate CopyMatches(db: Db, source: RunId, target: RunId, e: Entity) {
    && DumpKey(source, e) in db.dumps && DumpKey(target, e) in db.dumps
    && db.dumps[DumpKey(source, e)].dumpId == db.dumps[DumpKey(target, e)].dumpId
    && db.dumps[DumpKey(source, e)].chunkSize == db.dumps[DumpKey(target, e)].chunkSize
  }

  function MovedKeys(chunks: map<ChunkKey, ChunkRange>, source: RunId, target: RunId): set<ChunkKey> {
    set k | k in chunks && k.run == source :: ChunkKey(target, k.entity, k.index)
  }

  /** A summary of the resuming run, with the progress of its predecessor. */
  function TakeOver(target: RunDump, source: RunDump): RunDump {
    target.(processedItems := source.processedItems, totalItems := source.totalItems, totalChunks := source.totalChunks,
            completedAt := source.completedAt, skipped := !IncompleteDump(source))
  }

  function CopiedSummaries(dumps: map<DumpKey, RunDump>, source: RunId, target: RunId, copied: set<Entity>): map<DumpKey, RunDump>
    requires forall e :: e in copied ==> DumpKey(source, e) in dumps
  {
    map k | k in dumps ::
      if k.run == target && k.entity in copied then TakeOver(dumps[k], dumps[DumpKey(source, k.entity)]) else dumps[k]
  }

  /** Move the ledger of a failed run, with its summaries, to the run that resumes it. */
  function CopyResumeProgress(db: Db, source: RunId, target: RunId, expected: int): Result<Db> {
    var copied := set e | e in EntitiesOf(db.dumps, target) && CopyMatches(db, source, target, e);
    if |copied| != expected then Err("copied summaries")
    else
      Ok(db.(
        dumps := CopiedSummaries(db.dumps, source, target, copied),
        chunks := (map k | k in db.chunks && k.run != source :: db.chunks[k])
                + (map k | k in MovedKeys(db.chunks, source, target) :: db.chunks[ChunkKey(source, k.entity, k.index)])))
  }

  predicate DistinctEntities(dumps: seq<Dump>) {
    forall i, j :: 0 <= i < j < |dumps| ==> dumps[i].entity != dumps[j].entity
  }

  /** The checks that precede the entity locks. */
  function PlanError(plan: Plan): Option<string> {
    if plan.dumps == [] then Some("import plan must contain at least one dump")
    else if plan.chunkSize <= 0 then Some("chunk size must be a positive integer")
    else if !DistinctEntities(plan.dumps) then Some("import plan names an entity twice")
    else if exists d :: d in plan.dumps && (d.entity !in plan.revisions || plan.revisions[d.entity] < 1) then
      Some("import contract revision is unavailable")
    else None
  }

  function RecordConsolidated(db: Db, plan: Plan, consolidated: map<Entity, RunDump>, newId: RunId, now: int): Db {
    db.(runs := db.runs[newId := Run(plan.manifest, Success, now, false, 0, |db.history|)],
        dumps := db.dumps + map k | k in (set e | e in consolidated :: DumpKey(newId, e)) :: consolidated[k.entity])
  }

  function FinishSkip(recorded: Db, run: RunId, entities: set<Entity>): (r: Result<(Db, Admission)>)
    ensures r.Ok? ==> r.value.1 == Skipped(run)
  {
    var ready := MarkReady(recorded, run, entities);
    if ready.Err? then Err(ready.error) else Ok((ready.value, Skipped(run)))
  }

  /** Skip an already satisfied manifest, recording a consolidated run when no exact one exists. */
  function SkipTx(
      db: Db, plan: Plan, compat: Compatibility, consolidated: map<Entity, RunDump>, newId: RunId, now: int)
    : (r: Result<(Db, Admission)>)
    ensures r.Ok? ==> r.value.1.Skipped?
  {
    if compat.exactRun != 0 then FinishSkip(db, compat.exactRun, Selected(plan))
    else if |consolidated| != |plan.dumps| then Err("consolidated dumps")
    else FinishSkip(RecordConsolidated(db, plan, consolidated, newId, now), newId, Selected(plan))
  }

  function ResumeInto(inserted: Db, source: RunId, target: RunId, expected: int): Result<Db> {
    if source == 0 then Ok(inserted) else CopyResumeProgress(inserted, source, target, expected)
  }

  function FinishStart(resumed: Result<Db>, run: RunId, source: RunId, entities: set<Entity>, bootstrapOk: bool)
    : (r: Result<(Db, Admission)>)
    ensures r.Ok? ==> r.value.1 == Started(run, source)
  {
    if resumed.Err? then Err(resumed.error)
    else
      var importing := MarkImporting(resumed.value, run, entities);
      if importing.Err? then Err(importing.error)
      else if !bootstrapOk then Err("prepare bootstrap")
      else Ok((importing.value, Started(run, source)))
  }

  /** The run whose progress an admission takes over; 0 when there is none. */
  ghost function SourceOf(db: Db, plan: Plan, view: View): RunId {
    if plan.force then 0 else FindResumableRun(db, plan, view)
  }

  /** Insert a running run, hand it the progress of a resumable one, mark its entities importing. */
  ghost function StartTx(db: Db, plan: Plan, view: View, newId: RunId, bootstrapOk: bool): (r: Result<(Db, Admission)>)
    requires PlanError(plan).None?
    ensures r.Ok? ==> r.value.1 == Started(newId, SourceOf(db, plan, view))
  {
    var source := SourceOf(db, plan, view);
    FinishStart(ResumeInto(InsertRun(db, newId, plan, source), source, newId, |plan.dumps|),
                newId, source, Selected(plan), bootstrapOk)
  }

  /** The admission transaction, run while the plan's entity locks are held. */
  ghost function AdmitTx(
      db: Db, plan: Plan, view: View, compat: Compatibility, consolidated: map<Entity, RunDump>,
      newId: RunId, now: int, bootstrapOk: bool)
    : Result<(Db, Admission)>
    requires PlanError(plan).None?
  {
    var recovered := MarkAbandonedRuns(db, Selected(plan), now);
    if IsDowngrade(plan, view) then Err("dump predates checkpoint")
    else if !plan.force && compat.selected == |plan.dumps| && 0 < compat.compatible < compat.selected then
      Err("import plan is partially satisfied")
    else if !plan.force && compat.selected == |plan.dumps| && compat.compatible == compat.selected then
      SkipTx(recovered, plan, compat, consolidated, newId, now)
    else
      StartTx(recovered, plan, view, newId, bootstrapOk)
  }

  predicate IncompleteDump(d: RunDump) {
    d.completedAt.None? || d.totalItems.None? || d.totalChunks.None? || d.processedItems != d.totalItems.value
  }

  predicate HasIncompleteDump(db: Db, run: RunId) {
    exists k :: k in db.dumps && k.run == run && IncompleteDump(db.dumps[k])
  }

  /** Every dump of a failed run equals what the current checkpoint of its entity applied. */
  predicate ProgressSuperseded(runs: map<RunId, Run>, dumps: map<DumpKey, RunDump>, run: RunId, view: View) {
    && run in runs && runs[run].status == Failed
    && forall e :: e in EntitiesOf(dumps, run) ==>
         && e in view && DumpKey(view[e].run, e) in dumps
         && dumps[DumpKey(view[e].run, e)].dumpId == dumps[DumpKey(run, e)].dumpId
         && dumps[DumpKey(view[e].run, e)].revision == dumps[DumpKey(run, e)].revision
  }

  /** Drop the ledgers of superseded failed runs, and that of the completed run. */
  function PruneChunks(db: Db, completed: RunId, view: View): map<ChunkKey, ChunkRange> {
    map k | k in db.chunks && k.run != completed && !ProgressSuperseded(db.runs, db.dumps, k.run, view) :: db.chunks[k]
  }

  function CloseRun(db: Db, run: RunId, status: Status, now: int): Db
    requires run in db.runs
  {
    db.(runs := db.runs[run := db.runs[run].(status := status, completedAt := now)])
  }

  function FinishFailure(closed: Db, run: RunId, entities: set<Entity>, failure: string): Result<(Db, bool)> {
    var failed := MarkFailed(closed, run, entities, failure);
    if failed.Err? then Err(failed.error) else Ok((failed.value, false))
  }

  function FinishSuccess(closed: Db, run: RunId, entities: set<Entity>, view: View, bootstrapOk: bool): Result<(Db, bool)> {
    if !bootstrapOk then Err("finalize bootstrap")
    else
      var ready := MarkReady(closed, run, entities);
      if ready.Err? then Err(ready.error) else Ok((ready.value.(chunks := PruneChunks(closed, run, view)), true))
  }

  /** The completion transaction; the outcome says whether the run succeeded. */
  function CompleteTx(
      db: Db, run: RunId, entities: set<Entity>, runErr: Option<string>, view: View, now: int, bootstrapOk: bool)
    : Result<(Db, bool)>
  {
    var failure := if runErr.Some? then runErr
                   else if HasIncompleteDump(db, run) then Some("incomplete entities") else None;
    if !IsRunning(db.runs, run) then Err("import run was not running")
    else if failure.Some? then FinishFailure(CloseRun(db, run, Failed, now), run, entities, failure.value)
    else FinishSuccess(CloseRun(db, run, Success, now), run, entities, view, bootstrapOk)
  }

  // ----- advisory locks -----

  function TryLock(db: Db, session: Session, entity: Entity): Option<Db> {
    if entity in db.locks && db.locks[entity] != session then None
    else Some(db.(locks := db.locks[entity := session]))
  }

  function Unlock(db: Db, session: Session, entity: Entity): Db {
    if entity in db.locks && db.locks[entity] == session then db.(locks := db.locks - {entity}) else db
  }

  /** Everything a closed or lost session held is free again. */
  function DropSession(db: Db, session: Session): Db {
    db.(locks := map e | e in db.locks && db.locks[e] != session :: db.locks[e])
  }
}
