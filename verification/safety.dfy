/** Safety of the import protocol over all histories. */
module Safety {
  import opened Options
  import opened Coverage
  import opened Database
  import opened History
  import opened Invariant
  import opened RunAdmission
  import opened Effects
  import opened Protocol

  // ----- histories -----

  /** The steps can be taken one after the other. */
  ghost predicate Possible(s: State, steps: seq<Step>)
    decreases |steps|
  {
    steps == [] || (Enabled(s, steps[0]) && Possible(Apply(s, steps[0]), steps[1..]))
  }

  ghost function After(s: State, steps: seq<Step>): State
    requires Possible(s, steps)
    decreases |steps|
  {
    if steps == [] then s else After(Apply(s, steps[0]), steps[1..])
  }

  lemma {:induction false} HistoriesKeepInv(s: State, steps: seq<Step>)
    requires Inv(s) && Possible(s, steps)
    ensures Inv(After(s, steps))
    decreases |steps|
  {
    if steps != [] {
      StepKeepsInv(s, steps[0]);
      HistoriesKeepInv(Apply(s, steps[0]), steps[1..]);
    }
  }

  /** The invariant holds after any history of crashes, zombies, failures and resumptions. */
  lemma ReachableStatesAreSafe(s: State, steps: seq<Step>)
    requires Init(s) && Possible(s, steps)
    ensures Inv(After(s, steps))
  {
    InitInv(s);
    HistoriesKeepInv(s, steps);
  }

  // ----- what one step may change -----

  /** A run's status only leaves `Running`; nothing else of it ever changes but the completion time. */
  ghost predicate RunsEvolve(runs: map<RunId, Run>, runs': map<RunId, Run>) {
    forall r :: r in runs ==>
      && r in runs'
      && (|| runs'[r] == runs[r]
          || (runs[r].status == Running && runs'[r].status != Running
              && runs'[r] == runs[r].(status := runs'[r].status, completedAt := runs'[r].completedAt)))
  }

  /** The summaries of a closed run are frozen, and it gains no ledger rows. */
  ghost predicate ClosedRunsFrozen(db: Db, db': Db) {
    && (forall k :: k in db.dumps && !IsRunning(db.runs, k.run) ==> k in db'.dumps && db'.dumps[k] == db.dumps[k])
    && (forall k :: k in db'.dumps && k.run in db.runs ==> k in db.dumps)
    && (forall k :: k in db'.chunks && k.run in db.runs && !IsRunning(db.runs, k.run) ==>
          k in db.chunks && db'.chunks[k] == db.chunks[k])
  }

  /** Business rows change only with a commit of a run that is running before and after it. */
  ghost predicate Fenced(db: Db, db': Db) {
    && db'.base == db.base
    && (|| (db'.history == db.history && db'.content == db.content)
        || exists c :: (db'.history == db.history + [c] && IsRunning(db.runs, c.run) && IsRunning(db'.runs, c.run)))
  }

  /** What was decided at admission stays decided, and a complete summary stays complete. */
  ghost predicate SummaryKept(d: RunDump, d': RunDump) {
    && d'.skipped == d.skipped && d'.dumpId == d.dumpId && d'.chunkSize == d.chunkSize && d'.revision == d.revision
    && (!IncompleteDump(d) ==> !IncompleteDump(d'))
  }

  ghost predicate SummariesKept(dumps: map<DumpKey, RunDump>, dumps': map<DumpKey, RunDump>) {
    forall k :: k in dumps ==> k in dumps' && SummaryKept(dumps[k], dumps'[k])
  }

  ghost predicate StepFrame(db: Db, db': Db) {
    RunsEvolve(db.runs, db'.runs) && ClosedRunsFrozen(db, db') && Fenced(db, db') && SummariesKept(db.dumps, db'.dumps)
  }

  lemma RecordedFrame(db: Db, c: Commit, db': Db)
    requires ChunkRecorded(db, c, db') && RowsOk(db.runs, db.dumps, db.chunks)
    ensures StepFrame(db, db')
  {}

  lemma RootsFrame(db: Db, order: Order, rows: Result<map<int, int>>)
    ensures var r := InsertRoots(db, order, rows); r.Ok? ==> StepFrame(db, r.value)
  {
    var r := InsertRoots(db, order, rows);
    if r.Ok? {
      assert r.value.history == db.history + [RootCommit(order.run, order.entity, rows.value)];
    }
  }

  lemma FinishFrame(db: Db, order: Order, totalItems: int, totalChunks: int, now: int)
    ensures var r := CompleteEntity(db, order, totalItems, totalChunks, now); r.Ok? ==> StepFrame(db, r.value)
  {}

  lemma AddedFrame(db: Db, n: RunId, entities: set<Entity>, db': Db)
    requires RunAdded(db, n, entities, db') && RowsOk(db.runs, db.dumps, db.chunks)
    requires forall k :: k in db'.chunks && k.run in db.runs ==> k in db.chunks && db'.chunks[k] == db.chunks[k]
    ensures StepFrame(db, db')
  {}

  lemma StartFrame(db: Db, plan: Plan, view: View, n: RunId, bootstrapOk: bool, db': Db, source: RunId)
    requires RowsOk(db.runs, db.dumps, db.chunks) && FreshRun(db, n) && source < n && PlanError(plan).None?
    requires StartTx(db, plan, view, n, bootstrapOk) == Ok((db', Started(n, source)))
    ensures StepFrame(db, db')
  {
    StartEffects(db, plan, view, n, bootstrapOk, db', source);
    hide StartTx, PlanError, RowsOk, RunAdded;
    PreparedChunks(db, n, Selected(plan), source, db');
    AddedFrame(db, n, Selected(plan), db');
  }

  lemma PreparedChunks(db: Db, n: RunId, entities: set<Entity>, source: RunId, db': Db)
    requires FreshRun(db, n) && Admitted(db, n, entities, source, db')
    ensures RunAdded(db, n, entities, db')
    ensures forall k :: k in db'.chunks && k.run in db.runs ==> k in db.chunks && db'.chunks[k] == db.chunks[k]
  {}

  lemma SkipFrame(db: Db, n: RunId, added: set<Entity>, entities: set<Entity>, db': Db)
    requires RowsOk(db.runs, db.dumps, db.chunks) && SkipEffects(db, n, added, entities, db')
    requires db'.content == db.content && db'.base == db.base
    ensures StepFrame(db, db')
  {
    if RunAdded(db, n, added, db') {
      AddedFrame(db, n, added, db');
    }
  }

  lemma AbandonFrame(db: Db, entities: set<Entity>, now: int)
    ensures StepFrame(db, MarkAbandonedRuns(db, entities, now))
  {}

  /** Frames compose as long as the first part commits nothing. */
  lemma FramesCompose(a: Db, b: Db, c: Db)
    requires StepFrame(a, b) && StepFrame(b, c) && b.history == a.history && b.content == a.content
    requires b.dumps.Keys == a.dumps.Keys && b.runs.Keys == a.runs.Keys
    ensures StepFrame(a, c)
  {
    SummariesCompose(a.dumps, b.dumps, c.dumps);
    hide SummariesKept;
  }

  lemma SummariesCompose(a: map<DumpKey, RunDump>, b: map<DumpKey, RunDump>, c: map<DumpKey, RunDump>)
    requires SummariesKept(a, b) && SummariesKept(b, c)
    ensures SummariesKept(a, c)
  {
    hide IncompleteDump;
  }

  lemma CompleteFrame(
      db: Db, run: RunId, entities: set<Entity>, runErr: Option<string>, view: View, now: int, bootstrapOk: bool,
      db': Db, success: bool)
    requires CompleteTx(db, run, entities, runErr, view, now, bootstrapOk) == Ok((db', success))
    ensures StepFrame(db, db')
  {
    CompleteEffects(db, run, entities, runErr, view, now, bootstrapOk, db', success);
  }

  lemma AdmitFrame(
      db: Db, plan: Plan, view: View, compat: Compatibility, consolidated: map<Entity, RunDump>,
      n: RunId, now: int, bootstrapOk: bool, r: Result<(Db, Admission)>)
    requires DbInv(db) && FreshRun(db, n) && PlanError(plan).None?
    requires SourceOf(MarkAbandonedRuns(db, Selected(plan), now), plan, view) < n
    requires r == AdmitTx(db, plan, view, compat, consolidated, n, now, bootstrapOk)
    ensures r.Ok? ==> StepFrame(db, r.value.0)
  {
    var recovered := MarkAbandonedRuns(db, Selected(plan), now);
    AbandonFrame(db, Selected(plan), now);
    AbandoningKeepsInv(db, Selected(plan), now);
    AdmitBranches(db, plan, view, compat, consolidated, n, now, bootstrapOk, r);
    RecoveredFrame(recovered, plan, view, compat, consolidated, n, now, bootstrapOk, r);
    if r.Ok? {
      FramesCompose(db, recovered, r.value.0);
    }
  }

  lemma SkippedFrame(
      db: Db, plan: Plan, compat: Compatibility, consolidated: map<Entity, RunDump>, n: RunId, now: int, db': Db, run: RunId)
    requires DbInv(db) && FreshRun(db, n)
    requires SkipTx(db, plan, compat, consolidated, n, now) == Ok((db', Skipped(run)))
    ensures StepFrame(db, db')
  {
    SkipKeepsInv(db, plan, compat, consolidated, n, now, db', run);
    SkipContent(db, plan, compat, consolidated, n, now);
    hide SkipTx, SkipEffects, StepFrame;
    SkipFrame(db, n, consolidated.Keys, Selected(plan), db');
  }

  lemma SkipContent(db: Db, plan: Plan, compat: Compatibility, consolidated: map<Entity, RunDump>, n: RunId, now: int)
    ensures var r := SkipTx(db, plan, compat, consolidated, n, now);
            r.Ok? ==> r.value.0.content == db.content && r.value.0.base == db.base
  {
    hide FinishSkip, RecordConsolidated;
    FinishSkipContent(db, compat.exactRun, Selected(plan));
    FinishSkipContent(RecordConsolidated(db, plan, consolidated, n, now), n, Selected(plan));
    ConsolidatedContent(db, plan, consolidated, n, now);
  }

  lemma FinishSkipContent(recorded: Db, run: RunId, entities: set<Entity>)
    ensures var r := FinishSkip(recorded, run, entities);
            r.Ok? ==> r.value.0.content == recorded.content && r.value.0.base == recorded.base
  {}

  lemma ConsolidatedContent(db: Db, plan: Plan, consolidated: map<Entity, RunDump>, n: RunId, now: int)
    ensures var recorded := RecordConsolidated(db, plan, consolidated, n, now);
            recorded.content == db.content && recorded.base == db.base
  {}

  lemma RecoveredFrame(
      db: Db, plan: Plan, view: View, compat: Compatibility, consolidated: map<Entity, RunDump>,
      n: RunId, now: int, bootstrapOk: bool, r: Result<(Db, Admission)>)
    requires DbInv(db) && FreshRun(db, n) && SourceOf(db, plan, view) < n && PlanError(plan).None?
    requires r.Ok? ==> r == SkipTx(db, plan, compat, consolidated, n, now) || r == StartTx(db, plan, view, n, bootstrapOk)
    ensures r.Ok? ==> StepFrame(db, r.value.0)
  {
    hide SkipTx, StartTx, StepFrame, DbInv, FreshRun, PlanError, SourceOf;
    if r.Ok? && r.value.1.Skipped? {
      SkippedFrame(db, plan, compat, consolidated, n, now, r.value.0, r.value.1.run);
    }
    if r.Ok? && r.value.1.Started? {
      DbInvRows(db);
      StartFrame(db, plan, view, n, bootstrapOk, r.value.0, r.value.1.resumedFrom);
    }
  }

  lemma DbInvRows(db: Db)
    requires DbInv(db)
    ensures RowsOk(db.runs, db.dumps, db.chunks)
  {}

  lemma ChunkStepFrame(db: Db, order: Order, chunk: ChunkMetadata, write: Result<Batch>, r: Result<(Db, ChunkOutcome)>)
    requires RowsOk(db.runs, db.dumps, db.chunks)
    requires r == ExecuteChunk(db, order, chunk, write)
    ensures r.Ok? ==> StepFrame(db, r.value.0)
  {
    if r.Ok? && r.value.1.Written? {
      WrittenEffects(db, order, chunk, write.value, r.value.0);
      RecordedFrame(db, CommitOf(order, chunk, write.value), r.value.0);
    }
  }

  lemma CompleteStepFrame(s: State, session: Session, r: Result<(Db, bool)>)
    requires session in s.coords && (r.Ok? ==> StepFrame(s.db, r.value.0))
    ensures StepFrame(s.db, ApplyCompletion(s, session, r).db)
  {}

  /** Lock and session steps touch no import table. */
  lemma LocksFrame(db: Db, db': Db)
    requires db' == db.(locks := db'.locks)
    ensures StepFrame(db, db')
  {}

  lemma InvRows(s: State)
    requires Inv(s)
    ensures DbInv(s.db) && RowsOk(s.db.runs, s.db.dumps, s.db.chunks)
  {}

  lemma StepFrameHolds(s: State, step: Step)
    requires Inv(s) && Enabled(s, step)
    ensures StepFrame(s.db, Apply(s, step).db)
  {
    hide Inv, DbInv, StepFrame, ExecuteChunk, InsertRoots, CompleteEntity, AdmitTx, CompleteTx;
    InvRows(s);
    LocksFrame(s.db, s.db);
    match step
    case Chunk(order, chunk, write) =>
      ChunkStepFrame(s.db, order, chunk, write, ExecuteChunk(s.db, order, chunk, write));
    case Roots(order, rows) => RootsFrame(s.db, order, rows);
    case Finish(order, totalItems, totalChunks, now) => FinishFrame(s.db, order, totalItems, totalChunks, now);
    case Admit(session, plan, view, compat, consolidated, newId, now, bootstrapOk) =>
      AdmitFrame(s.db, plan, view, compat, consolidated, newId, now, bootstrapOk,
        AdmitTx(s.db, plan, view, compat, consolidated, newId, now, bootstrapOk));
    case Complete(session, runErr, view, now, bootstrapOk) =>
      var c := s.coords[session];
      var r := CompleteTx(s.db, c.runID, c.entities, runErr, view, now, bootstrapOk);
      if r.Ok? {
        CompleteFrame(s.db, c.runID, c.entities, runErr, view, now, bootstrapOk, r.value.0, r.value.1);
      }
      CompleteStepFrame(s, session, r);
    case _ => LocksFrame(s.db, Apply(s, step).db);
  }

  // ----- fencing -----

  /** What a run that stopped running keeps for ever: its row, its summaries, no new commit, no new ledger row. */
  ghost predicate Silent(db: Db, db': Db, r: RunId) {
    && r in db.runs && r in db'.runs && db'.runs[r] == db.runs[r]
    && db.history <= db'.history
    && (forall p :: |db.history| <= p < |db'.history| ==> db'.history[p].run != r)
    && (forall k :: k in db.dumps && k.run == r ==> k in db'.dumps && db'.dumps[k] == db.dumps[k])
    && (forall k :: k in db'.dumps && k.run == r ==> k in db.dumps)
    && (forall k :: k in db'.chunks && k.run == r ==> k in db.chunks && db'.chunks[k] == db.chunks[k])
  }

  lemma SilentStep(a: Db, b: Db, c: Db, r: RunId)
    requires StepFrame(a, b) && Silent(b, c, r) && r in a.runs && !IsRunning(a.runs, r)
    ensures Silent(a, c, r)
  {
    assert forall p :: |a.history| <= p < |b.history| ==> c.history[p] == b.history[p] && b.history[p].run != r;
  }

  /**
   * Fencing: once a run's status has left `Running`, no later history of any workers,
   * coordinators or crashes contains another business commit of that run.
   */
  lemma {:induction false} ClosedRunsAreSilent(s: State, steps: seq<Step>, r: RunId)
    requires Inv(s) && Possible(s, steps)
    requires r in s.db.runs && !IsRunning(s.db.runs, r)
    ensures Silent(s.db, After(s, steps).db, r)
    decreases |steps|
  {
    if steps != [] {
      var s' := Apply(s, steps[0]);
      StepKeepsInv(s, steps[0]);
      StepFrameHolds(s, steps[0]);
      ClosedRunsAreSilent(s', steps[1..], r);
      SilentStep(s.db, s'.db, After(s', steps[1..]).db, r);
    }
  }

  /** A failed run whose ledger was emptied while items were counted is never resumable again. */
  lemma EmptiedRunsAreNeverResumed(s: State, steps: seq<Step>, r: RunId, k: DumpKey, plan: Plan, view: View)
    requires Inv(s) && Possible(s, steps)
    requires r in s.db.runs && !IsRunning(s.db.runs, r) && Emptied(s.db.chunks, r)
    requires k in s.db.dumps && k.run == r && s.db.dumps[k].processedItems != 0
    ensures !Resumable(After(s, steps).db, r, plan, view)
    ensures FindResumableRun(After(s, steps).db, plan, view) != r || r == 0
  {
    ClosedRunsAreSilent(s, steps, r);
    hide Inv, Possible, After;
    NotResumableAfter(s.db, After(s, steps).db, r, k, plan, view);
  }

  lemma NotResumableAfter(db: Db, db': Db, r: RunId, k: DumpKey, plan: Plan, view: View)
    requires Silent(db, db', r) && Emptied(db.chunks, r)
    requires k in db.dumps && k.run == r && db.dumps[k].processedItems != 0
    ensures !Resumable(db', r, plan, view)
    ensures FindResumableRun(db', plan, view) != r || r == 0
  {
    assert LedgerOf(db'.chunks, r, k.entity) == map[];
    assert Items(LedgerOf(db'.chunks, r, k.entity)) == 0;
    EntitiesAreKeys(db'.dumps, r);
    assert DumpKey(r, k.entity) == k;
    hide LedgerOf, SupersededBy;
  }

  /** What a run skips is decided once, when it is admitted; and what is complete stays complete. */
  lemma {:induction false} SkipsAreDecidedAtAdmission(s: State, steps: seq<Step>)
    requires Inv(s) && Possible(s, steps)
    ensures SummariesKept(s.db.dumps, After(s, steps).db.dumps)
    decreases |steps|
  {
    hide IncompleteDump;
    if steps != [] {
      StepKeepsInv(s, steps[0]);
      StepFrameHolds(s, steps[0]);
      SkipsAreDecidedAtAdmission(Apply(s, steps[0]), steps[1..]);
      hide Inv, Enabled, Apply, RunsEvolve, ClosedRunsFrozen, Fenced, SummariesKept;
      SummariesCompose(s.db.dumps, Apply(s, steps[0]).db.dumps, After(s, steps).db.dumps);
    }
  }

  // ----- lock safety -----

  lemma CoordinatorKept(s: State, step: Step, a: Session)
    requires Enabled(s, step) && a in s.coords && s.coords[a].runID != 0
    requires step != Drop(a) && !(step.Complete? && step.session == a)
    ensures a in Apply(s, step).coords && Apply(s, step).coords[a] == s.coords[a]
  {
    hide AdmitTx, CompleteTx, ExecuteChunk, InsertRoots, CompleteEntity, TryLock, Unlock, DropSession, FreshRun, SourceOf,
      MarkAbandonedRuns, PlanError, LockTypes, WellFormedBatch;
  }

  /** The run of a prepared coordinator keeps running until its own session completes it or is lost. */
  lemma LiveRunsKeepRunning(s: State, step: Step, a: Session)
    requires Inv(s) && Enabled(s, step)
    requires a in s.coords && s.coords[a].runID != 0
    requires step != Drop(a) && !(step.Complete? && step.session == a)
    ensures IsRunning(Apply(s, step).db.runs, s.coords[a].runID)
    ensures ActiveFor(Apply(s, step).db, s.coords[a].runID, s.coords[a].entities)
  {
    StepKeepsInv(s, step);
    CoordinatorKept(s, step, a);
    LiveMeansRunning(Apply(s, step), a);
  }

  lemma LiveMeansRunning(s: State, a: Session)
    requires CoordsOk(s) && a in s.coords && s.coords[a].runID != 0
    ensures IsRunning(s.db.runs, s.coords[a].runID) && ActiveFor(s.db, s.coords[a].runID, s.coords[a].entities)
  {
    assert LiveOk(s.db, s.coords[a]);
  }

  /** What completion does to a running run that owns its catalog states, once the outcome is decided. */
  lemma GuardsHold(db: Db, run: RunId, entities: set<Entity>, runErr: Option<string>, view: View, now: int)
    requires IsRunning(db.runs, run) && ActiveFor(db, run, entities)
    ensures var r := CompleteTx(db, run, entities, runErr, view, now, true);
            r.Ok? && (r.value.1 <==> runErr.None? && !HasIncompleteDump(db, run))
  {
    hide PruneChunks, HasIncompleteDump;
  }

  lemma FinishedRuns(closed: Db, run: RunId, entities: set<Entity>, failure: string, view: View)
    ensures var r := FinishFailure(closed, run, entities, failure); r.Ok? ==> r.value.0.runs == closed.runs && !r.value.1
    ensures var r := FinishSuccess(closed, run, entities, view, true); r.Ok? ==> r.value.0.runs == closed.runs && r.value.1
  {
    hide PruneChunks;
  }

  lemma ClosedAs(db: Db, run: RunId, entities: set<Entity>, runErr: Option<string>, view: View, now: int, r: Result<(Db, bool)>)
    requires r == CompleteTx(db, run, entities, runErr, view, now, true) && r.Ok?
    ensures run in r.value.0.runs && r.value.0.runs[run].status == if r.value.1 then Success else Failed
  {
    hide FinishFailure, FinishSuccess, HasIncompleteDump;
    FinishedRuns(CloseRun(db, run, Failed, now), run, entities, if runErr.Some? then runErr.value else "incomplete entities", view);
    FinishedRuns(CloseRun(db, run, Success, now), run, entities, "", view);
  }

  /** Completing a live run never trips over its own guards: the run is running and owns its catalog states. */
  lemma CompletionGuardsHold(s: State, a: Session, runErr: Option<string>, view: View, now: int)
    requires Inv(s) && a in s.coords && s.coords[a].runID != 0
    ensures var c := s.coords[a];
            var r := CompleteTx(s.db, c.runID, c.entities, runErr, view, now, true);
            && r.Ok?
            && (r.value.1 <==> runErr.None? && !HasIncompleteDump(s.db, c.runID))
            && c.runID in r.value.0.runs
            && r.value.0.runs[c.runID].status == if r.value.1 then Success else Failed
  {
    var c := s.coords[a];
    LiveMeansRunning(s, a);
    hide *;
    GuardsHold(s.db, c.runID, c.entities, runErr, view, now);
    ClosedAs(s.db, c.runID, c.entities, runErr, view, now, CompleteTx(s.db, c.runID, c.entities, runErr, view, now, true));
  }

  // ----- conservation and exactly-once -----

  /** The items of a run dump equal the items of its ledger; a failed run may instead have lost its whole ledger. */
  lemma ItemsAreConserved(s: State, k: DumpKey)
    requires Inv(s) && k in s.db.dumps
    ensures IsRunning(s.db.runs, k.run) ==>
              s.db.dumps[k].processedItems == Items(LedgerOf(s.db.chunks, k.run, k.entity))
    ensures s.db.runs[k.run].status == Failed ==>
              || s.db.dumps[k].processedItems == Items(LedgerOf(s.db.chunks, k.run, k.entity))
              || Emptied(s.db.chunks, k.run)
    ensures s.db.runs[k.run].status != Success ==>
              s.db.dumps[k].processedItems == CommittedItems(s.db.history, Path(s.db.runs, k.run), k.entity)
  {
    assert k.run in s.db.runs;
  }

  /** Along the resume path of a running run each chunk was committed at most once, and its ledger says which. */
  lemma CommittedAtMostOnce(s: State, k: DumpKey, i: int)
    requires Inv(s) && k in s.db.dumps && IsRunning(s.db.runs, k.run)
    ensures CommitCount(s.db.history, Path(s.db.runs, k.run), k.entity, i)
            == if i in LedgerOf(s.db.chunks, k.run, k.entity) then 1 else 0
  {
    assert Whole(s.db.runs, s.db.dumps, s.db.chunks, s.db.history, k.run);
  }

  /** What the guards of entity completion say about the run and its ledger. */
  lemma CompletionGuards(db: Db, order: Order, totalItems: int, totalChunks: int, now: int)
    requires CompleteEntity(db, order, totalItems, totalChunks, now).Ok?
    ensures IsRunning(db.runs, order.run) && DumpKey(order.run, order.entity) in db.dumps
    ensures CoverageAccepts(LedgerOf(db.chunks, order.run, order.entity), order.chunkSize, totalItems, totalChunks)
  {
    hide CoverageAccepts, LedgerOf;
  }

  /** When an entity completes, its ledger tiles the source and each chunk was committed exactly once along the path. */
  lemma CompletedExactlyOnce(s: State, order: Order, totalItems: int, totalChunks: int, now: int, i: int)
    requires Inv(s)
    requires CompleteEntity(s.db, order, totalItems, totalChunks, now).Ok?
    ensures Tiles(LedgerOf(s.db.chunks, order.run, order.entity), order.chunkSize, totalItems, totalChunks)
    ensures CommitCount(s.db.history, Path(s.db.runs, order.run), order.entity, i)
            == if 0 <= i < totalChunks then 1 else 0
  {
    var ledger := LedgerOf(s.db.chunks, order.run, order.entity);
    LedgerIndexes(s.db, order.run, order.entity);
    CompletionGuards(s.db, order, totalItems, totalChunks, now);
    CommittedAtMostOnce(s, DumpKey(order.run, order.entity), i);
    AcceptedIndexes(ledger, order.chunkSize, totalItems, totalChunks);
  }

  lemma AcceptedIndexes(ledger: Ledger, chunkSize: int, totalItems: int, totalChunks: int)
    requires Recorded(ledger) && CoverageAccepts(ledger, chunkSize, totalItems, totalChunks)
    ensures Tiles(ledger, chunkSize, totalItems, totalChunks)
    ensures forall i :: i in ledger <==> 0 <= i < totalChunks
  {
    AcceptsIffTiles(ledger, chunkSize, totalItems, totalChunks);
    assert ledger.Keys == Indexes(totalChunks);
  }

  lemma LedgerIndexes(db: Db, run: RunId, e: Entity)
    requires RowsOk(db.runs, db.dumps, db.chunks)
    ensures Recorded(LedgerOf(db.chunks, run, e))
  {
    forall i | i in LedgerOf(db.chunks, run, e)
      ensures 0 <= i && 0 < LedgerOf(db.chunks, run, e)[i].count
    {
      assert ChunkKey(run, e, i) in db.chunks;
    }
  }

  // ----- the same over whole histories -----

  /** After any history: item counters, ledgers and the commits of the resume path agree. */
  lemma HistoriesConserveItems(start: State, steps: seq<Step>, k: DumpKey)
    requires Init(start) && Possible(start, steps) && k in After(start, steps).db.dumps
    ensures k.run in After(start, steps).db.runs
    ensures var db := After(start, steps).db;
            db.runs[k.run].status != Success ==>
              && db.dumps[k].processedItems == CommittedItems(db.history, Path(db.runs, k.run), k.entity)
              && (|| db.dumps[k].processedItems == Items(LedgerOf(db.chunks, k.run, k.entity))
                  || (db.runs[k.run].status == Failed && Emptied(db.chunks, k.run)))
  {
    ReachableStatesAreSafe(start, steps);
    ItemsAreConserved(After(start, steps), k);
  }

  /** After any history: along the path of a running run no chunk was committed twice, and its ledger lists the committed ones. */
  lemma HistoriesCommitAtMostOnce(start: State, steps: seq<Step>, k: DumpKey, i: int)
    requires Init(start) && Possible(start, steps)
    requires k in After(start, steps).db.dumps && IsRunning(After(start, steps).db.runs, k.run)
    ensures var db := After(start, steps).db;
            CommitCount(db.history, Path(db.runs, k.run), k.entity, i)
            == if i in LedgerOf(db.chunks, k.run, k.entity) then 1 else 0
  {
    ReachableStatesAreSafe(start, steps);
    hide *;
    CommittedAtMostOnce(After(start, steps), k, i);
  }

  /** After any history: an entity that completes had each of its chunks committed exactly once, and no other. */
  lemma HistoriesCommitExactlyOnce(
      start: State, steps: seq<Step>, order: Order, totalItems: int, totalChunks: int, now: int, i: int)
    requires Init(start) && Possible(start, steps)
    requires CompleteEntity(After(start, steps).db, order, totalItems, totalChunks, now).Ok?
    ensures var db := After(start, steps).db;
            && Tiles(LedgerOf(db.chunks, order.run, order.entity), order.chunkSize, totalItems, totalChunks)
            && CommitCount(db.history, Path(db.runs, order.run), order.entity, i) == if 0 <= i < totalChunks then 1 else 0
  {
    ReachableStatesAreSafe(start, steps);
    hide *;
    CompletedExactlyOnce(After(start, steps), order, totalItems, totalChunks, now, i);
  }

  /**
   * What a chunk transaction reports is true: an already completed chunk was committed once along the
   * resume path, with exactly this range, and is not written again; a chunk committed with another range
   * is an error; a written one had not been committed and now has.
   */
  ghost predicate ReportsTruly(
      db: Db, path: set<RunId>, ledger: Ledger, order: Order, chunk: ChunkMetadata, r: Result<(Db, ChunkOutcome)>)
  {
    && (r.Ok? && r.value.1 == AlreadyCompleted ==>
          && r.value.0 == db && CommitCount(db.history, path, order.entity, chunk.index) == 1
          && chunk.index in ledger && ledger[chunk.index] == chunk.range)
    && (forall p :: 0 <= p < |db.history| && IsChunk(db.history[p], path, order.entity) && db.history[p].index == chunk.index ==>
          && (db.history[p].range != chunk.range ==> r.Err?)
          && (db.history[p].range == chunk.range && order.resume ==> r == Ok((db, AlreadyCompleted))))
    && (r.Ok? && r.value.1 == ChunkOutcome.Written ==>
          && CommitCount(db.history, path, order.entity, chunk.index) == 0
          && CommitCount(r.value.0.history, path, order.entity, chunk.index) == 1)
  }

  /** After any history, every chunk transaction of a running run reports truly. */
  lemma HistoriesReportChunksTruly(start: State, steps: seq<Step>, order: Order, chunk: ChunkMetadata, write: Result<Batch>)
    requires Init(start) && Possible(start, steps)
    requires DumpKey(order.run, order.entity) in After(start, steps).db.dumps && IsRunning(After(start, steps).db.runs, order.run)
    ensures var db := After(start, steps).db;
            ReportsTruly(db, Path(db.runs, order.run), LedgerOf(db.chunks, order.run, order.entity), order, chunk,
              ExecuteChunk(db, order, chunk, write))
  {
    hide *;
    ReachableStatesAreSafe(start, steps);
    var s := After(start, steps);
    RunExists(s.db, order.run);
    var ledger := LedgerOf(s.db.chunks, order.run, order.entity);
    OwnMirror(s, DumpKey(order.run, order.entity));
    ChunkBranches(s.db, order, chunk, write, ledger);
    WrittenOnce(s, order, chunk, write);
    TrueReport(s.db, Path(s.db.runs, order.run), ledger, order, chunk, ExecuteChunk(s.db, order, chunk, write));
  }

  /** When the chunk transaction takes which way. */
  ghost predicate Branches(db: Db, ledger: Ledger, order: Order, chunk: ChunkMetadata, r: Result<(Db, ChunkOutcome)>) {
    var range := if chunk.index in ledger then Some(ledger[chunk.index]) else None;
    && (r.Ok? && r.value.1 == AlreadyCompleted ==> r.value.0 == db && range == Some(chunk.range))
    && (range.Some? && range.value != chunk.range ==> r.Err?)
    && (range == Some(chunk.range) && order.resume ==> r == Ok((db, AlreadyCompleted)))
    && (r.Ok? && r.value.1 == ChunkOutcome.Written ==> range == None)
  }

  lemma ChunkBranches(db: Db, order: Order, chunk: ChunkMetadata, write: Result<Batch>, ledger: Ledger)
    requires ledger == LedgerOf(db.chunks, order.run, order.entity)
    ensures Branches(db, ledger, order, chunk, ExecuteChunk(db, order, chunk, write))
  {
    InLedger(db.chunks, order.run, order.entity, chunk.index);
    hide WriteBatch, LedgerOf;
  }

  lemma TrueReport(
      db: Db, path: set<RunId>, ledger: Ledger, order: Order, chunk: ChunkMetadata, r: Result<(Db, ChunkOutcome)>)
    requires Mirrors(ledger, db.history, path, order.entity) && Branches(db, ledger, order, chunk, r)
    requires r.Ok? && r.value.1 == ChunkOutcome.Written ==>
               CommitCount(r.value.0.history, path, order.entity, chunk.index)
               == CommitCount(db.history, path, order.entity, chunk.index) + 1
    ensures ReportsTruly(db, path, ledger, order, chunk, r)
  {
    hide CommitCount;
  }

  lemma RunExists(db: Db, run: RunId)
    requires IsRunning(db.runs, run)
    ensures run in db.runs
  {}

  lemma WrittenOnce(s: State, order: Order, chunk: ChunkMetadata, write: Result<Batch>)
    requires Inv(s) && order.run in s.db.runs
    ensures var r, path := ExecuteChunk(s.db, order, chunk, write), Path(s.db.runs, order.run);
            r.Ok? && r.value.1 == ChunkOutcome.Written ==>
              CommitCount(r.value.0.history, path, order.entity, chunk.index)
              == CommitCount(s.db.history, path, order.entity, chunk.index) + 1
  {
    var r := ExecuteChunk(s.db, order, chunk, write);
    WrittenHasBatch(s.db, order, chunk, write);
    RunOnOwnPath(s, order.run);
    hide Inv, Path, CommitCount, ExecuteChunk;
    if r.Ok? && r.value.1 == ChunkOutcome.Written {
      WrittenEffects(s.db, order, chunk, write.value, r.value.0);
      Append(s.db.history, CommitOf(order, chunk, write.value), Path(s.db.runs, order.run), order.entity);
    }
  }

  lemma WrittenHasBatch(db: Db, order: Order, chunk: ChunkMetadata, write: Result<Batch>)
    ensures var r := ExecuteChunk(db, order, chunk, write); r.Ok? && r.value.1 == ChunkOutcome.Written ==> write.Ok?
  {
    hide CommitBatch, RecordCompletedChunk;
  }

  lemma InLedger(chunks: map<ChunkKey, ChunkRange>, run: RunId, e: Entity, i: int)
    ensures i in LedgerOf(chunks, run, e) <==> ChunkKey(run, e, i) in chunks
    ensures i in LedgerOf(chunks, run, e) ==> LedgerOf(chunks, run, e)[i] == chunks[ChunkKey(run, e, i)]
  {}

  lemma OwnMirror(s: State, k: DumpKey)
    requires Inv(s) && k in s.db.dumps && IsRunning(s.db.runs, k.run)
    ensures Mirrors(LedgerOf(s.db.chunks, k.run, k.entity), s.db.history, Path(s.db.runs, k.run), k.entity)
  {
    assert Whole(s.db.runs, s.db.dumps, s.db.chunks, s.db.history, k.run);
  }

  lemma RunOnOwnPath(s: State, run: RunId)
    requires Inv(s) && run in s.db.runs
    ensures run in Path(s.db.runs, run)
  {
    PathMembers(s.db.runs, |s.db.history|, run);
  }

  /** After any history: a coordinator that is still alive completes its run without tripping over a guard. */
  lemma HistoriesKeepCompletionPossible(
      start: State, steps: seq<Step>, a: Session, runErr: Option<string>, view: View, now: int)
    requires Init(start) && Possible(start, steps)
    requires a in After(start, steps).coords && After(start, steps).coords[a].runID != 0
    ensures var s := After(start, steps);
            var r := CompleteTx(s.db, s.coords[a].runID, s.coords[a].entities, runErr, view, now, true);
            r.Ok? && (r.value.1 <==> runErr.None? && !HasIncompleteDump(s.db, s.coords[a].runID))
  {
    ReachableStatesAreSafe(start, steps);
    hide *;
    CompletionGuardsHold(After(start, steps), a, runErr, view, now);
  }
}
