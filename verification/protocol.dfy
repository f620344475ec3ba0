/**
 * The durable import protocol: coordinators with advisory locks, workers that may outlive
 * them, and a database. Every transaction is atomic; their interleaving is arbitrary.
 */
module Protocol {
  import opened Options
  import opened Database
  import opened History
  import opened Invariant
  import opened RunAdmission
  import opened Effects

  /** A coordinator on its lock session; `runID` is 0 before admission and after completion. */
  datatype Coordinator = Coordinator(runID: RunId, entities: set<Entity>, held: set<Entity>)

  datatype State = State(db: Db, coords: map<Session, Coordinator>)

  datatype Step =
    | Open(session: Session)
    | Lock(session: Session, entity: Entity)
    | Release(session: Session, entity: Entity)
      // the session ends: an orderly close, a crash, or a lost connection
    | Drop(session: Session)
    | Admit(session: Session, plan: Plan, view: View, compat: Compatibility, consolidated: map<Entity, RunDump>,
            newId: RunId, now: int, bootstrapOk: bool)
    | Complete(session: Session, runErr: Option<string>, view: View, now: int, bootstrapOk: bool)
      // worker transactions carry only a run identifier: they go on after their coordinator died
    | Chunk(order: Order, chunk: ChunkMetadata, write: Result<Batch>)
    | Roots(order: Order, rows: Result<map<int, int>>)
    | Finish(order: Order, totalItems: int, totalChunks: int, now: int)

  ghost predicate Enabled(s: State, step: Step) {
    match step
    case Open(session) => session !in s.coords
    case Lock(session, _) => session in s.coords && s.coords[session].runID == 0
    case Release(session, _) => session in s.coords && s.coords[session].runID == 0
    case Drop(session) => session in s.coords
    case Admit(session, plan, view, compat, _, newId, now, _) =>
      && session in s.coords && s.coords[session].runID == 0
      && PlanError(plan).None?
      && LockTypes(Selected(plan)) <= s.coords[session].held
      && FreshRun(s.db, newId) && SourceOf(MarkAbandonedRuns(s.db, Selected(plan), now), plan, view) < newId
      && (compat.exactRun != 0 ==> compat.exactRun in s.db.runs && s.db.runs[compat.exactRun].status == Success)
    case Complete(session, _, _, _, _) => session in s.coords && s.coords[session].runID != 0
    case Chunk(order, chunk, write) =>
      && DumpKey(order.run, order.entity) in s.db.dumps
      && 0 <= chunk.index && 0 < chunk.range.count
      && (write.Ok? ==> WellFormedBatch(write.value))
    case Roots(order, _) => DumpKey(order.run, order.entity) in s.db.dumps
    case Finish(order, _, _, _) => DumpKey(order.run, order.entity) in s.db.dumps
  }

  ghost function Apply(s: State, step: Step): State
    requires Enabled(s, step)
  {
    match step
    case Open(session) => s.(coords := s.coords[session := Coordinator(0, {}, {})])
    case Lock(session, entity) => ApplyLock(s, session, entity)
    case Release(session, entity) =>
      s.(db := Unlock(s.db, session, entity),
         coords := s.coords[session := s.coords[session].(held := s.coords[session].held - {entity})])
    case Drop(session) => State(DropSession(s.db, session), s.coords - {session})
    case Admit(session, plan, view, compat, consolidated, newId, now, bootstrapOk) =>
      ApplyAdmission(s, session, plan, AdmitTx(s.db, plan, view, compat, consolidated, newId, now, bootstrapOk))
    case Complete(session, runErr, view, now, bootstrapOk) =>
      ApplyCompletion(s, session, CompleteTx(
        s.db, s.coords[session].runID, s.coords[session].entities, runErr, view, now, bootstrapOk))
    case Chunk(order, chunk, write) => ApplyChunk(s, ExecuteChunk(s.db, order, chunk, write))
    case Roots(order, rows) => ApplyWorker(s, InsertRoots(s.db, order, rows))
    case Finish(order, totalItems, totalChunks, now) =>
      ApplyWorker(s, CompleteEntity(s.db, order, totalItems, totalChunks, now))
  }

  ghost function ApplyChunk(s: State, r: Result<(Db, ChunkOutcome)>): State {
    if r.Ok? then s.(db := r.value.0) else s
  }

  ghost function ApplyWorker(s: State, r: Result<Db>): State {
    if r.Ok? then s.(db := r.value) else s
  }

  /** Whatever completion did, the coordinator acts no more. */
  ghost function ApplyCompletion(s: State, session: Session, r: Result<(Db, bool)>): State
    requires session in s.coords
  {
    State(if r.Ok? then r.value.0 else s.db,
          s.coords[session := s.coords[session].(runID := 0, entities := {})])
  }

  ghost function ApplyLock(s: State, session: Session, entity: Entity): State
    requires session in s.coords
  {
    var locked := TryLock(s.db, session, entity);
    if locked.None? then s
    else State(locked.value, s.coords[session := s.coords[session].(held := s.coords[session].held + {entity})])
  }

  ghost function ApplyAdmission(s: State, session: Session, plan: Plan, r: Result<(Db, Admission)>): State
    requires session in s.coords
  {
    if r.Err? then s
    else if r.value.1.Skipped? then s.(db := r.value.0)
    else
      State(r.value.0,
            s.coords[session := Coordinator(r.value.1.run, Selected(plan), s.coords[session].held)])
  }

  // ----- the invariant -----

  /** A coordinator holds exactly the locks the database granted to its session. */
  ghost predicate LocksOk(s: State) {
    && (forall a, e :: a in s.coords ==> (e in s.coords[a].held <==> e in s.db.locks && s.db.locks[e] == a))
    && (forall e :: e in s.db.locks ==> s.db.locks[e] in s.coords)
  }

  /** A prepared coordinator's run is running, locked, and active for each of its entities. */
  ghost predicate LiveOk(db: Db, c: Coordinator) {
    c.runID != 0 ==>
      && IsRunning(db.runs, c.runID)
      && EntitiesOf(db.dumps, c.runID) == c.entities && c.entities != {}
      && LockTypes(c.entities) <= c.held
      && ActiveFor(db, c.runID, c.entities)
  }

  ghost predicate CoordsOk(s: State) {
    LocksOk(s) && forall a :: a in s.coords ==> LiveOk(s.db, s.coords[a])
  }

  ghost predicate Inv(s: State) {
    DbInv(s.db) && CoordsOk(s)
  }

  ghost predicate Init(s: State) {
    && s.coords == map[] && s.db.locks == map[]
    && s.db.runs == map[] && s.db.dumps == map[] && s.db.chunks == map[]
    && s.db.history == [] && s.db.content == s.db.base
  }

  lemma InitInv(s: State)
    requires Init(s)
    ensures Inv(s)
  {}

  /** Two sessions never hold a lock for the same entity. */
  lemma LocksAreExclusive(s: State, a: Session, b: Session)
    requires LocksOk(s) && a in s.coords && b in s.coords && a != b
    ensures s.coords[a].held !! s.coords[b].held
  {
    forall e | e in s.coords[a].held
      ensures e !in s.coords[b].held
    {
      assert e in s.db.locks && s.db.locks[e] == a;
    }
  }

  /** A run that lives on another session shares no entity with a locked plan. */
  lemma LiveRunsAreDisjoint(s: State, session: Session, other: Session, entities: set<Entity>)
    requires LocksOk(s) && session in s.coords && other in s.coords && session != other
    requires LockTypes(entities) <= s.coords[session].held
    requires LiveOk(s.db, s.coords[other]) && s.coords[other].runID != 0
    ensures s.coords[other].entities !! entities
    ensures !Abandoned(s.db, s.coords[other].runID, entities)
  {
    LocksAreExclusive(s, session, other);
    SelectedAreLocked(entities);
    SelectedAreLocked(s.coords[other].entities);
  }

  lemma LocksKeepDbInv(db: Db, db': Db)
    requires DbInv(db) && db' == db.(locks := db'.locks)
    ensures DbInv(db')
  {
    hide RunsOk, RowsOk, HistoryOk, Tallied, LedgersOk, Exclusive, TailOwned, Replayed;
  }

  /** What a lock or session step may change: locks, and coordinators that are not prepared. */
  ghost predicate OnlyLocks(s: State, s': State) {
    && s'.db == s.db.(locks := s'.db.locks)
    && LocksOk(s')
    && forall a :: a in s'.coords ==> s'.coords[a].runID == 0 || (a in s.coords && s'.coords[a] == s.coords[a])
  }

  lemma LockStep(s: State, session: Session, entity: Entity)
    requires LocksOk(s) && session in s.coords && s.coords[session].runID == 0
    ensures OnlyLocks(s, ApplyLock(s, session, entity))
  {}

  lemma ReleaseStep(s: State, session: Session, entity: Entity, s': State)
    requires LocksOk(s) && session in s.coords && s.coords[session].runID == 0
    requires s' == s.(db := Unlock(s.db, session, entity),
                      coords := s.coords[session := s.coords[session].(held := s.coords[session].held - {entity})])
    ensures OnlyLocks(s, s')
  {}

  lemma DropStep(s: State, session: Session)
    requires LocksOk(s) && session in s.coords
    ensures OnlyLocks(s, State(DropSession(s.db, session), s.coords - {session}))
  {}

  lemma OpenStep(s: State, session: Session)
    requires LocksOk(s) && session !in s.coords
    ensures OnlyLocks(s, s.(coords := s.coords[session := Coordinator(0, {}, {})]))
  {}

  lemma LockStepsKeepInv(s: State, step: Step)
    requires Inv(s) && Enabled(s, step)
    requires step.Open? || step.Lock? || step.Release? || step.Drop?
    ensures Inv(Apply(s, step))
  {
    var s' := Apply(s, step);
    hide DbInv, LocksOk, LockTypes, EntitiesOf, IsRunning, OnlyLocks, Unlock, DropSession, ApplyLock;
    match step {
      case Open(session) => OpenStep(s, session);
      case Lock(session, entity) => LockStep(s, session, entity);
      case Release(session, entity) => ReleaseStep(s, session, entity, s');
      case Drop(session) => DropStep(s, session);
    }
    OnlyLocksKeepInv(s, s');
  }

  lemma OnlyLocksKeepInv(s: State, s': State)
    requires Inv(s) && OnlyLocks(s, s')
    ensures Inv(s')
  {
    LocksKeepDbInv(s.db, s'.db);
    hide DbInv, LocksOk, LockTypes, EntitiesOf, IsRunning;
    forall a | a in s'.coords
      ensures LiveOk(s'.db, s'.coords[a])
    {}
  }

  // ----- worker steps -----

  /** What a worker transaction leaves alone. */
  ghost predicate WorkerFrame(db: Db, db': Db) {
    && db'.runs == db.runs && db'.dumps.Keys == db.dumps.Keys
    && db'.catalog == db.catalog && db'.locks == db.locks
  }

  /** Coordinators do not read what a worker transaction changes. */
  lemma WorkerKeepsCoordinators(s: State, db': Db)
    requires CoordsOk(s) && WorkerFrame(s.db, db')
    ensures CoordsOk(s.(db := db'))
  {
    forall a | a in s.coords
      ensures LiveOk(db', s.coords[a])
    {
      EntitiesAreKeys(s.db.dumps, s.coords[a].runID);
      EntitiesAreKeys(db'.dumps, s.coords[a].runID);
      assert EntitiesOf(db'.dumps, s.coords[a].runID) == EntitiesOf(s.db.dumps, s.coords[a].runID);
    }
  }

  lemma ChunkKeepsDbInv(db: Db, order: Order, chunk: ChunkMetadata, write: Result<Batch>, r: Result<(Db, ChunkOutcome)>)
    requires DbInv(db) && 0 <= chunk.index && 0 < chunk.range.count && (write.Ok? ==> WellFormedBatch(write.value))
    requires r == ExecuteChunk(db, order, chunk, write)
    ensures r.Ok? ==> DbInv(r.value.0)
  {
    if r.Ok? && r.value.1.Written? {
      WrittenEffects(db, order, chunk, write.value, r.value.0);
      WrittenKeepsInv(db, CommitOf(order, chunk, write.value), r.value.0);
    }
  }

  lemma ChunkFrame(db: Db, order: Order, chunk: ChunkMetadata, write: Result<Batch>, r: Result<(Db, ChunkOutcome)>)
    requires r == ExecuteChunk(db, order, chunk, write)
    ensures r.Ok? ==> WorkerFrame(db, r.value.0)
  {
    hide CommitBatch;
    BatchFrame(db, order, chunk, write);
  }

  lemma BatchFrame(db: Db, order: Order, chunk: ChunkMetadata, write: Result<Batch>)
    ensures write.Ok? ==> var db' := CommitBatch(db, order, chunk, write.value);
              db' == db.(content := db'.content, history := db'.history)
  {
    hide WriteBatch, EntityContent;
  }

  lemma ChunkKeepsInv(s: State, order: Order, chunk: ChunkMetadata, write: Result<Batch>, r: Result<(Db, ChunkOutcome)>)
    requires Inv(s) && 0 <= chunk.index && 0 < chunk.range.count && (write.Ok? ==> WellFormedBatch(write.value))
    requires r == ExecuteChunk(s.db, order, chunk, write)
    ensures Inv(ApplyChunk(s, r))
  {
    ChunkKeepsDbInv(s.db, order, chunk, write, r);
    ChunkFrame(s.db, order, chunk, write, r);
    if r.Ok? {
      WorkerKeepsCoordinators(s, r.value.0);
    }
  }

  lemma RootsKeepStateInv(s: State, order: Order, rows: Result<map<int, int>>)
    requires Inv(s) && DumpKey(order.run, order.entity) in s.db.dumps
    ensures Inv(ApplyWorker(s, InsertRoots(s.db, order, rows)))
  {
    var r := InsertRoots(s.db, order, rows);
    if r.Ok? {
      RootsKeepInv(s.db, order, rows.value, r.value);
      WorkerKeepsCoordinators(s, r.value);
    }
  }

  lemma FinishKeepsInv(s: State, order: Order, totalItems: int, totalChunks: int, now: int)
    requires Inv(s)
    ensures Inv(ApplyWorker(s, CompleteEntity(s.db, order, totalItems, totalChunks, now)))
  {
    var r := CompleteEntity(s.db, order, totalItems, totalChunks, now);
    if r.Ok? {
      CountersKeepInv(s.db, r.value.dumps);
      WorkerKeepsCoordinators(s, r.value);
    }
  }

  // ----- admission -----

  lemma NewEntities(db: Db, n: RunId, entities: set<Entity>, db': Db)
    requires RowsOk(db.runs, db.dumps, db.chunks) && RunAdded(db, n, entities, db')
    ensures EntitiesOf(db'.dumps, n) == entities
    ensures forall r :: r in db.runs ==> EntitiesOf(db'.dumps, r) == EntitiesOf(db.dumps, r)
  {
    EntitiesAreKeys(db'.dumps, n);
    forall e
      ensures e in EntitiesOf(db'.dumps, n) <==> e in entities
    {
      assert DumpKey(n, e) !in db.dumps;
    }
    forall r | r in db.runs
      ensures EntitiesOf(db'.dumps, r) == EntitiesOf(db.dumps, r)
    {
      EntitiesAreKeys(db'.dumps, r);
      EntitiesAreKeys(db.dumps, r);
    }
  }

  lemma AddedOthers(db: Db, n: RunId, added: set<Entity>, entities: set<Entity>, db': Db, c: Coordinator)
    requires RowsOk(db.runs, db.dumps, db.chunks) && LiveOk(db, c)
    requires RunAdded(db, n, added, db') || (db'.runs == db.runs && db'.dumps == db.dumps)
    requires c.runID != 0 ==> c.entities !! entities
    requires forall e :: e in db.catalog && e !in entities ==> e in db'.catalog && db'.catalog[e] == db.catalog[e]
    ensures LiveOk(db', c)
  {
    if c.runID != 0 && RunAdded(db, n, added, db') {
      NewEntities(db, n, added, db');
    }
  }

  /** A session about to admit a plan, holding its locks. */
  ghost predicate HoldsLocks(s: State, session: Session, entities: set<Entity>) {
    session in s.coords && s.coords[session].runID == 0 && LockTypes(entities) <= s.coords[session].held
  }

  /** Recovery fails no run of a live coordinator. */
  lemma RecoveryKeepsCoordinators(s: State, session: Session, entities: set<Entity>, now: int)
    requires CoordsOk(s) && HoldsLocks(s, session, entities)
    ensures CoordsOk(s.(db := MarkAbandonedRuns(s.db, entities, now)))
  {
    var db := MarkAbandonedRuns(s.db, entities, now);
    forall a | a in s.coords && a != session
      ensures LiveOk(db, s.coords[a])
    {
      if s.coords[a].runID != 0 {
        LiveRunsAreDisjoint(s, session, a, entities);
      }
    }
  }

  lemma OtherCoordinatorsKept(s: State, session: Session, n: RunId, added: set<Entity>, entities: set<Entity>, db': Db)
    requires CoordsOk(s) && HoldsLocks(s, session, entities) && RowsOk(s.db.runs, s.db.dumps, s.db.chunks)
    requires RunAdded(s.db, n, added, db') || (db'.runs == s.db.runs && db'.dumps == s.db.dumps)
    requires forall e :: e in s.db.catalog && e !in entities ==> e in db'.catalog && db'.catalog[e] == s.db.catalog[e]
    ensures forall a :: a in s.coords && a != session ==> LiveOk(db', s.coords[a])
  {
    forall a | a in s.coords && a != session
      ensures LiveOk(db', s.coords[a])
    {
      if s.coords[a].runID != 0 {
        LiveRunsAreDisjoint(s, session, a, entities);
      }
      AddedOthers(s.db, n, added, entities, db', s.coords[a]);
    }
  }

  lemma AdmittedCoords(s: State, session: Session, n: RunId, entities: set<Entity>, source: RunId, db': Db)
    requires CoordsOk(s) && HoldsLocks(s, session, entities) && RowsOk(s.db.runs, s.db.dumps, s.db.chunks)
    requires entities != {} && Admitted(s.db, n, entities, source, db')
    ensures CoordsOk(State(db', s.coords[session := Coordinator(n, entities, s.coords[session].held)]))
  {
    NewEntities(s.db, n, entities, db');
    OtherCoordinatorsKept(s, session, n, entities, entities, db');
    assert LiveOk(db', Coordinator(n, entities, s.coords[session].held));
  }

  lemma SkippedCoords(s: State, session: Session, n: RunId, added: set<Entity>, entities: set<Entity>, db': Db)
    requires CoordsOk(s) && HoldsLocks(s, session, entities) && RowsOk(s.db.runs, s.db.dumps, s.db.chunks)
    requires SkipEffects(s.db, n, added, entities, db')
    ensures CoordsOk(s.(db := db'))
  {
    OtherCoordinatorsKept(s, session, n, added, entities, db');
  }

  lemma StartedStateInv(
      s: State, session: Session, plan: Plan, view: View, n: RunId, bootstrapOk: bool, db': Db, source: RunId)
    requires Inv(s) && HoldsLocks(s, session, Selected(plan)) && PlanError(plan).None?
    requires FreshRun(s.db, n) && source < n && Idle(s.db, Selected(plan))
    requires StartTx(s.db, plan, view, n, bootstrapOk) == Ok((db', Started(n, source)))
    ensures Inv(State(db', s.coords[session := Coordinator(n, Selected(plan), s.coords[session].held)]))
  {
    StartKeepsInv(s.db, plan, view, n, bootstrapOk, db', source);
    assert plan.dumps[0].entity in Selected(plan);
    AdmittedCoords(s, session, n, Selected(plan), source, db');
  }

  lemma SkippedStateInv(
      s: State, session: Session, plan: Plan, compat: Compatibility, consolidated: map<Entity, RunDump>,
      n: RunId, now: int, db': Db, run: RunId)
    requires Inv(s) && HoldsLocks(s, session, Selected(plan)) && FreshRun(s.db, n)
    requires SkipTx(s.db, plan, compat, consolidated, n, now) == Ok((db', Skipped(run)))
    ensures Inv(s.(db := db'))
  {
    SkipKeepsInv(s.db, plan, compat, consolidated, n, now, db', run);
    SkippedCoords(s, session, n, consolidated.Keys, Selected(plan), db');
  }

  /** The decision of the admission transaction, once abandoned runs are recovered. */
  lemma RecoveredAdmission(
      s: State, session: Session, plan: Plan, view: View, compat: Compatibility, consolidated: map<Entity, RunDump>,
      n: RunId, now: int, bootstrapOk: bool, r: Result<(Db, Admission)>)
    requires Inv(s) && HoldsLocks(s, session, Selected(plan)) && PlanError(plan).None?
    requires FreshRun(s.db, n) && SourceOf(s.db, plan, view) < n && Idle(s.db, Selected(plan))
    requires r.Ok? ==> r == SkipTx(s.db, plan, compat, consolidated, n, now) || r == StartTx(s.db, plan, view, n, bootstrapOk)
    ensures r.Ok? ==> Inv(ApplyAdmission(s, session, plan, r))
  {
    if r.Ok? && r.value.1.Skipped? {
      SkippedStateInv(s, session, plan, compat, consolidated, n, now, r.value.0, r.value.1.run);
    }
    if r.Ok? && r.value.1.Started? {
      StartedStateInv(s, session, plan, view, n, bootstrapOk, r.value.0, r.value.1.resumedFrom);
    }
  }

  lemma AdmitBranches(
      db: Db, plan: Plan, view: View, compat: Compatibility, consolidated: map<Entity, RunDump>,
      n: RunId, now: int, bootstrapOk: bool, r: Result<(Db, Admission)>)
    requires PlanError(plan).None?
    requires r == AdmitTx(db, plan, view, compat, consolidated, n, now, bootstrapOk)
    ensures var recovered := MarkAbandonedRuns(db, Selected(plan), now);
            r.Ok? ==> r == SkipTx(recovered, plan, compat, consolidated, n, now) || r == StartTx(recovered, plan, view, n, bootstrapOk)
  {
    hide SkipTx, StartTx, Selected, PlanError, IsDowngrade, MarkAbandonedRuns;
  }

  lemma AdmitKeepsInv(
      s: State, session: Session, plan: Plan, view: View, compat: Compatibility, consolidated: map<Entity, RunDump>,
      n: RunId, now: int, bootstrapOk: bool, r: Result<(Db, Admission)>)
    requires Inv(s) && HoldsLocks(s, session, Selected(plan)) && PlanError(plan).None? && FreshRun(s.db, n)
    requires SourceOf(MarkAbandonedRuns(s.db, Selected(plan), now), plan, view) < n
    requires r == AdmitTx(s.db, plan, view, compat, consolidated, n, now, bootstrapOk)
    ensures Inv(ApplyAdmission(s, session, plan, r))
  {
    var recovered := s.(db := MarkAbandonedRuns(s.db, Selected(plan), now));
    AbandoningKeepsInv(s.db, Selected(plan), now);
    RecoveryKeepsCoordinators(s, session, Selected(plan), now);
    AdmitBranches(s.db, plan, view, compat, consolidated, n, now, bootstrapOk, r);
    RecoveredAdmission(recovered, session, plan, view, compat, consolidated, n, now, bootstrapOk, r);
  }

  // ----- completion -----

  /** Two prepared coordinators run different runs. */
  lemma CoordinatorsDiffer(s: State, a: Session, b: Session)
    requires LocksOk(s) && a in s.coords && b in s.coords && a != b
    requires LiveOk(s.db, s.coords[a]) && LiveOk(s.db, s.coords[b])
    requires s.coords[a].runID != 0 && s.coords[b].runID != 0
    ensures s.coords[a].runID != s.coords[b].runID
  {
    LiveRunsAreDisjoint(s, a, b, s.coords[a].entities);
  }

  lemma CompletedCoords(s: State, session: Session, db': Db)
    requires CoordsOk(s) && session in s.coords && s.coords[session].runID != 0
    requires db'.dumps == s.db.dumps && db'.locks == s.db.locks && db'.runs.Keys == s.db.runs.Keys
    requires forall r :: r in s.db.runs && r != s.coords[session].runID ==> db'.runs[r] == s.db.runs[r]
    requires forall e :: e in s.db.catalog && e !in s.coords[session].entities ==>
               e in db'.catalog && db'.catalog[e] == s.db.catalog[e]
    ensures CoordsOk(State(db', s.coords[session := s.coords[session].(runID := 0, entities := {})]))
  {
    forall a | a in s.coords && a != session
      ensures LiveOk(db', s.coords[a])
    {
      if s.coords[a].runID != 0 {
        LiveRunsAreDisjoint(s, session, a, s.coords[session].entities);
        CoordinatorsDiffer(s, session, a);
      }
    }
  }

  lemma CompleteStepKeepsInv(
      s: State, session: Session, runErr: Option<string>, view: View, now: int, bootstrapOk: bool, r: Result<(Db, bool)>)
    requires Inv(s) && session in s.coords && s.coords[session].runID != 0
    requires r == CompleteTx(
      s.db, s.coords[session].runID, s.coords[session].entities, runErr, view, now, bootstrapOk)
    ensures Inv(ApplyCompletion(s, session, r))
  {
    var c := s.coords[session];
    if r.Ok? {
      CompleteKeepsInv(s.db, c.runID, c.entities, runErr, view, now, bootstrapOk, r.value.0, r.value.1);
      CompletedCoords(s, session, r.value.0);
    } else {
      CompletedCoords(s, session, s.db);
    }
  }

  /** Every step keeps the invariant. */
  lemma StepKeepsInv(s: State, step: Step)
    requires Inv(s) && Enabled(s, step)
    ensures Inv(Apply(s, step))
  {
    match step
    case Chunk(order, chunk, write) =>
      ChunkKeepsInv(s, order, chunk, write, ExecuteChunk(s.db, order, chunk, write));
    case Roots(order, rows) => RootsKeepStateInv(s, order, rows);
    case Finish(order, totalItems, totalChunks, now) => FinishKeepsInv(s, order, totalItems, totalChunks, now);
    case Admit(session, plan, view, compat, consolidated, newId, now, bootstrapOk) =>
      AdmitKeepsInv(s, session, plan, view, compat, consolidated, newId, now, bootstrapOk,
        AdmitTx(s.db, plan, view, compat, consolidated, newId, now, bootstrapOk));
    case Complete(session, runErr, view, now, bootstrapOk) =>
      CompleteStepKeepsInv(s, session, runErr, view, now, bootstrapOk, CompleteTx(
        s.db, s.coords[session].runID, s.coords[session].entities, runErr, view, now, bootstrapOk));
    case _ => LockStepsKeepInv(s, step);
  }
}
