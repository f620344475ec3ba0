/** Building blocks of concrete histories: a session that admits a run, and the transactions of its workers. */
module Scenarios {
  import opened Options
  import opened Coverage
  import opened Database
  import opened RunAdmission
  import opened Protocol
  import opened Safety

  /** What the successful-manifest query reports when there is no successful run of the manifest. */
  const NOT_SATISFIED := Compatibility(0, 0, 0)

  /** The locks of a plan that imports masters, held by one session. */
  function MasterLocks(session: Session): map<Entity, Session> {
    map[Artist := session, Master := session]
  }

  /** A plan that imports masters, and perhaps the artists they refer to. */
  ghost predicate MasterPlan(plan: Plan) {
    PlanError(plan) == None && !plan.force && Selected(plan) <= {Artist, Master}
    && LockTypes(Selected(plan)) == {Artist, Master}
  }

  /** The parts of the database that decide what the next transaction does. */
  ghost predicate At(
      db: Db, runs: map<RunId, Run>, dumps: map<DumpKey, RunDump>, chunks: map<ChunkKey, ChunkRange>, h: seq<Commit>)
  {
    && db.runs == runs && db.dumps == dumps && db.chunks == chunks && db.history == h
    && db.catalog.Keys == {Artist, Master}
  }

  lemma AtMeans(
      db: Db, runs: map<RunId, Run>, dumps: map<DumpKey, RunDump>, chunks: map<ChunkKey, ChunkRange>, h: seq<Commit>)
    requires At(db, runs, dumps, chunks, h)
    ensures db.runs == runs && db.dumps == dumps && db.chunks == chunks && db.history == h
  {}

  lemma PartsReplaced(
      db: Db, db': Db, runs: map<RunId, Run>, dumps: map<DumpKey, RunDump>, chunks: map<ChunkKey, ChunkRange>, h: seq<Commit>)
    requires At(db, runs, dumps, chunks, h) && db' == db.(runs := db'.runs, dumps := db'.dumps, chunks := db'.chunks)
    ensures At(db', db'.runs, db'.dumps, db'.chunks, h)
  {}

  ghost predicate Quiet(s: State) {
    s.coords == map[] && s.db.locks == map[]
  }

  /** One session is left, with the locks of a master import. */
  ghost predicate Busy(s: State, session: Session) {
    s.coords.Keys == {session} && s.db.locks == MasterLocks(session)
  }

  // ----- sequences of steps -----

  lemma NoSteps(s: State)
    ensures Possible(s, []) && After(s, []) == s
  {}

  lemma {:induction false} Prepend(s: State, step: Step, rest: seq<Step>)
    requires Enabled(s, step) && Possible(Apply(s, step), rest)
    ensures Possible(s, [step] + rest) && After(s, [step] + rest) == After(Apply(s, step), rest)
  {
    assert ([step] + rest)[1..] == rest;
  }

  lemma OneStep(s: State, step: Step)
    requires Enabled(s, step)
    ensures Possible(s, [step]) && After(s, [step]) == Apply(s, step)
  {
    NoSteps(Apply(s, step));
    Prepend(s, step, []);
    assert [step] + [] == [step];
  }

  lemma {:induction false} Concatenate(s: State, a: seq<Step>, b: seq<Step>)
    requires Possible(s, a) && Possible(After(s, a), b)
    ensures Possible(s, a + b) && After(s, a + b) == After(After(s, a), b)
    decreases |a|
  {
    if a == [] {
      assert a + b == b;
    } else {
      Concatenate(Apply(s, a[0]), a[1..], b);
      assert a + b == [a[0]] + (a[1..] + b);
      Prepend(s, a[0], a[1..] + b);
    }
  }

  /** The session crashes; nothing but its locks goes away. */
  lemma Crash(
      s: State, session: Session, runs: map<RunId, Run>, dumps: map<DumpKey, RunDump>, chunks: map<ChunkKey, ChunkRange>,
      h: seq<Commit>) returns (s': State)
    requires Busy(s, session) && At(s.db, runs, dumps, chunks, h)
    ensures Possible(s, [Drop(session)]) && After(s, [Drop(session)]) == s'
    ensures Quiet(s') && At(s'.db, runs, dumps, chunks, h)
  {
    OneStep(s, Drop(session));
    s' := Apply(s, Drop(session));
    assert s'.coords == map[] && s'.db.locks == map[];
  }

  // ----- admission -----

  lemma LockOne(s: State, session: Session, held: set<Entity>, e: Entity, locked: State)
    requires s.coords == map[session := Coordinator(0, {}, held)] && e !in s.db.locks
    requires locked == State(s.db.(locks := s.db.locks[e := session]), map[session := Coordinator(0, {}, held + {e})])
    ensures Enabled(s, Lock(session, e)) && Apply(s, Lock(session, e)) == locked
  {
    assert Apply(s, Lock(session, e)).coords == locked.coords;
  }

  lemma OpenSession(s: State, session: Session)
    requires Quiet(s)
    ensures Enabled(s, Open(session)) && Apply(s, Open(session)) == s.(coords := map[session := Coordinator(0, {}, {})])
  {
    assert Apply(s, Open(session)).coords == map[session := Coordinator(0, {}, {})];
  }

  lemma OpenAndLock(s: State, session: Session) returns (locked: State, steps: seq<Step>)
    requires Quiet(s)
    ensures locked == State(s.db.(locks := MasterLocks(session)), map[session := Coordinator(0, {}, {Artist, Master})])
    ensures Possible(s, steps) && After(s, steps) == locked
  {
    var idle := s.(coords := map[session := Coordinator(0, {}, {})]);
    var half := State(s.db.(locks := map[Artist := session]), map[session := Coordinator(0, {}, {Artist})]);
    locked := State(s.db.(locks := MasterLocks(session)), map[session := Coordinator(0, {}, {Artist, Master})]);
    OpenSession(s, session);
    assert {} + {Artist} == {Artist} && s.db.locks[Artist := session] == map[Artist := session];
    LockOne(idle, session, {}, Artist, half);
    assert {Artist} + {Master} == {Artist, Master} && half.db.locks[Master := session] == MasterLocks(session);
    LockOne(half, session, {Artist}, Master, locked);
    hide *;
    NoSteps(locked);
    Prepend(half, Lock(session, Master), []);
    Prepend(idle, Lock(session, Artist), [Lock(session, Master)] + []);
    Prepend(s, Open(session), [Lock(session, Artist)] + ([Lock(session, Master)] + []));
    steps := [Open(session)] + ([Lock(session, Artist)] + ([Lock(session, Master)] + []));
  }

  lemma Importing(db: Db, run: RunId, entities: set<Entity>)
    requires entities <= db.catalog.Keys == {Artist, Master}
    ensures var r := MarkImporting(db, run, entities);
            r.Ok? && r.value == db.(catalog := r.value.catalog) && r.value.catalog.Keys == {Artist, Master}
  {}

  /** Nothing is satisfied and nothing was applied before: the admission starts a run. */
  lemma AdmitStarts(db: Db, plan: Plan, run: RunId, recovered: Db)
    requires PlanError(plan).None? && recovered == MarkAbandonedRuns(db, Selected(plan), 0)
    ensures AdmitTx(db, plan, map[], NOT_SATISFIED, map[], run, 0, true) == StartTx(recovered, plan, map[], run, true)
  {
    assert plan.dumps != [];
  }

  lemma StartSucceeds(db: Db, plan: Plan, run: RunId, source: RunId, resumed: Db, importing: Db)
    requires PlanError(plan).None? && source == SourceOf(db, plan, map[])
    requires ResumeInto(InsertRun(db, run, plan, source), source, run, |plan.dumps|) == Ok(resumed)
    requires MarkImporting(resumed, run, Selected(plan)) == Ok(importing)
    ensures StartTx(db, plan, map[], run, true) == Ok((importing, Started(run, source)))
  {}

  /** The admission of `plan` recovers `recovered`, then inserts `run` as the resumption of `source`. */
  ghost predicate Prepares(db: Db, plan: Plan, run: RunId, recovered: Db, source: RunId, resumed: Db) {
    && MasterPlan(plan)
    && (forall d :: d in plan.dumps ==> d.entity in plan.revisions)
    && recovered == MarkAbandonedRuns(db, Selected(plan), 0)
    && source == SourceOf(recovered, plan, map[])
    && ResumeInto(InsertRun(recovered, run, plan, source), source, run, |plan.dumps|) == Ok(resumed)
  }

  lemma PreparesMeans(db: Db, plan: Plan, run: RunId, recovered: Db, source: RunId, resumed: Db)
    requires Prepares(db, plan, run, recovered, source, resumed)
    ensures MasterPlan(plan) && (forall d :: d in plan.dumps ==> d.entity in plan.revisions)
    ensures PlanError(plan) == None && Selected(plan) <= {Artist, Master} && LockTypes(Selected(plan)) == {Artist, Master}
    ensures recovered == MarkAbandonedRuns(db, Selected(plan), 0)
    ensures source == SourceOf(recovered, plan, map[])
    ensures ResumeInto(InsertRun(recovered, run, plan, source), source, run, |plan.dumps|) == Ok(resumed)
  {}

  lemma PreparesBy(db: Db, plan: Plan, run: RunId, recovered: Db, source: RunId, resumed: Db)
    requires MasterPlan(plan) && (forall d :: d in plan.dumps ==> d.entity in plan.revisions)
    requires recovered == MarkAbandonedRuns(db, Selected(plan), 0)
    requires source == SourceOf(recovered, plan, map[])
    requires ResumeInto(InsertRun(recovered, run, plan, source), source, run, |plan.dumps|) == Ok(resumed)
    ensures Prepares(db, plan, run, recovered, source, resumed)
  {}

  /** Admission of a plan with nothing to skip: recover, insert, take over, mark importing. */
  lemma Admission(
      db: Db, plan: Plan, run: RunId, recovered: Db, source: RunId, resumed: Db, runs: map<RunId, Run>,
      dumps: map<DumpKey, RunDump>, chunks: map<ChunkKey, ChunkRange>, h: seq<Commit>) returns (db': Db)
    requires Prepares(db, plan, run, recovered, source, resumed) && At(resumed, runs, dumps, chunks, h)
    requires PlanError(plan).None?
    ensures AdmitTx(db, plan, map[], NOT_SATISFIED, map[], run, 0, true) == Ok((db', Started(run, source)))
    ensures At(db', runs, dumps, chunks, h) && db'.locks == resumed.locks
  {
    PreparesMeans(db, plan, run, recovered, source, resumed);
    hide Prepares, MasterPlan, PlanError, Selected, LockTypes, MarkAbandonedRuns, SourceOf, ResumeInto, InsertRun, MarkImporting,
      AdmitTx, StartTx;
    Importing(resumed, run, Selected(plan));
    db' := MarkImporting(resumed, run, Selected(plan)).value;
    AdmitStarts(db, plan, run, recovered);
    StartSucceeds(recovered, plan, run, source, resumed, db');
  }

  lemma AdmitStep(
      s: State, session: Session, plan: Plan, run: RunId, source: RunId, r: Result<(Db, Admission)>, admitted: Db)
    requires s.coords == map[session := Coordinator(0, {}, {Artist, Master})]
    requires FreshRun(s.db, run) && SourceOf(MarkAbandonedRuns(s.db, Selected(plan), 0), plan, map[]) < run
    requires PlanError(plan).None? && LockTypes(Selected(plan)) == {Artist, Master}
    requires r == AdmitTx(s.db, plan, map[], NOT_SATISFIED, map[], run, 0, true) == Ok((admitted, Started(run, source)))
    ensures var step := Admit(session, plan, map[], NOT_SATISFIED, map[], run, 0, true);
            && Enabled(s, step)
            && Apply(s, step) == State(admitted, map[session := Coordinator(run, Selected(plan), {Artist, Master})])
  {
    hide AdmitTx, SourceOf, MarkAbandonedRuns, Selected;
    var step := Admit(session, plan, map[], NOT_SATISFIED, map[], run, 0, true);
    assert Apply(s, step).coords == map[session := Coordinator(run, Selected(plan), {Artist, Master})];
  }

  /** A session opens, takes its locks and admits a run, once the admission is known to succeed. */
  lemma Begin(
      s: State, session: Session, plan: Plan, run: RunId, recovered: Db, source: RunId, resumed: Db, runs: map<RunId, Run>,
      dumps: map<DumpKey, RunDump>, chunks: map<ChunkKey, ChunkRange>, h: seq<Commit>) returns (s': State, steps: seq<Step>)
    requires Quiet(s) && FreshRun(s.db, run) && source < run
    requires Prepares(s.db.(locks := MasterLocks(session)), plan, run, recovered, source, resumed)
    requires At(resumed, runs, dumps, chunks, h) && resumed.locks == MasterLocks(session)
    ensures Possible(s, steps) && After(s, steps) == s'
    ensures Busy(s', session) && At(s'.db, runs, dumps, chunks, h)
  {
    hide *;
    PreparesMeans(s.db.(locks := MasterLocks(session)), plan, run, recovered, source, resumed);
    StillFresh(s.db, MasterLocks(session), run);
    var locked, before := OpenAndLock(s, session);
    var admitted := Admission(locked.db, plan, run, recovered, source, resumed, runs, dumps, chunks, h);
    AdmitStep(locked, session, plan, run, source, Ok((admitted, Started(run, source))), admitted);
    var step := Admit(session, plan, map[], NOT_SATISFIED, map[], run, 0, true);
    s' := Apply(locked, step);
    steps := before + [step];
    OneStep(locked, step);
    Concatenate(s, before, [step]);
    NowBusy(s', session);
  }

  lemma StillFresh(db: Db, locks: map<Entity, Session>, run: RunId)
    requires FreshRun(db, run)
    ensures FreshRun(db.(locks := locks), run)
  {}

  lemma NowBusy(s: State, session: Session)
    requires s.db.locks == MasterLocks(session) && exists c :: s.coords == map[session := c]
    ensures Busy(s, session)
  {}

  // ----- what admissions find -----

  /** The run is new, and taking the locks changes none of the import tables. */
  lemma Ready(
      db: Db, session: Session, run: RunId, runs: map<RunId, Run>, dumps: map<DumpKey, RunDump>,
      chunks: map<ChunkKey, ChunkRange>, h: seq<Commit>)
    requires At(db, runs, dumps, chunks, h) && 0 < run && run !in runs
    ensures FreshRun(db, run) && At(db.(locks := MasterLocks(session)), runs, dumps, chunks, h)
  {}

  /** Recovery fails the one running run. */
  lemma Abandon(db: Db, r: RunId, e: Entity, entities: set<Entity>)
    requires IsRunning(db.runs, r) && DumpKey(r, e) in db.dumps && e in entities
    requires forall other :: other in db.runs && other != r ==> db.runs[other].status != Running
    ensures MarkAbandonedRuns(db, entities, 0)
            == db.(runs := db.runs[r := db.runs[r].(status := Failed, completedAt := 0)])
  {
    assert e in EntitiesOf(db.dumps, r) * entities;
    assert MarkAbandonedRuns(db, entities, 0).runs == db.runs[r := db.runs[r].(status := Failed, completedAt := 0)];
  }

  lemma NotResumable(db: Db, plan: Plan)
    requires forall r :: r in db.runs ==> db.runs[r].manifest != plan.manifest || db.runs[r].status != Failed
    ensures SourceOf(db, plan, map[]) == 0
  {}

  /** In an empty database there is nothing to recover and nothing to resume. */
  lemma NothingBefore(db: Db, plan: Plan)
    requires db.runs == map[]
    ensures db == MarkAbandonedRuns(db, Selected(plan), 0)
    ensures SourceOf(db, plan, map[]) == 0
  {
    NotResumable(db, plan);
  }

  lemma OnlyResumable(db: Db, plan: Plan, run: RunId)
    requires run in db.runs && Resumable(db, run, plan, map[]) && !plan.force
    requires forall r :: r in db.runs && r != run ==> db.runs[r].manifest != plan.manifest
    ensures SourceOf(db, plan, map[]) == run
  {
    assert (set r | r in db.runs && Resumable(db, r, plan, map[])) == {run};
  }

  lemma NothingTaken(inserted: Db, run: RunId, expected: int)
    ensures ResumeInto(inserted, 0, run, expected) == Ok(inserted)
  {}

  lemma ResumesInto(inserted: Db, source: RunId, run: RunId, expected: int, resumed: Db)
    requires source != 0 && CopyResumeProgress(inserted, source, run, expected) == Ok(resumed)
    ensures ResumeInto(inserted, source, run, expected) == Ok(resumed)
  {}

  // ----- worker transactions -----

  function CommitBy(run: RunId, e: Entity, index: int, batch: Batch): Commit {
    ChunkCommit(run, e, index, ChunkRange(index, 1), batch)
  }

  /** A chunk of one item, of a running run, that has not been recorded yet is written. */
  lemma WriteChunk(
      s: State, session: Session, run: RunId, e: Entity, index: int, batch: Batch, runs: map<RunId, Run>,
      dumps: map<DumpKey, RunDump>, chunks: map<ChunkKey, ChunkRange>, h: seq<Commit>) returns (s': State, step: Step)
    requires Busy(s, session) && At(s.db, runs, dumps, chunks, h)
    requires IsRunning(runs, run) && 0 <= index && ChunkKey(run, e, index) !in chunks && WellFormedBatch(batch)
    requires var k := DumpKey(run, e); k in dumps && dumps[k].chunkSize == 1 && dumps[k].completedAt.None?
    ensures Possible(s, [step]) && After(s, [step]) == s' && Busy(s', session)
    ensures var k := DumpKey(run, e);
            At(s'.db, runs, dumps[k := dumps[k].(processedItems := dumps[k].processedItems + 1)],
               chunks[ChunkKey(run, e, index) := ChunkRange(index, 1)], h + [CommitBy(run, e, index, batch)])
  {
    hide WriteBatch, WellFormedBatch;
    step := Chunk(Order(run, e, 1, true), ChunkMetadata(index, ChunkRange(index, 1)), Ok(batch));
    OneStep(s, step);
    s' := Apply(s, step);
  }

  /** An entity of one chunk is marked complete. */
  lemma FinishEntity(
      s: State, session: Session, run: RunId, e: Entity, runs: map<RunId, Run>, dumps: map<DumpKey, RunDump>,
      chunks: map<ChunkKey, ChunkRange>, h: seq<Commit>) returns (s': State, step: Step)
    requires Busy(s, session) && At(s.db, runs, dumps, chunks, h)
    requires IsRunning(runs, run) && CoverageAccepts(LedgerOf(chunks, run, e), 1, 1, 1)
    requires var k := DumpKey(run, e); k in dumps && dumps[k].chunkSize == 1 && dumps[k].processedItems == 1
    ensures Possible(s, [step]) && After(s, [step]) == s' && Busy(s', session)
    ensures var k := DumpKey(run, e);
            At(s'.db, runs, dumps[k := dumps[k].(totalItems := Some(1), totalChunks := Some(1), completedAt := Some(0))], chunks, h)
  {
    hide CoverageAccepts, LedgerOf;
    step := Finish(Order(run, e, 1, true), 1, 1, 0);
    OneStep(s, step);
    s' := Apply(s, step);
  }

  // ----- ledgers of few rows -----

  lemma OneRow(chunks: map<ChunkKey, ChunkRange>, run: RunId, e: Entity)
    requires ChunkKey(run, e, 0) in chunks && chunks[ChunkKey(run, e, 0)] == ChunkRange(0, 1)
    requires forall k :: k in chunks && k.run == run && k.entity == e ==> k.index == 0
    ensures LedgerOf(chunks, run, e) == map[0 := ChunkRange(0, 1)]
  {
    assert 0 in RecordedIndexes(chunks, run, e);
  }

  lemma NoRow(chunks: map<ChunkKey, ChunkRange>, run: RunId, e: Entity)
    requires forall k :: k in chunks ==> !(k.run == run && k.entity == e)
    ensures LedgerOf(chunks, run, e) == map[] && Items(LedgerOf(chunks, run, e)) == 0
  {}

  lemma OneRowCovers()
    ensures Items(map[0 := ChunkRange(0, 1)]) == 1
    ensures CoverageAccepts(map[0 := ChunkRange(0, 1)], 1, 1, 1)
  {
    var ledger := map[0 := ChunkRange(0, 1)];
    ItemsRemove(ledger, 0);
    assert ledger - {0} == map[];
  }

  lemma TwoRowsCover()
    ensures CoverageAccepts(map[0 := ChunkRange(0, 1), 1 := ChunkRange(1, 1)], 1, 2, 2)
  {
    var ledger := map[0 := ChunkRange(0, 1), 1 := ChunkRange(1, 1)];
    ItemsInsert(map[0 := ChunkRange(0, 1)], 1, ChunkRange(1, 1));
    assert ledger == map[0 := ChunkRange(0, 1)][1 := ChunkRange(1, 1)];
    OneRowCovers();
    assert |ledger| == 2 by { assert ledger.Keys == {0, 1}; }
  }
}
