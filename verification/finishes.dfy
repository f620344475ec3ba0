/** Which entities a run finds complete, over whole histories: exactly those completed along its resume path. */
module Finishes {
  import opened Options
  import opened Coverage
  import opened Database
  import opened History
  import opened Invariant
  import opened RunAdmission
  import opened Effects
  import opened Protocol
  import opened Safety
  import opened Resumption
  import opened Decisions
  import opened Completions
  import opened Admissions

  /** The entity that a step completed, with the run that completed it. */
  ghost function FinishedBy(s: State, step: Step): set<DumpKey> {
    match step
    case Finish(order, totalItems, totalChunks, now) =>
      if CompleteEntity(s.db, order, totalItems, totalChunks, now).Ok? then {DumpKey(order.run, order.entity)} else {}
    case _ => {}
  }

  /** All entities completed along a history. */
  ghost function FinishedAlong(s: State, steps: seq<Step>): set<DumpKey>
    requires Possible(s, steps)
    decreases |steps|
  {
    if steps == [] then {} else FinishedBy(s, steps[0]) + FinishedAlong(Apply(s, steps[0]), steps[1..])
  }

  /** Some run of the path completed the entity. */
  ghost predicate CompletedOn(path: set<RunId>, e: Entity, done: set<DumpKey>) {
    exists x :: x in path && DumpKey(x, e) in done
  }

  /**
   * A summary is finished exactly when a run of its resume path completed the entity, and the run skips the
   * entity exactly when that was an earlier run.
   */
  ghost predicate SummaryTells(runs: map<RunId, Run>, k: DumpKey, d: RunDump, done: set<DumpKey>) {
    && (Finished(d) <==> CompletedOn(Path(runs, k.run), k.entity, done))
    && (d.skipped <==> CompletedOn(Path(runs, k.run) - {k.run}, k.entity, done))
  }

  ghost predicate SummariesTell(runs: map<RunId, Run>, dumps: map<DumpKey, RunDump>, done: set<DumpKey>) {
    && done <= dumps.Keys
    && forall k :: k in dumps && k.run in runs && runs[k.run].status != Success ==> SummaryTells(runs, k, dumps[k], done)
  }

  // ----- steps that finish nothing and add no run -----

  /** The same runs on the same paths, none of them less successful. */
  ghost predicate SamePaths(runs: map<RunId, Run>, runs': map<RunId, Run>) {
    && runs.Keys == runs'.Keys
    && forall r :: r in runs ==>
         runs'[r].resumedFrom == runs[r].resumedFrom && (runs[r].status == Success ==> runs'[r].status == Success)
  }

  ghost predicate SameFinished(dumps: map<DumpKey, RunDump>, dumps': map<DumpKey, RunDump>) {
    && dumps'.Keys == dumps.Keys
    && forall k :: k in dumps ==> (Finished(dumps'[k]) <==> Finished(dumps[k])) && dumps'[k].skipped == dumps[k].skipped
  }

  lemma FrameTells(db: Db, db': Db, done: set<DumpKey>)
    requires RunsOk(db.runs, |db.history|) && SummariesTell(db.runs, db.dumps, done)
    requires SamePaths(db.runs, db'.runs) && SameFinished(db.dumps, db'.dumps)
    ensures SummariesTell(db'.runs, db'.dumps, done)
  {
    hide Finished, CompletedOn;
    forall k | k in db'.dumps && k.run in db'.runs && db'.runs[k.run].status != Success
      ensures SummaryTells(db'.runs, k, db'.dumps[k], done)
    {
      PathFrame(db.runs, db'.runs, |db.history|, k.run);
      assert SummaryTells(db.runs, k, db.dumps[k], done);
    }
  }

  lemma ChunkFinishesNothing(db: Db, order: Order, chunk: ChunkMetadata, write: Result<Batch>)
    ensures var r := ExecuteChunk(db, order, chunk, write);
            r.Ok? ==> r.value.0.runs == db.runs && SameFinished(db.dumps, r.value.0.dumps)
  {
    hide CommitBatch;
    BatchFrame(db, order, chunk, write);
  }

  lemma ClosingFinishesNothing(
      db: Db, run: RunId, entities: set<Entity>, runErr: Option<string>, view: View, now: int, db': Db, success: bool)
    requires Closes(db, run, entities, runErr, view, now, db', success)
    ensures SamePaths(db.runs, db'.runs) && db'.dumps == db.dumps
  {
    hide AllFinished, LedgersLeft, Ready, FailedFor;
  }

  lemma CompletionFinishesNothing(s: State, step: Step)
    requires Enabled(s, step) && step.Complete?
    ensures SamePaths(s.db.runs, Apply(s, step).db.runs) && Apply(s, step).db.dumps == s.db.dumps
  {
    EnabledCompletion(s, step);
    SameIsSame(s.db);
    hide *;
    var c := s.coords[step.session];
    CompletionDecides(s.db, c.runID, c.entities, step.runErr, step.view, step.now, step.bootstrapOk);
    var r := CompleteTx(s.db, c.runID, c.entities, step.runErr, step.view, step.now, step.bootstrapOk);
    CompletedDb(s, step.session, r);
    if r.Ok? {
      ClosingFinishesNothing(s.db, c.runID, c.entities, step.runErr, step.view, step.now, r.value.0, r.value.1);
    }
  }

  lemma CompletedDb(s: State, session: Session, r: Result<(Db, bool)>)
    requires session in s.coords
    ensures ApplyCompletion(s, session, r).db == if r.Ok? then r.value.0 else s.db
  {}

  lemma RunsAreOk(s: State)
    requires Inv(s)
    ensures RunsOk(s.db.runs, |s.db.history|) && RowsOk(s.db.runs, s.db.dumps, s.db.chunks)
  {}

  /** Worker, lock and session steps that complete no entity. */
  lemma QuietStepTells(s: State, step: Step, done: set<DumpKey>)
    requires Inv(s) && Enabled(s, step) && SummariesTell(s.db.runs, s.db.dumps, done)
    requires !step.Admit? && FinishedBy(s, step) == {}
    ensures SummariesTell(Apply(s, step).db.runs, Apply(s, step).db.dumps, done)
  {
    RunsAreOk(s);
    QuietFrame(s, step);
    hide *;
    FrameTells(s.db, Apply(s, step).db, done);
  }

  lemma SameIsSame(db: Db)
    ensures SamePaths(db.runs, db.runs) && SameFinished(db.dumps, db.dumps)
  {}

  lemma QuietFrame(s: State, step: Step)
    requires Inv(s) && Enabled(s, step) && !step.Admit? && FinishedBy(s, step) == {}
    ensures SamePaths(s.db.runs, Apply(s, step).db.runs) && SameFinished(s.db.dumps, Apply(s, step).db.dumps)
  {
    SameIsSame(s.db);
    hide Inv, SamePaths, SameFinished, CompleteTx, ExecuteChunk, CompleteEntity, WellFormedBatch;
    match step
    case Chunk(order, chunk, write) => ChunkFinishesNothing(s.db, order, chunk, write);
    case Complete(_, _, _, _, _) => CompletionFinishesNothing(s, step);
    case _ =>
  }

  // ----- an entity completes -----

  lemma FinishTells(s: State, k: DumpKey, totalItems: int, totalChunks: int, now: int, db': Db, done: set<DumpKey>)
    requires Inv(s) && IsRunning(s.db.runs, k.run) && SummariesTell(s.db.runs, s.db.dumps, done)
    requires EntityFinished(s.db, k, totalItems, totalChunks, now, db')
    ensures SummariesTell(db'.runs, db'.dumps, done + {k})
  {
    RunsAreOk(s);
    hide Inv, Finished, SummaryTells, RunsOk, RowsOk, IsRunning;
    forall x | x in db'.dumps && x.run in db'.runs && db'.runs[x.run].status != Success
      ensures SummaryTells(db'.runs, x, db'.dumps[x], done + {k})
    {
      assert SummaryTells(s.db.runs, x, s.db.dumps[x], done);
      RunningIsAlone(s.db, k.run, x.run);
      SummaryStillTells(s.db.runs, k, x, s.db.dumps[x], db'.dumps[x], done);
    }
  }

  lemma SummaryStillTells(runs: map<RunId, Run>, k: DumpKey, x: DumpKey, d: RunDump, d': RunDump, done: set<DumpKey>)
    requires SummaryTells(runs, x, d, done) && d'.skipped == d.skipped
    requires k.run in Path(runs, x.run) <==> k.run == x.run
    requires if k == x then Finished(d') else d' == d
    ensures SummaryTells(runs, x, d', done + {k})
  {
    OneMoreDone(Path(runs, x.run), x.entity, done, k);
    OneMoreDone(Path(runs, x.run) - {x.run}, x.entity, done, k);
    hide CompletedOn, Path, Finished;
  }

  lemma OneMoreDone(path: set<RunId>, e: Entity, done: set<DumpKey>, k: DumpKey)
    ensures CompletedOn(path, e, done + {k}) <==> CompletedOn(path, e, done) || (k.entity == e && k.run in path)
  {
    if k.entity == e && k.run in path {
      assert DumpKey(k.run, e) in done + {k};
    }
    if CompletedOn(path, e, done) {
      var x :| x in path && DumpKey(x, e) in done;
      assert DumpKey(x, e) in done + {k};
    }
  }

  // ----- an admission -----

  /** A run was added, and the runs and summaries before it stayed. */
  ghost predicate Extends(db: Db, n: RunId, db': Db) {
    && n !in db.runs && (forall k :: k in db.dumps ==> k.run in db.runs)
    && db'.runs.Keys == db.runs.Keys + {n} && (forall r :: r in db.runs ==> db'.runs[r] == db.runs[r])
    && (forall k: DumpKey :: k.run != n ==> (k in db'.dumps <==> k in db.dumps))
    && (forall k :: k in db.dumps ==> k in db'.dumps && db'.dumps[k] == db.dumps[k])
  }

  lemma OldSummaryTells(db: Db, n: RunId, db': Db, done: set<DumpKey>, k: DumpKey)
    requires RunsOk(db.runs, |db.history|) && SummariesTell(db.runs, db.dumps, done) && Extends(db, n, db')
    requires k in db'.dumps && k.run != n && k.run in db'.runs && db'.runs[k.run].status != Success
    ensures SummaryTells(db'.runs, k, db'.dumps[k], done)
  {
    PathFrame(db.runs, db'.runs, |db.history|, k.run);
    assert SummaryTells(db.runs, k, db.dumps[k], done);
    hide CompletedOn, Finished, Path;
  }

  /** The new run itself has completed nothing. */
  lemma NothingDone(db: Db, n: RunId, done: set<DumpKey>, path: set<RunId>, e: Entity)
    requires done <= db.dumps.Keys && n !in db.runs && forall k :: k in db.dumps ==> k.run in db.runs
    ensures CompletedOn(path + {n}, e, done) <==> CompletedOn(path, e, done)
    ensures CompletedOn(path + {n} - {n}, e, done) <==> CompletedOn(path, e, done)
    ensures !CompletedOn({n}, e, done) && !CompletedOn({}, e, done)
  {
    if CompletedOn(path, e, done) {
      var x :| x in path && DumpKey(x, e) in done;
      assert DumpKey(x, e) in db.dumps;
      assert x in path + {n} - {n};
    }
  }

  lemma BlankTells(db: Db, n: RunId, db': Db, done: set<DumpKey>, k: DumpKey)
    requires SummariesTell(db.runs, db.dumps, done) && Extends(db, n, db')
    requires k in db'.dumps && k.run == n && Blank(db'.dumps[k]) && db'.runs[n].resumedFrom == 0
    ensures SummaryTells(db'.runs, k, db'.dumps[k], done)
  {
    NothingDone(db, n, done, {}, k.entity);
    assert Path(db'.runs, n) == {n} && {n} - {n} == {};
    hide CompletedOn;
  }

  lemma ContinuingTells(db: Db, source: RunId, n: RunId, db': Db, done: set<DumpKey>, k: DumpKey)
    requires RunsOk(db.runs, |db.history|) && SummariesTell(db.runs, db.dumps, done) && Extends(db, n, db')
    requires source in db.runs && db.runs[source].status == Failed && 0 < source < n
    requires k in db'.dumps && k.run == n && db'.runs[n].resumedFrom == source
    requires DumpKey(source, k.entity) in db.dumps && Continues(db'.dumps[k], db.dumps[DumpKey(source, k.entity)])
    ensures SummaryTells(db'.runs, k, db'.dumps[k], done)
  {
    PathFrame(db.runs, db'.runs, |db.history|, source);
    assert Path(db'.runs, n) == {n} + Path(db.runs, source);
    assert Path(db.runs, source) + {n} == {n} + Path(db.runs, source);
    NothingDone(db, n, done, Path(db.runs, source), k.entity);
    assert SummaryTells(db.runs, DumpKey(source, k.entity), db.dumps[DumpKey(source, k.entity)], done);
    hide CompletedOn, Path;
  }

  lemma StartedTells(rec: Db, n: RunId, plan: Plan, source: RunId, db': Db, done: set<DumpKey>)
    requires RunsOk(rec.runs, |rec.history|) && SummariesTell(rec.runs, rec.dumps, done) && Extends(rec, n, db')
    requires StartedRows(rec, n, plan, source, db')
    requires source != 0 ==> source in rec.runs && rec.runs[source].status == Failed && 0 < source < n
    ensures SummariesTell(db'.runs, db'.dumps, done)
  {
    forall k | k in db'.dumps && k.run in db'.runs && db'.runs[k.run].status != Success
      ensures SummaryTells(db'.runs, k, db'.dumps[k], done)
    {
      if k.run != n {
        OldSummaryTells(rec, n, db', done, k);
      } else if source == 0 {
        StartedBlank(rec, n, plan, db', k);
        BlankTells(rec, n, db', done, k);
      } else {
        StartedContinues(rec, n, plan, source, db', k);
        ContinuingTells(rec, source, n, db', done, k);
      }
    }
    KeysGrow(rec, n, db', done);
    hide SummaryTells, StartedRows;
  }

  lemma KeysGrow(rec: Db, n: RunId, db': Db, done: set<DumpKey>)
    requires Extends(rec, n, db') && done <= rec.dumps.Keys
    ensures done <= db'.dumps.Keys
  {}

  lemma StartedBlank(rec: Db, n: RunId, plan: Plan, db': Db, k: DumpKey)
    requires StartedRows(rec, n, plan, 0, db') && k in db'.dumps && k.run == n
    ensures Blank(db'.dumps[k]) && n in db'.runs && db'.runs[n].resumedFrom == 0
  {
    hide Planned, Selected;
    assert DumpKey(n, k.entity) == k;
  }

  lemma StartedContinues(rec: Db, n: RunId, plan: Plan, source: RunId, db': Db, k: DumpKey)
    requires StartedRows(rec, n, plan, source, db') && source != 0 && k in db'.dumps && k.run == n
    ensures n in db'.runs && db'.runs[n].resumedFrom == source
    ensures DumpKey(source, k.entity) in rec.dumps && Continues(db'.dumps[k], rec.dumps[DumpKey(source, k.entity)])
  {
    hide Planned, Selected, Continues, ChunksMoved;
    assert DumpKey(n, k.entity) == k;
  }

  lemma ConsolidatedTells(rec: Db, n: RunId, db': Db, done: set<DumpKey>)
    requires RunsOk(rec.runs, |rec.history|) && SummariesTell(rec.runs, rec.dumps, done) && Extends(rec, n, db')
    requires db'.runs[n].status == Success
    ensures SummariesTell(db'.runs, db'.dumps, done)
  {
    forall k | k in db'.dumps && k.run in db'.runs && db'.runs[k.run].status != Success
      ensures SummaryTells(db'.runs, k, db'.dumps[k], done)
    {
      OldSummaryTells(rec, n, db', done, k);
    }
    KeysGrow(rec, n, db', done);
    hide SummaryTells;
  }

  lemma StartsExtend(rec: Db, n: RunId, plan: Plan, source: RunId, db': Db)
    requires Starts(rec, n, plan, source, db') && FreshRun(rec, n) && RowsOk(rec.runs, rec.dumps, rec.chunks)
    ensures Extends(rec, n, db') && StartedRows(rec, n, plan, source, db') && n in db'.runs && db'.runs[n].resumedFrom == source
  {
    hide Planned, Importing, FromZero, TakesOver, Selected;
  }

  lemma SkipsExtend(
      rec: Db, n: RunId, plan: Plan, compat: Compatibility, consolidated: map<Entity, RunDump>, now: int, db': Db)
    requires Skips(rec, n, plan, compat, consolidated, now, db') && FreshRun(rec, n) && RowsOk(rec.runs, rec.dumps, rec.chunks)
    ensures (db'.runs == rec.runs && db'.dumps == rec.dumps) || (Extends(rec, n, db') && db'.runs[n].status == Success)
  {
    hide Ready;
  }

  lemma RecoveryFrame(db: Db, entities: set<Entity>, now: int, rec: Db)
    requires RunsOk(db.runs, |db.history|) && Recovered(db, entities, now, rec)
    ensures SamePaths(db.runs, rec.runs) && SameFinished(db.dumps, rec.dumps) && RunsOk(rec.runs, |rec.history|)
  {
    hide WorksOn;
  }

  lemma AdmissionTells(s: State, step: Step, done: set<DumpKey>)
    requires Inv(s) && Enabled(s, step) && step.Admit? && SummariesTell(s.db.runs, s.db.dumps, done)
    ensures SummariesTell(Apply(s, step).db.runs, Apply(s, step).db.dumps, done)
  {
    var rec, source := RecoveryOf(s, step);
    EnabledAdmission(s, step);
    RunsAreOk(s);
    StepKeepsInv(s, step);
    RunsAreOk(Apply(s, step));
    InvRows(s);
    hide *;
    AdmissionStepHolds(s, step, rec, source);
    RecoveryFrame(s.db, Selected(step.plan), step.now, rec);
    RecoveredRows(s.db, Selected(step.plan), step.now, step.newId, rec);
    FrameTells(s.db, rec, done);
    AdmittedTells(s, step, rec, source, Apply(s, step), done);
  }

  /** The run resumed is an earlier one, and had failed. */
  lemma ResumedIsEarlier(rec: Db, n: RunId, source: RunId, db': Db)
    requires Extends(rec, n, db') && RunsOk(db'.runs, |db'.history|) && db'.runs[n].resumedFrom == source && source != 0
    ensures source in rec.runs && rec.runs[source].status == Failed && 0 < source < n
  {}

  lemma AdmittedTells(s: State, step: Step, rec: Db, source: RunId, s': State, done: set<DumpKey>)
    requires step.Admit? && step.session in s.coords && AdmissionStep(s, step, rec, source, s')
    requires SummariesTell(s.db.runs, s.db.dumps, done) && SummariesTell(rec.runs, rec.dumps, done)
    requires RunsOk(rec.runs, |rec.history|) && RowsOk(rec.runs, rec.dumps, rec.chunks) && FreshRun(rec, step.newId)
    requires RunsOk(s'.db.runs, |s'.db.history|)
    ensures SummariesTell(s'.db.runs, s'.db.dumps, done)
  {
    hide SummariesTell, RunsOk, RowsOk, FreshRun, CanAdmit, Skips, Starts, Extends, StartedRows;
    if CanAdmit(rec, step.plan, step.view, step.compat, step.consolidated, step.newId, source, step.bootstrapOk) {
      if Satisfied(step.plan, step.compat) {
        SkipsExtend(rec, step.newId, step.plan, step.compat, step.consolidated, step.now, s'.db);
        if !(s'.db.runs == rec.runs && s'.db.dumps == rec.dumps) {
          ConsolidatedTells(rec, step.newId, s'.db, done);
        }
      } else {
        StartsExtend(rec, step.newId, step.plan, source, s'.db);
        if source != 0 {
          ResumedIsEarlier(rec, step.newId, source, s'.db);
        }
        StartedTells(rec, step.newId, step.plan, source, s'.db, done);
      }
    }
  }

  // ----- histories -----

  lemma FinishUnfolds(s: State, step: Step)
    requires step.Finish? && Enabled(s, step) && FinishedBy(s, step) != {}
    ensures var k, r := DumpKey(step.order.run, step.order.entity),
              CompleteEntity(s.db, step.order, step.totalItems, step.totalChunks, step.now);
            && FinishedBy(s, step) == {k} && r.Ok? && Apply(s, step).db == r.value && IsRunning(s.db.runs, k.run)
  {
    hide CoverageAccepts, LedgerOf;
  }

  lemma StepTells(s: State, step: Step, done: set<DumpKey>)
    requires Inv(s) && Enabled(s, step) && SummariesTell(s.db.runs, s.db.dumps, done)
    ensures SummariesTell(Apply(s, step).db.runs, Apply(s, step).db.dumps, done + FinishedBy(s, step))
  {
    OnlyFinishes(s, step);
    hide *;
    if step.Admit? {
      AdmissionTells(s, step, done);
    } else if FinishedBy(s, step) == {} {
      QuietStepTells(s, step, done);
    } else {
      FinishUnfolds(s, step);
      EntityCompletes(s.db, step.order, step.totalItems, step.totalChunks, step.now);
      FinishTells(s, DumpKey(step.order.run, step.order.entity), step.totalItems, step.totalChunks, step.now, Apply(s, step).db, done);
    }
    assert done + {} == done;
  }

  lemma OnlyFinishes(s: State, step: Step)
    ensures FinishedBy(s, step) != {} ==> step.Finish?
  {}

  lemma {:induction false} HistoriesTell(s: State, steps: seq<Step>, done: set<DumpKey>)
    requires Inv(s) && Possible(s, steps) && SummariesTell(s.db.runs, s.db.dumps, done)
    ensures SummariesTell(After(s, steps).db.runs, After(s, steps).db.dumps, done + FinishedAlong(s, steps))
    decreases |steps|
  {
    if steps == [] {
      assert done + {} == done;
    } else {
      var s' := Apply(s, steps[0]);
      StepKeepsInv(s, steps[0]);
      StepTells(s, steps[0], done);
      HistoriesTell(s', steps[1..], done + FinishedBy(s, steps[0]));
      hide Inv, Enabled, Apply, FinishedBy, SummariesTell;
      assert done + FinishedBy(s, steps[0]) + FinishedAlong(s', steps[1..]) == done + FinishedAlong(s, steps);
    }
  }

  lemma NothingTold(start: State)
    requires Init(start)
    ensures Inv(start) && SummariesTell(start.db.runs, start.db.dumps, {})
  {}

  /**
   * After any history, a summary of a run that has not succeeded yet is finished exactly when a run of its
   * resume path completed the entity, and its step is skipped exactly when that was an earlier run.
   */
  lemma HistoriesFinishAlongPaths(start: State, steps: seq<Step>, k: DumpKey)
    requires Init(start) && Possible(start, steps) && k in After(start, steps).db.dumps
    ensures k.run in After(start, steps).db.runs
    ensures var db := After(start, steps).db;
            db.runs[k.run].status != Success ==>
              && (Finished(db.dumps[k]) <==> exists x :: x in Path(db.runs, k.run) && DumpKey(x, k.entity) in FinishedAlong(start, steps))
              && (db.dumps[k].skipped <==>
                  exists x :: x in Path(db.runs, k.run) && x != k.run && DumpKey(x, k.entity) in FinishedAlong(start, steps))
  {
    NothingTold(start);
    HistoriesTell(start, steps, {});
    ReachableStatesAreSafe(start, steps);
    RunsAreOk(After(start, steps));
    var done := FinishedAlong(start, steps);
    assert {} + done == done;
    hide Init, Possible, After, Inv, Path, Finished, FinishedAlong;
  }

  /** Whatever a history adds, what was completed along the path of a run stays complete, also through resumptions. */
  lemma FinishedStaysFinished(start: State, steps: seq<Step>, rest: seq<Step>, done: DumpKey, k: DumpKey)
    requires Init(start) && Possible(start, steps) && done in FinishedAlong(start, steps)
    requires Possible(After(start, steps), rest)
    requires var db := After(After(start, steps), rest).db;
             && k in db.dumps && k.run in db.runs && db.runs[k.run].status != Success
             && done.run in Path(db.runs, k.run) && done.entity == k.entity
    ensures Finished(After(After(start, steps), rest).db.dumps[k])
    ensures done.run != k.run ==> After(After(start, steps), rest).db.dumps[k].skipped
  {
    NothingTold(start);
    HistoriesTell(start, steps, {});
    ReachableStatesAreSafe(start, steps);
    var s, first := After(start, steps), FinishedAlong(start, steps);
    assert {} + first == first;
    HistoriesTell(s, rest, first);
    var all := first + FinishedAlong(s, rest);
    var db := After(s, rest).db;
    assert SummaryTells(db.runs, k, db.dumps[k], all);
    assert DumpKey(done.run, k.entity) in all;
    assert done.run != k.run ==> done.run in Path(db.runs, k.run) - {k.run};
    hide Init, Possible, After, Inv, Path, Finished, FinishedAlong;
  }

  /** Every entity of the run was completed by it or by an attempt that it resumed. */
  ghost predicate AllCompleted(runs: map<RunId, Run>, run: RunId, entities: set<Entity>, done: set<DumpKey>) {
    forall e :: e in entities ==> exists x :: x in Path(runs, run) && DumpKey(x, e) in done
  }

  lemma AllToldFinished(db: Db, run: RunId, entities: set<Entity>, done: set<DumpKey>)
    requires SummariesTell(db.runs, db.dumps, done) && IsRunning(db.runs, run) && EntitiesOf(db.dumps, run) == entities
    ensures AllFinished(db.dumps, run) <==> AllCompleted(db.runs, run, entities, done)
  {
    EntitiesAreKeys(db.dumps, run);
    hide Finished, Path, EntitiesOf;
    forall e | e in entities
      ensures Finished(db.dumps[DumpKey(run, e)]) <==> CompletedOn(Path(db.runs, run), e, done)
    {
      assert SummaryTells(db.runs, DumpKey(run, e), db.dumps[DumpKey(run, e)], done);
    }
    assert forall k :: k in db.dumps && k.run == run ==> k == DumpKey(run, k.entity) && k.entity in entities;
    hide SummariesTell;
  }

  /**
   * After any history, completing a live run closes it: with success exactly when there was no run error and
   * every entity was completed along its resume path, and as failed otherwise.
   */
  lemma HistoriesSucceedIffCompleted(start: State, steps: seq<Step>, step: Step)
    requires Init(start) && Possible(start, steps) && Enabled(After(start, steps), step)
    requires step.Complete? && step.bootstrapOk
    ensures var s, s' := After(start, steps), Apply(After(start, steps), step);
            && step.session in s.coords && s'.coords == s.coords[step.session := s.coords[step.session].(runID := 0, entities := {})]
            && var c := s.coords[step.session];
               c.runID in s'.db.runs && s'.db.runs[c.runID].completedAt == step.now
               && s'.db.runs[c.runID].status
                  == if step.runErr.None? && AllCompleted(s.db.runs, c.runID, c.entities, FinishedAlong(start, steps))
                     then Success else Failed
  {
    NothingTold(start);
    HistoriesTell(start, steps, {});
    ReachableStatesAreSafe(start, steps);
    var done := FinishedAlong(start, steps);
    assert {} + done == done;
    hide *;
    SucceedsIffCompleted(After(start, steps), step, done);
  }

  lemma LiveCloses(s: State, a: Session)
    requires Inv(s) && a in s.coords && s.coords[a].runID != 0
    ensures var c := s.coords[a];
            && IsRunning(s.db.runs, c.runID) && EntitiesOf(s.db.dumps, c.runID) == c.entities
            && forall runErr :: CanClose(s.db, c.runID, c.entities, runErr, true)
  {
    assert LiveOk(s.db, s.coords[a]);
    hide DbInv, LockTypes, AllFinished;
  }

  lemma SucceedsIffCompleted(s: State, step: Step, done: set<DumpKey>)
    requires Inv(s) && SummariesTell(s.db.runs, s.db.dumps, done) && Enabled(s, step)
    requires step.Complete? && step.bootstrapOk
    ensures var s' := Apply(s, step);
            && step.session in s.coords && s'.coords == s.coords[step.session := s.coords[step.session].(runID := 0, entities := {})]
            && var c := s.coords[step.session];
               c.runID in s'.db.runs && s'.db.runs[c.runID].completedAt == step.now
               && s'.db.runs[c.runID].status
                  == if step.runErr.None? && AllCompleted(s.db.runs, c.runID, c.entities, done) then Success else Failed
  {
    EnabledCompletion(s, step);
    LiveCloses(s, step.session);
    var c := s.coords[step.session];
    AllToldFinished(s.db, c.runID, c.entities, done);
    hide Inv, Enabled, Apply, CompleteTx, SummariesTell, CanClose, AllFinished, AllCompleted, LedgersLeft, Ready, FailedFor, EntitiesOf;
    CompletionDecides(s.db, c.runID, c.entities, step.runErr, step.view, step.now, step.bootstrapOk);
  }
}
