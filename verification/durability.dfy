/** Recorded progress is durable: a failed run keeps its ledger until it is resumed or its dumps have been applied. */
module Durability {
  import opened Options
  import opened Coverage
  import opened Database
  import opened History
  import opened Invariant
  import opened RunAdmission
  import opened Effects
  import opened Protocol
  import opened Safety
  import opened Resumption
  import opened Decisions
  import opened Completions
  import opened Admissions

  // ----- the steps that take a ledger -----

  /** An admission resumed the run, or a completion succeeded: its own, or another when all of its dumps were applied. */
  ghost predicate Spends(s: State, step: Step, r: RunId)
    requires Enabled(s, step)
  {
    var runs' := Apply(s, step).db.runs;
    match step
    case Admit(_, _, _, _, _, n, _, _) => n in runs' && runs'[n].resumedFrom == r
    case Complete(session, _, view, _, _) =>
      var run := s.coords[session].runID;
      run in runs' && runs'[run].status == Success && (r == run || SpentBy(s.db, r, view))
    case _ => false
  }

  /** No recorded chunk of the run is lost. */
  ghost predicate RowsSurvive(chunks: map<ChunkKey, ChunkRange>, r: RunId, chunks': map<ChunkKey, ChunkRange>) {
    forall k :: k in chunks && k.run == r ==> k in chunks' && chunks'[k] == chunks[k]
  }

  /** The run's recorded chunks and its summaries are as they were. */
  ghost predicate Untouched(db: Db, r: RunId, db': Db) {
    && SameRows(db.chunks, db'.chunks, r)
    && (forall k: DumpKey :: k.run == r ==> (k in db'.dumps <==> k in db.dumps))
    && (forall k: DumpKey :: k.run == r && k in db.dumps ==> db'.dumps[k] == db.dumps[k])
  }

  /** What an admission makes of the ledger and the summaries of an earlier run. */
  lemma AdmissionLeaves(
      rec: Db, plan: Plan, compat: Compatibility, consolidated: map<Entity, RunDump>, n: RunId, source: RunId, now: int, db': Db,
      r: RunId)
    requires Admits(rec, plan, compat, consolidated, n, source, now, db') && FreshRun(rec, n) && r in rec.runs && 0 < r
    ensures if n in db'.runs && db'.runs[n].resumedFrom == r then Emptied(db'.chunks, r) else Untouched(rec, r, db')
  {
    hide Planned, Importing, Ready, SummariesContinue, Selected, Continues;
  }

  lemma AdmissionStepLeaves(s: State, step: Step, rec: Db, source: RunId, s': State, r: RunId)
    requires step.Admit? && step.session in s.coords && AdmissionStep(s, step, rec, source, s')
    requires FreshRun(s.db, step.newId) && FreshRun(rec, step.newId) && r in rec.runs && 0 < r
    requires rec.chunks == s.db.chunks && rec.dumps == s.db.dumps
    ensures if step.newId in s'.db.runs && s'.db.runs[step.newId].resumedFrom == r then Emptied(s'.db.chunks, r)
            else Untouched(s.db, r, s'.db)
  {
    hide CanAdmit, Admits, Emptied;
    if CanAdmit(rec, step.plan, step.view, step.compat, step.consolidated, step.newId, source, step.bootstrapOk) {
      AdmissionLeaves(rec, step.plan, step.compat, step.consolidated, step.newId, source, step.now, s'.db, r);
    }
  }

  lemma SpendsAs(s: State, step: Step, r: RunId)
    requires Enabled(s, step)
    ensures step.Admit? ==>
              (Spends(s, step, r) <==>
               step.newId in Apply(s, step).db.runs && Apply(s, step).db.runs[step.newId].resumedFrom == r)
    ensures !step.Admit? && !step.Complete? ==> !Spends(s, step, r)
  {
    hide Enabled, Apply, SpentBy;
  }

  lemma AdmissionLedger(s: State, step: Step, r: RunId)
    requires Inv(s) && Enabled(s, step) && step.Admit? && r in s.db.runs
    ensures if Spends(s, step, r) then Emptied(Apply(s, step).db.chunks, r) else Untouched(s.db, r, Apply(s, step).db)
  {
    hide *;
    var rec, source := RecoveryOf(s, step);
    EnabledAdmission(s, step);
    RunIsPositive(s, r);
    AdmissionStepHolds(s, step, rec, source);
    RecoveryLeaves(s.db, Selected(step.plan), step.now, rec, r, step.newId);
    AdmissionStepLeaves(s, step, rec, source, Apply(s, step), r);
    SpendsAs(s, step, r);
  }

  lemma RunIsPositive(s: State, r: RunId)
    requires Inv(s) && r in s.db.runs
    ensures 0 < r
  {}

  lemma RecoveryLeaves(db: Db, entities: set<Entity>, now: int, rec: Db, r: RunId, n: RunId)
    requires Recovered(db, entities, now, rec) && r in db.runs && FreshRun(db, n)
    ensures r in rec.runs && FreshRun(rec, n) && rec.chunks == db.chunks && rec.dumps == db.dumps
  {
    hide WorksOn;
  }

  lemma ClosedLedger(
      db: Db, run: RunId, entities: set<Entity>, runErr: Option<string>, view: View, now: int, db': Db, success: bool, r: RunId)
    requires Closes(db, run, entities, runErr, view, now, db', success) && r in db.runs
    ensures run in db'.runs && (db'.runs[run].status == Success <==> success)
    ensures if success && (r == run || SpentBy(db, r, view)) then Emptied(db'.chunks, r) else Untouched(db, r, db')
  {
    hide AllFinished, Ready, FailedFor, SpentBy;
  }

  lemma CompletionLedger(s: State, step: Step, r: RunId)
    requires Inv(s) && Enabled(s, step) && step.Complete? && r in s.db.runs
    ensures if Spends(s, step, r) then Emptied(Apply(s, step).db.chunks, r) else Untouched(s.db, r, Apply(s, step).db)
  {
    EnabledCompletion(s, step);
    var c := s.coords[step.session];
    LiveMeansRunning(s, step.session);
    CompletionDecides(s.db, c.runID, c.entities, step.runErr, step.view, step.now, step.bootstrapOk);
    hide Inv, Enabled, Apply, CompleteTx, SpentBy, Closes, CanClose, ActiveFor, Emptied;
    var x := CompleteTx(s.db, c.runID, c.entities, step.runErr, step.view, step.now, step.bootstrapOk);
    if x.Ok? {
      ClosedLedger(s.db, c.runID, c.entities, step.runErr, step.view, step.now, x.value.0, x.value.1, r);
    }
  }

  /** Worker, lock and session steps lose no recorded chunk and leave all runs as they are. */
  lemma OtherStepLeaves(s: State, step: Step, r: RunId)
    requires Inv(s) && Enabled(s, step) && !step.Admit? && !step.Complete?
    ensures Apply(s, step).db.runs == s.db.runs && RowsSurvive(s.db.chunks, r, Apply(s, step).db.chunks)
  {
    hide CommitBatch, WellFormedBatch, CoverageAccepts, LedgerOf, Inv;
    match step
    case Chunk(order, chunk, write) => BatchFrame(s.db, order, chunk, write);
    case _ =>
  }

  lemma FrozenIsUntouched(db: Db, r: RunId, db': Db)
    requires StepFrame(db, db') && RowsSurvive(db.chunks, r, db'.chunks)
    requires r in db.runs && !IsRunning(db.runs, r)
    ensures Untouched(db, r, db')
  {
    hide RunsEvolve, Fenced, SummariesKept;
  }

  /** Spending empties a ledger; otherwise a run that is not running keeps its ledger and its summaries. */
  lemma StepLedger(s: State, step: Step, r: RunId)
    requires Inv(s) && Enabled(s, step) && r in s.db.runs
    ensures Spends(s, step, r) ==> Emptied(Apply(s, step).db.chunks, r)
    ensures !Spends(s, step, r) && !IsRunning(Apply(s, step).db.runs, r) ==> Untouched(s.db, r, Apply(s, step).db)
  {
    hide *;
    if step.Admit? {
      AdmissionLedger(s, step, r);
    } else if step.Complete? {
      CompletionLedger(s, step, r);
    } else {
      SpendsAs(s, step, r);
      OtherStepLeaves(s, step, r);
      StepFrameHolds(s, step);
      if !IsRunning(Apply(s, step).db.runs, r) {
        FrozenIsUntouched(s.db, r, Apply(s, step).db);
      }
    }
  }

  // ----- histories -----

  /** No step of the history takes the run's ledger. */
  ghost predicate Unspent(s: State, steps: seq<Step>, r: RunId)
    requires Possible(s, steps)
    decreases |steps|
  {
    steps == [] || (!Spends(s, steps[0], r) && Unspent(Apply(s, steps[0]), steps[1..], r))
  }

  /** Every counter of the run equals the items of its ledger. */
  ghost predicate CountsItems(db: Db, r: RunId) {
    forall k :: k in db.dumps && k.run == r ==> Counted(db, k)
  }

  lemma UntouchedCounts(db: Db, r: RunId, db': Db)
    requires Untouched(db, r, db') && CountsItems(db, r)
    ensures CountsItems(db', r)
  {
    forall k | k in db'.dumps && k.run == r
      ensures Counted(db', k)
    {
      SameRowsSameLedger(db.chunks, db'.chunks, r, k.entity);
      assert Counted(db, k);
    }
  }

  lemma RunningCounts(s: State, r: RunId)
    requires Inv(s) && IsRunning(s.db.runs, r)
    ensures CountsItems(s.db, r)
  {
    assert Whole(s.db.runs, s.db.dumps, s.db.chunks, s.db.history, r);
    hide DbInv, Mirrors, LedgerOf, Items;
  }

  lemma {:induction false} UnspentCounts(s: State, steps: seq<Step>, r: RunId)
    requires Inv(s) && Possible(s, steps) && r in s.db.runs && CountsItems(s.db, r) && Unspent(s, steps, r)
    ensures r in After(s, steps).db.runs && CountsItems(After(s, steps).db, r)
    decreases |steps|
  {
    if steps != [] {
      var s' := Apply(s, steps[0]);
      StepKeepsInv(s, steps[0]);
      StepFrameHolds(s, steps[0]);
      StepLedger(s, steps[0], r);
      assert r in s'.db.runs;
      hide Inv, Apply, Enabled, StepFrame, CountsItems, Untouched, Spends;
      if IsRunning(s'.db.runs, r) {
        RunningCounts(s', r);
      } else {
        UntouchedCounts(s.db, r, s'.db);
      }
      UnspentCounts(s', steps[1..], r);
    }
  }

  /** A ledger that was taken stays empty. */
  lemma {:induction false} SpentIsEmptied(s: State, steps: seq<Step>, r: RunId)
    requires Inv(s) && Possible(s, steps) && r in s.db.runs && !Unspent(s, steps, r)
    ensures Emptied(After(s, steps).db.chunks, r)
    decreases |steps|
  {
    var s' := Apply(s, steps[0]);
    StepKeepsInv(s, steps[0]);
    StepFrameHolds(s, steps[0]);
    StepLedger(s, steps[0], r);
    assert r in s'.db.runs;
    if Spends(s, steps[0], r) {
      SpenderIsClosed(s, steps[0], r);
      hide Inv, Apply, Enabled, StepFrame, Spends;
      ClosedRunsAreSilent(s', steps[1..], r);
    } else {
      hide Inv, Apply, Enabled, StepFrame, Spends;
      SpentIsEmptied(s', steps[1..], r);
    }
  }

  /** A run whose ledger was taken is not running. */
  lemma SpenderIsClosed(s: State, step: Step, r: RunId)
    requires Inv(s) && Enabled(s, step) && Spends(s, step, r) && r in s.db.runs
    ensures !IsRunning(Apply(s, step).db.runs, r)
  {
    StepKeepsInv(s, step);
    RunIsPositive(s, r);
    SourceHasFailed(Apply(s, step));
    if s.db.runs[r].status == Failed {
      FrameKeepsFailed(s, step, r);
    }
    hide Inv, Enabled, Apply, Unapplied;
  }

  lemma FrameKeepsFailed(s: State, step: Step, r: RunId)
    requires Inv(s) && Enabled(s, step) && r in s.db.runs && s.db.runs[r].status == Failed
    ensures r in Apply(s, step).db.runs && Apply(s, step).db.runs[r].status == Failed
  {
    StepFrameHolds(s, step);
    hide Inv, Enabled, Apply, ClosedRunsFrozen, Fenced, SummariesKept;
  }

  lemma SourceHasFailed(s: State)
    requires Inv(s)
    ensures forall n :: n in s.db.runs && s.db.runs[n].resumedFrom != 0 ==>
              s.db.runs[n].resumedFrom in s.db.runs && s.db.runs[s.db.runs[n].resumedFrom].status == Failed
  {}

  /**
   * After any history, a failed run still owns each chunk that its path committed, unless a later admission
   * resumed it or a later completion found all of its dumps applied; then it owns none.
   */
  lemma HistoriesKeepProgress(start: State, steps: seq<Step>, rest: seq<Step>, r: RunId)
    requires Init(start) && Possible(start, steps) && IsRunning(After(start, steps).db.runs, r)
    requires Possible(After(start, steps), rest)
    requires r in After(After(start, steps), rest).db.runs && After(After(start, steps), rest).db.runs[r].status == Failed
    ensures var s := After(start, steps);
            var db := After(s, rest).db;
            if Unspent(s, rest, r) then Whole(db.runs, db.dumps, db.chunks, db.history, r) else Emptied(db.chunks, r)
  {
    ReachableStatesAreSafe(start, steps);
    var s := After(start, steps);
    HistoriesKeepInv(s, rest);
    RunningCounts(s, r);
    InvRows(After(s, rest));
    hide Inv, Init, Possible, After, Unspent, DbInv, Counted, Whole, Emptied;
    if Unspent(s, rest, r) {
      UnspentCounts(s, rest, r);
      CountsMakeResumed(After(s, rest).db, r);
      ResumableIsWhole(After(s, rest).db, r);
    } else {
      SpentIsEmptied(s, rest, r);
    }
  }

  lemma CountsMakeResumed(db: Db, r: RunId)
    requires r in db.runs && db.runs[r].status == Failed && CountsItems(db, r)
    ensures Resumed(db, r)
  {
    hide LedgerOf, Items;
    assert forall k :: k in db.dumps && k.run == r ==> Counted(db, k);
  }

  // ----- interrupted runs are resumed -----

  /** The run failed under a plan like this one, and its chunks have the plan's ranges. Counters are not looked at. */
  ghost predicate Fits(db: Db, run: RunId, plan: Plan) {
    && run in db.runs
    && db.runs[run].status == Failed && db.runs[run].manifest == plan.manifest && !db.runs[run].forceRequested
    && |EntitiesOf(db.dumps, run)| == |plan.dumps|
    && (forall k :: k in db.dumps && k.run == run ==> UnderPlan(db.dumps[k], plan, k.entity))
    && (forall k :: k in db.chunks && k.run == run && DumpKey(run, k.entity) in db.dumps ==> Aligned(db.chunks[k], k.index, plan))
  }

  lemma FittingIsCompatible(db: Db, run: RunId, plan: Plan)
    requires Fits(db, run, plan) && CountsItems(db, run)
    ensures Compatible(db, run, plan)
  {
    hide Counted, UnderPlan, Aligned, EntitiesOf;
  }

  /** Recovery touches neither summaries nor chunks. */
  lemma RecoveryCounts(db: Db, entities: set<Entity>, now: int, rec: Db, r: RunId)
    requires Recovered(db, entities, now, rec) && CountsItems(db, r)
    ensures CountsItems(rec, r)
  {
    hide WorksOn, LedgerOf, Items;
    forall k | k in rec.dumps && k.run == r
      ensures Counted(rec, k)
    {
      assert Counted(db, k);
    }
  }

  /** What a plan needs besides a run to resume. */
  ghost predicate Startable(rec: Db, plan: Plan, view: View, compat: Compatibility, bootstrapOk: bool) {
    && UpToDate(plan, view) && !Satisfied(plan, compat) && !PartlySatisfied(plan, compat)
    && Selected(plan) <= rec.catalog.Keys && bootstrapOk
    && forall x :: Compatible(rec, x, plan) ==> SameDumps(rec.dumps, x, plan)
  }

  lemma StartableAdmits(
      rec: Db, plan: Plan, view: View, compat: Compatibility, consolidated: map<Entity, RunDump>, n: RunId, source: RunId, bootstrapOk: bool)
    requires Startable(rec, plan, view, compat, bootstrapOk) && ResumesFrom(rec, plan, view, source)
    ensures CanAdmit(rec, plan, view, compat, consolidated, n, source, bootstrapOk)
  {
    hide UpToDate, SameDumps, Selected, LastToWrite, Compatible;
  }

  /** The session's run goes on with the chunks of a fitting failed run: of `r`, or of one that failed later. */
  ghost predicate GoesOnFrom(rec: Db, r: RunId, n: RunId, db': Db)
    requires r in rec.runs
  {
    && n in db'.runs && db'.runs[n].status == Running
    && var source := db'.runs[n].resumedFrom;
       && source in rec.runs && (source == r || FailedBefore(rec.runs, r, source))
       && ChunksMoved(rec.chunks, source, n, db'.chunks)
  }

  lemma FoundFrom(rec: Db, plan: Plan, view: View, source: RunId, r: RunId)
    requires Finds(rec, plan, view, source) && r in rec.runs && Compatible(rec, r, plan) && LastToWrite(rec, r, view)
    requires forall x :: x in rec.runs ==> 0 < x
    ensures source != 0 && source in rec.runs && (source == r || FailedBefore(rec.runs, r, source))
  {
    hide Compatible, LastToWrite;
  }

  lemma StartedFromIt(rec: Db, n: RunId, plan: Plan, source: RunId, r: RunId, db': Db)
    requires Starts(rec, n, plan, source, db') && source != 0 && source in rec.runs && r in rec.runs
    requires source == r || FailedBefore(rec.runs, r, source)
    ensures GoesOnFrom(rec, r, n, db')
  {
    hide Planned, Importing, OthersKept, Selected, SummariesContinue, ChunksMoved;
  }

  /**
   * A run was interrupted: its process died, or it completed with an error. As long as nothing has taken its
   * ledger, the next admission of a fitting plan, which first fails the run if it still counts as running,
   * goes on with its chunks, or with those of a fitting run that failed even later.
   */
  lemma HistoriesResumeInterruptedRuns(start: State, steps: seq<Step>, rest: seq<Step>, r: RunId, step: Step, rec: Db)
    requires Init(start) && Possible(start, steps) && IsRunning(After(start, steps).db.runs, r)
    requires Possible(After(start, steps), rest) && Unspent(After(start, steps), rest, r)
    requires Enabled(After(After(start, steps), rest), step) && step.Admit? && !step.plan.force
    requires Recovered(After(After(start, steps), rest).db, Selected(step.plan), step.now, rec)
    requires Fits(rec, r, step.plan) && LastToWrite(rec, r, step.view)
    requires Startable(rec, step.plan, step.view, step.compat, step.bootstrapOk)
    ensures var s' := Apply(After(After(start, steps), rest), step);
            && step.session in s'.coords && s'.coords[step.session].runID == step.newId
            && GoesOnFrom(rec, r, step.newId, s'.db)
  {
    ReachableStatesAreSafe(start, steps);
    var s := After(start, steps);
    HistoriesKeepInv(s, rest);
    RunningCounts(s, r);
    RunExists(s.db, r);
    hide *;
    UnspentCounts(s, rest, r);
    ResumesAtOnce(After(s, rest), r, step, rec);
  }

  lemma ResumesAtOnce(t: State, r: RunId, step: Step, rec: Db)
    requires Inv(t) && CountsItems(t.db, r) && Enabled(t, step) && step.Admit? && !step.plan.force
    requires Recovered(t.db, Selected(step.plan), step.now, rec)
    requires Fits(rec, r, step.plan) && LastToWrite(rec, r, step.view)
    requires Startable(rec, step.plan, step.view, step.compat, step.bootstrapOk)
    ensures r in rec.runs
    ensures var s' := Apply(t, step);
            && step.session in s'.coords && s'.coords[step.session].runID == step.newId
            && GoesOnFrom(rec, r, step.newId, s'.db)
  {
    var plan := step.plan;
    var rec', source := RecoveryOf(t, step);
    RecoveryIsDetermined(t.db, Selected(plan), step.now, rec);
    RecoveryIsDetermined(t.db, Selected(plan), step.now, rec');
    PositiveRuns(t, Selected(plan), step.now, rec);
    RecoveryCounts(t.db, Selected(plan), step.now, rec, r);
    FittingIsCompatible(rec, r, plan);
    hide Inv, Enabled, Apply, Recovered, MarkAbandonedRuns, Fits, LastToWrite, Selected, CanAdmit, Finds, Starts, GoesOnFrom, Compatible;
    assert Finds(rec, plan, step.view, source);
    FoundFrom(rec, plan, step.view, source, r);
    AdmissionStepHolds(t, step, rec, source);
    StartableAdmits(rec, plan, step.view, step.compat, step.consolidated, step.newId, source, step.bootstrapOk);
    StartedFromIt(rec, step.newId, plan, source, r, Apply(t, step).db);
  }

  // ----- resumability under completions -----

  /** No item was ever counted for the run. */
  ghost predicate NothingCounted(dumps: map<DumpKey, RunDump>, r: RunId) {
    forall k :: k in dumps && k.run == r ==> dumps[k].processedItems == 0
  }

  /** The same run row and the same summaries. */
  ghost predicate SameRunIn(db: Db, r: RunId, db': Db) {
    r in db.runs && r in db'.runs && db'.runs[r] == db.runs[r] && db'.dumps == db.dumps
  }

  lemma SameLast(db: Db, r: RunId, db': Db, view: View)
    requires SameRunIn(db, r, db')
    ensures LastToWrite(db', r, view) <==> LastToWrite(db, r, view)
  {}

  lemma SameCompatible(db: Db, r: RunId, db': Db, plan: Plan)
    requires SameRunIn(db, r, db') && SameRows(db.chunks, db'.chunks, r)
    requires forall k :: k in db.dumps && k.run == r ==> (Counted(db', k) <==> Counted(db, k))
    ensures Compatible(db', r, plan) <==> Compatible(db, r, plan)
  {
    hide Counted, UnderPlan, Aligned, EntitiesOf;
  }

  lemma SameForResumption(db: Db, r: RunId, db': Db, plan: Plan, view: View)
    requires SameRunIn(db, r, db') && SameRows(db.chunks, db'.chunks, r)
    ensures Resumable(db', r, plan, view) <==> Resumable(db, r, plan, view)
  {
    assert r in db.runs && r in db'.runs && db'.dumps == db.dumps;
    hide *;
    ResumableMeans(db, r, plan, view);
    ResumableMeans(db', r, plan, view);
    SameLast(db, r, db', view);
    forall k | k in db.dumps && k.run == r
      ensures Counted(db', k) <==> Counted(db, k)
    {
      SameRowsSameLedger(db.chunks, db'.chunks, r, k.entity);
      CountedBy(db, k);
      CountedBy(db', k);
    }
    SameCompatible(db, r, db', plan);
  }

  lemma CountedBy(db: Db, k: DumpKey)
    requires k in db.dumps
    ensures Counted(db, k) <==> db.dumps[k].processedItems == Items(LedgerOf(db.chunks, k.run, k.entity))
  {}

  lemma EmptiedCounts(db: Db, r: RunId, k: DumpKey)
    requires k in db.dumps && k.run == r && Emptied(db.chunks, r)
    ensures Counted(db, k) <==> db.dumps[k].processedItems == 0
  {
    assert LedgerOf(db.chunks, r, k.entity) == map[];
    NoItems();
  }

  lemma CompatibleCounts(db: Db, r: RunId, plan: Plan)
    requires Compatible(db, r, plan)
    ensures CountsItems(db, r)
  {
    hide Counted, UnderPlan, Aligned, EntitiesOf;
  }

  /** An emptied run is resumable only if it has no items, and then its ledger was empty already. */
  lemma EmptiedForResumption(db: Db, r: RunId, db': Db, plan: Plan, view: View)
    requires DbInv(db) && SameRunIn(db, r, db') && db.runs[r].status == Failed && Emptied(db'.chunks, r)
    ensures Resumable(db', r, plan, view) <==> Resumable(db, r, plan, view) && NothingCounted(db.dumps, r)
  {
    hide DbInv, Compatible, LastToWrite, Resumable, Emptied, NothingCounted, CountsItems, Counted;
    ResumableMeans(db', r, plan, view);
    if Compatible(db', r, plan) {
      CompatibleCounts(db', r, plan);
      CountsNothing(db, r, db');
    }
    if NothingCounted(db.dumps, r) {
      NothingRecorded(db, r);
      BothEmptied(db, r, db');
      SameForResumption(db, r, db', plan, view);
    }
  }

  lemma CountsNothing(db: Db, r: RunId, db': Db)
    requires SameRunIn(db, r, db') && Emptied(db'.chunks, r) && CountsItems(db', r)
    ensures NothingCounted(db.dumps, r)
  {
    hide Counted;
    forall k | k in db.dumps && k.run == r
      ensures db.dumps[k].processedItems == 0
    {
      EmptiedCounts(db', r, k);
    }
  }

  lemma BothEmptied(db: Db, r: RunId, db': Db)
    requires Emptied(db.chunks, r) && Emptied(db'.chunks, r)
    ensures SameRows(db.chunks, db'.chunks, r)
  {}

  lemma NothingRecorded(db: Db, r: RunId)
    requires DbInv(db) && r in db.runs && db.runs[r].status == Failed && NothingCounted(db.dumps, r)
    ensures Emptied(db.chunks, r)
  {
    InvLedger(db, r);
    DbInvRows(db);
    hide DbInv, Mirrors, LedgerOf, Items;
    if Whole(db.runs, db.dumps, db.chunks, db.history, r) {
      forall k | k in db.chunks
        ensures k.run != r
      {
        LedgerIndexes(db, r, k.entity);
        ItemsPositive(LedgerOf(db.chunks, r, k.entity));
        InLedger(db.chunks, r, k.entity, k.index);
      }
    }
  }

  /**
   * Completing another run leaves a failed run resumable exactly as before, under every plan and view, unless
   * the completion succeeds and finds each of its dumps applied; then it is resumable only if it has no items.
   */
  lemma CompletionsKeepResumable(
      start: State, steps: seq<Step>, step: Step, r: RunId, plan: Plan, view: View)
    requires Init(start) && Possible(start, steps) && Enabled(After(start, steps), step) && step.Complete?
    requires var s := After(start, steps); r in s.db.runs && s.db.runs[r].status == Failed
    ensures var s, s' := After(start, steps), Apply(After(start, steps), step);
            Resumable(s'.db, r, plan, view)
            <==> Resumable(s.db, r, plan, view) && (!Spends(s, step, r) || NothingCounted(s.db.dumps, r))
  {
    ReachableStatesAreSafe(start, steps);
    CompletionKeepsResumable(After(start, steps), step, r, plan, view);
    hide *;
  }

  lemma CompletionKeepsResumable(s: State, step: Step, r: RunId, plan: Plan, view: View)
    requires Inv(s) && Enabled(s, step) && step.Complete? && r in s.db.runs && s.db.runs[r].status == Failed
    ensures Resumable(Apply(s, step).db, r, plan, view)
            <==> Resumable(s.db, r, plan, view) && (!Spends(s, step, r) || NothingCounted(s.db.dumps, r))
  {
    CompletionLedger(s, step, r);
    StepFrameHolds(s, step);
    CompletionKeepsDumps(s, step);
    InvRows(s);
    hide Inv, DbInv, Enabled, Apply, Spends, ClosedRunsFrozen, Fenced, SummariesKept, Resumable, NothingCounted, Emptied;
    if Spends(s, step, r) {
      EmptiedForResumption(s.db, r, Apply(s, step).db, plan, view);
    } else {
      SameForResumption(s.db, r, Apply(s, step).db, plan, view);
    }
  }

  lemma CompletionKeepsDumps(s: State, step: Step)
    requires Enabled(s, step) && step.Complete?
    ensures Apply(s, step).db.dumps == s.db.dumps
  {
    EnabledCompletion(s, step);
    var c := s.coords[step.session];
    hide Enabled, Apply, CompleteTx, AllFinished, LedgersLeft, Ready, FailedFor, CanClose;
    CompletionDecides(s.db, c.runID, c.entities, step.runErr, step.view, step.now, step.bootstrapOk);
  }
}
