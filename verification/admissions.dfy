/** Admissions over whole histories: which plans start a run, from where, and which are skipped or refused. */
module Admissions {
  import opened Options
  import opened Sets
  import opened Database
  import opened History
  import opened Invariant
  import opened RunAdmission
  import opened Effects
  import opened Protocol
  import opened Safety
  import opened Resumption
  import opened Decisions

  /**
   * An admission step, in terms of the tables after recovery and of the run that is resumed. It either
   * changes nothing or does all that is due, and only a started run becomes the session's.
   */
  ghost predicate AdmissionStep(s: State, step: Step, rec: Db, source: RunId, s': State)
    requires step.Admit? && step.session in s.coords
  {
    if CanAdmit(rec, step.plan, step.view, step.compat, step.consolidated, step.newId, source, step.bootstrapOk) then
      && Admits(rec, step.plan, step.compat, step.consolidated, step.newId, source, step.now, s'.db)
      && s'.coords == if Satisfied(step.plan, step.compat) then s.coords
                      else s.coords[step.session := Coordinator(step.newId, Selected(step.plan), s.coords[step.session].held)]
    else s' == s
  }

  lemma EnabledAdmission(s: State, step: Step)
    requires Enabled(s, step) && step.Admit?
    ensures step.session in s.coords && PlanError(step.plan).None? && FreshRun(s.db, step.newId)
    ensures Apply(s, step) == ApplyAdmission(s, step.session, step.plan, AdmitTx(
              s.db, step.plan, step.view, step.compat, step.consolidated, step.newId, step.now, step.bootstrapOk))
  {
    hide AdmitTx, PlanError, FreshRun, Selected, LockTypes, SourceOf, MarkAbandonedRuns;
  }

  lemma EnabledCompletion(s: State, step: Step)
    requires Enabled(s, step) && step.Complete?
    ensures step.session in s.coords && s.coords[step.session].runID != 0
    ensures var c := s.coords[step.session];
            var r := CompleteTx(s.db, c.runID, c.entities, step.runErr, step.view, step.now, step.bootstrapOk);
            Apply(s, step) == ApplyCompletion(s, step.session, r)
  {
    hide CompleteTx;
  }

  lemma AdmissionStepHolds(s: State, step: Step, rec: Db, source: RunId)
    requires Inv(s) && Enabled(s, step) && step.Admit?
    requires Recovered(s.db, Selected(step.plan), step.now, rec) && ResumesFrom(rec, step.plan, step.view, source)
    ensures step.session in s.coords && AdmissionStep(s, step, rec, source, Apply(s, step))
  {
    EnabledAdmission(s, step);
    hide DbInv, Enabled, Apply, AdmitTx, PlanError, FreshRun, Selected, Recovered, ResumesFrom, CanAdmit, Admits;
    AdmissionDecides(s.db, step.plan, step.view, step.compat, step.consolidated, step.newId, step.now, step.bootstrapOk, rec, source);
  }

  /** The tables after recovery, and the run that is then resumed. */
  lemma RecoveryOf(s: State, step: Step) returns (rec: Db, source: RunId)
    requires Inv(s) && step.Admit?
    ensures Recovered(s.db, Selected(step.plan), step.now, rec) && ResumesFrom(rec, step.plan, step.view, source)
  {
    rec := MarkAbandonedRuns(s.db, Selected(step.plan), step.now);
    RecoveryFails(s.db, Selected(step.plan), step.now);
    source := SourceOf(rec, step.plan, step.view);
    PositiveRuns(s, Selected(step.plan), step.now, rec);
    hide Recovered, MarkAbandonedRuns, Inv, Finds, FindResumableRun;
    if !step.plan.force {
      LatestIsFound(rec, step.plan, step.view);
    }
  }

  lemma PositiveRuns(s: State, entities: set<Entity>, now: int, rec: Db)
    requires Inv(s) && Recovered(s.db, entities, now, rec)
    ensures forall r :: r in rec.runs ==> 0 < r
  {
    hide WorksOn;
  }

  /** After any history, every admission goes as its plan, the recovered tables and the inputs decide. */
  lemma HistoriesAdmitAsDecided(start: State, steps: seq<Step>, step: Step, rec: Db, source: RunId)
    requires Init(start) && Possible(start, steps) && Enabled(After(start, steps), step) && step.Admit?
    requires Recovered(After(start, steps).db, Selected(step.plan), step.now, rec)
    requires ResumesFrom(rec, step.plan, step.view, source)
    ensures step.session in After(start, steps).coords
    ensures AdmissionStep(After(start, steps), step, rec, source, Apply(After(start, steps), step))
  {
    ReachableStatesAreSafe(start, steps);
    hide *;
    AdmissionStepHolds(After(start, steps), step, rec, source);
  }

  /** A running run that begins anew: no item, no complete or skipped entity, no recorded chunk. */
  ghost predicate BeginsAnew(db: Db, n: RunId, entities: set<Entity>) {
    && n in db.runs && db.runs[n].status == Running && db.runs[n].resumedFrom == 0
    && (forall e :: DumpKey(n, e) in db.dumps <==> e in entities)
    && (forall k :: k in db.dumps && k.run == n ==>
          db.dumps[k].processedItems == 0 && db.dumps[k].completedAt.None? && !db.dumps[k].skipped)
    && (forall k :: k in db.chunks ==> k.run != n)
  }

  lemma StartsAnew(db: Db, n: RunId, plan: Plan, db': Db)
    requires Starts(db, n, plan, 0, db')
    ensures BeginsAnew(db', n, Selected(plan))
  {
    hide Planned, Importing, OthersKept, Selected;
  }

  /**
   * After any history, a plan under `force` is admitted unless a dump is outdated, a catalog row is missing or
   * the bootstrap fails; it is never skipped, and its run begins anew whatever was imported before.
   */
  lemma HistoriesForceBeginsAnew(start: State, steps: seq<Step>, step: Step)
    requires Init(start) && Possible(start, steps) && Enabled(After(start, steps), step)
    requires step.Admit? && step.plan.force
    ensures var s, s' := After(start, steps), Apply(After(start, steps), step);
            if UpToDate(step.plan, step.view) && Selected(step.plan) <= s.db.catalog.Keys && step.bootstrapOk then
              && step.session in s'.coords && s'.coords[step.session].runID == step.newId
              && BeginsAnew(s'.db, step.newId, Selected(step.plan))
            else s' == s
  {
    ReachableStatesAreSafe(start, steps);
    var s := After(start, steps);
    var rec, source := RecoveryOf(s, step);
    hide Inv, Init, Possible, After, Enabled, Apply, UpToDate, Selected, Starts, BeginsAnew, Finds;
    assert source == 0;
    AdmissionStepHolds(s, step, rec, source);
    RecoveredCatalog(s.db, Selected(step.plan), step.now, rec);
    hide Recovered;
    if CanAdmit(rec, step.plan, step.view, step.compat, step.consolidated, step.newId, source, step.bootstrapOk) {
      StartsAnew(rec, step.newId, step.plan, Apply(s, step).db);
    }
  }

  lemma RecoveredCatalog(db: Db, entities: set<Entity>, now: int, rec: Db)
    requires Recovered(db, entities, now, rec)
    ensures rec == db.(runs := rec.runs)
  {}

  /**
   * After any history, without `force`: a satisfied plan starts nothing, a partly satisfied or outdated one
   * changes nothing, and any other resumes the latest fitting failed run or begins anew when there is none.
   */
  lemma HistoriesResumeOrBeginAnew(start: State, steps: seq<Step>, step: Step)
    requires Init(start) && Possible(start, steps) && Enabled(After(start, steps), step)
    requires step.Admit? && !step.plan.force
    ensures var s, s' := After(start, steps), Apply(After(start, steps), step);
            && (step.compat.selected == |step.plan.dumps| == step.compat.compatible ==> s'.coords == s.coords)
            && (step.compat.selected == |step.plan.dumps| && 0 < step.compat.compatible < step.compat.selected ==> s' == s)
            && (!UpToDate(step.plan, step.view) ==> s' == s)
            && (s'.coords != s.coords ==>
                  && step.session in s'.coords && s'.coords[step.session].runID == step.newId
                  && step.newId in s'.db.runs
                  && var source := s'.db.runs[step.newId].resumedFrom;
                     exists rec ::
                       && Recovered(s.db, Selected(step.plan), step.now, rec) && Finds(rec, step.plan, step.view, source)
                       && if source == 0 then BeginsAnew(s'.db, step.newId, Selected(step.plan))
                          else Resumes(rec, source, step.newId, step.plan, s'.db))
  {
    ReachableStatesAreSafe(start, steps);
    var s := After(start, steps);
    var rec, source := RecoveryOf(s, step);
    hide Inv, Init, Possible, After, Enabled, Apply, UpToDate, Selected, Starts, BeginsAnew, Finds, Recovered, Resumes;
    AdmissionStepHolds(s, step, rec, source);
    if Apply(s, step).coords != s.coords {
      StartedAs(rec, step.newId, step.plan, source, Apply(s, step).db);
    }
  }

  /** A run that goes on with what the failed one has recorded. */
  ghost predicate Resumes(rec: Db, source: RunId, n: RunId, plan: Plan, db': Db) {
    RowsOf(rec, n, plan, source, db') && TakesOver(rec, source, n, plan, db')
  }

  lemma StartedAs(rec: Db, n: RunId, plan: Plan, source: RunId, db': Db)
    requires Starts(rec, n, plan, source, db')
    ensures n in db'.runs && db'.runs[n].resumedFrom == source
    ensures if source == 0 then BeginsAnew(db', n, Selected(plan)) else Resumes(rec, source, n, plan, db')
  {
    hide Planned, Importing, OthersKept, Selected, SummariesContinue, ChunksMoved;
  }

  // ----- who may import at the same time -----

  /** Releases exclude everything else, masters exclude artists, and everything excludes itself. */
  ghost predicate Conflict(a: set<Entity>, b: set<Entity>) {
    || (Entity.Release in a && b != {}) || (Entity.Release in b && a != {})
    || (Master in a && Artist in b) || (Artist in a && Master in b)
    || exists e :: e in a && e in b
  }

  lemma LocksConflictIff(a: set<Entity>, b: set<Entity>)
    ensures Conflict(a, b) <==> exists l :: l in LockTypes(a) && l in LockTypes(b)
  {
    Needs(a);
    Needs(b);
    SomeEntity(a);
    SomeEntity(b);
    hide LockTypes;
    if exists l :: l in LockTypes(a) && l in LockTypes(b) {
      var l :| l in LockTypes(a) && l in LockTypes(b);
      match l
      case Artist =>
      case Label =>
      case Master =>
      case Release =>
    }
    if Conflict(a, b) {
      if exists e :: e in a && e in b {
        var e :| e in a && e in b;
        match e
        case Artist =>
        case Label =>
        case Master =>
        case Release =>
      }
      Shared(a, b, Artist);
      Shared(a, b, Label);
      Shared(a, b, Master);
      Shared(a, b, Entity.Release);
    }
  }

  lemma Shared(a: set<Entity>, b: set<Entity>, l: Entity)
    ensures l in LockTypes(a) && l in LockTypes(b) ==> exists l :: l in LockTypes(a) && l in LockTypes(b)
  {}

  lemma SomeEntity(a: set<Entity>)
    ensures a != {} <==> Artist in a || Label in a || Master in a || Entity.Release in a
  {
    if a != {} {
      var e := Pick(a);
      match e
      case Artist =>
      case Label =>
      case Master =>
      case Release =>
    }
  }

  /** Which locks a plan takes. */
  lemma Needs(a: set<Entity>)
    ensures Artist in LockTypes(a) <==> Artist in a || Master in a || Entity.Release in a
    ensures Label in LockTypes(a) <==> Label in a || Entity.Release in a
    ensures Master in LockTypes(a) <==> Master in a || Entity.Release in a
    ensures Entity.Release in LockTypes(a) <==> Entity.Release in a
  {
    forall l: Entity, e: Entity | e in a && l in RequiredLocks(e)
      ensures l in LockTypes(a)
    {}
  }

  /** After any history, two imports that are under way never conflict. */
  lemma HistoriesNeverConflict(start: State, steps: seq<Step>, a: Session, b: Session)
    requires Init(start) && Possible(start, steps)
    requires var s := After(start, steps); a in s.coords && b in s.coords && a != b
    requires var s := After(start, steps); s.coords[a].runID != 0 && s.coords[b].runID != 0
    ensures !Conflict(After(start, steps).coords[a].entities, After(start, steps).coords[b].entities)
  {
    ReachableStatesAreSafe(start, steps);
    var s := After(start, steps);
    HeldByLive(s, a);
    HeldByLive(s, b);
    LocksAreExclusive(s, a, b);
    hide Inv, Init, Possible, After, Conflict, LockTypes;
    LocksConflictIff(s.coords[a].entities, s.coords[b].entities);
  }

  lemma HeldByLive(s: State, a: Session)
    requires Inv(s) && a in s.coords && s.coords[a].runID != 0
    ensures LocksOk(s) && LockTypes(s.coords[a].entities) <= s.coords[a].held
  {
    assert LiveOk(s.db, s.coords[a]);
    hide DbInv, LockTypes;
  }
}
