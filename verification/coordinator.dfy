/** The coordinator of one import: entity locks, admission, completion, release. */
module ExecutionCoordinator {
  import opened Options
  import opened Sets
  import opened Database
  import opened Decisions
  import opened Completions
  import opened ImportTables

  /** What a session holds after taking the given locks. */
  function LockedAll(locks: map<Entity, Session>, session: Session, types: seq<Entity>): map<Entity, Session> {
    locks + map e | e in types :: session
  }

  /** What is left after a session gave the given locks back. */
  function UnlockedAll(locks: map<Entity, Session>, session: Session, types: seq<Entity>): map<Entity, Session> {
    map e | e in locks && !(e in types && locks[e] == session) :: locks[e]
  }

  ghost predicate Available(locks: map<Entity, Session>, session: Session, e: Entity) {
    e in locks ==> locks[e] == session
  }

  function Among(order: seq<Entity>, types: set<Entity>): (ordered: seq<Entity>)
    ensures forall e :: e in ordered <==> e in order && e in types
  {
    if order == [] then []
    else if order[0] in types then [order[0]] + Among(order[1..], types)
    else Among(order[1..], types)
  }

  /** The lock types of a plan in the order in which they are taken. */
  function OrderedTypes(types: set<Entity>): (ordered: seq<Entity>)
    ensures forall e :: e in ordered <==> e in types
  {
    EveryEntityIsOrdered();
    Among(ENTITY_ORDER, types)
  }

  lemma EveryEntityIsOrdered()
    ensures forall e: Entity :: e in ENTITY_ORDER
  {
    forall e: Entity
      ensures e in ENTITY_ORDER
    {
      assert ENTITY_ORDER[0] == Artist && ENTITY_ORDER[1] == Label && ENTITY_ORDER[2] == Master && ENTITY_ORDER[3] == Release;
      match e
      case Artist =>
      case Label =>
      case Master =>
      case Release =>
    }
  }

  /** Taking one more lock. */
  lemma LockedOne(locks: map<Entity, Session>, session: Session, types: seq<Entity>, e: Entity)
    ensures LockedAll(locks, session, types + [e]) == LockedAll(locks, session, types)[e := session]
    ensures Available(LockedAll(locks, session, types), session, e) <==> Available(locks, session, e) || e in types
  {}

  lemma NothingLocked(locks: map<Entity, Session>, session: Session)
    ensures LockedAll(locks, session, []) == locks
  {}

  lemma LockingUndone(locks: map<Entity, Session>, session: Session, types: seq<Entity>)
    requires forall e :: e in locks ==> locks[e] != session
    requires forall e :: e in types ==> e !in locks
    ensures UnlockedAll(LockedAll(locks, session, types), session, types) == locks
  {}

  class ImportExecutionCoordinator {
    const db: ImportDatabase
    var session: Option<Session>
    var runID: RunId
    var lockKeys: seq<Entity>
    var entities: set<Entity>

    constructor (db: ImportDatabase)
      ensures this.db == db && Idle()
    {
      this.db := db;
      session, runID, lockKeys, entities := None, 0, [], {};
    }

    predicate Idle()
      reads this
    {
      session.None? && runID == 0 && lockKeys == [] && entities == {}
    }

    /** Take the locks one by one; stop at the first that another session holds. */
    method AcquireEntityLocks(types: seq<Entity>) returns (ok: bool)
      requires session.Some? && lockKeys == []
      modifies this`lockKeys, db`locks
      ensures ok <==> forall e :: e in types ==> Available(old(db.locks), session.value, e)
      ensures lockKeys <= types && (ok ==> lockKeys == types)
      ensures forall e :: e in lockKeys ==> Available(old(db.locks), session.value, e)
      ensures db.locks == LockedAll(old(db.locks), session.value, lockKeys)
    {
      ghost var before := db.locks;
      hide LockedAll, Available;
      NothingLocked(before, session.value);
      for i := 0 to |types|
        invariant lockKeys == types[..i]
        invariant forall e :: e in types[..i] ==> Available(before, session.value, e)
        invariant db.locks == LockedAll(before, session.value, types[..i])
      {
        assert types[..i + 1] == types[..i] + [types[i]];
        LockedOne(before, session.value, types[..i], types[i]);
        AvailableMeans(db.locks, session.value, types[i]);
        var acquired := db.TryAdvisoryLock(session.value, types[i]);
        if !acquired {
          assert types[i] in types;
          return false;
        }
        lockKeys := lockKeys + [types[i]];
      }
      assert types[..|types|] == types;
      return true;
    }

    static lemma AvailableMeans(locks: map<Entity, Session>, session: Session, e: Entity)
      ensures Available(locks, session, e) <==> e !in locks || locks[e] == session
    {}

    /** Unlock in reverse order, then forget the run and the session. */
    method Release()
      modifies this, db`locks
      ensures Idle()
      ensures old(session).Some? ==> db.locks == UnlockedAll(old(db.locks), old(session.value), old(lockKeys))
      ensures old(session).None? && old(Idle()) ==> db.locks == old(db.locks)
    {
      if session.None? {
        runID, lockKeys, entities := 0, [], {};
        return;
      }
      var index := |lockKeys|;
      assert lockKeys[|lockKeys|..] == [];
      while index > 0
        invariant 0 <= index <= |lockKeys| && lockKeys == old(lockKeys) && session == old(session) && session.Some?
        invariant db.locks == UnlockedAll(old(db.locks), session.value, lockKeys[index..])
      {
        index := index - 1;
        assert lockKeys[index..] == [lockKeys[index]] + lockKeys[index + 1..];
        db.AdvisoryUnlock(session.value, lockKeys[index]);
      }
      assert lockKeys[0..] == lockKeys;
      session, runID, lockKeys, entities := None, 0, [], {};
    }

    /** One conditional update of catalog states; it reports how many rows it changed. */
    method UpdateCatalog(selected: set<Entity>, eligible: CatalogState -> bool, next: CatalogState -> CatalogState)
        returns (affected: nat)
      modifies db`catalog
      ensures affected == |selected| <==> AllEligible(old(db.catalog), selected, eligible)
      ensures db.catalog == Updated(old(db.catalog), selected, eligible, next)
    {
      ghost var before := db.catalog;
      affected := 0;
      var rest := selected;
      ghost var done: set<Entity> := {};
      assert Updated(before, {}, eligible, next) == before;
      while rest != {}
        invariant rest !! done && rest + done == selected
        invariant affected <= |done| && (affected == |done| <==> AllEligible(before, done, eligible))
        invariant db.catalog == Updated(before, done, eligible, next)
        decreases |rest|
      {
        ghost var some := Pick(rest);
        var e :| e in rest;
        UpdatedOne(before, done, eligible, next, e);
        if e in db.catalog && eligible(db.catalog[e]) {
          db.catalog := db.catalog[e := next(db.catalog[e])];
          affected := affected + 1;
        }
        rest := rest - {e};
        done := done + {e};
      }
      assert done == selected;
    }

    static ghost predicate AllEligible(catalog: map<Entity, CatalogState>, done: set<Entity>, eligible: CatalogState -> bool) {
      forall e :: e in done ==> e in catalog && eligible(catalog[e])
    }

    static function Updated(
        catalog: map<Entity, CatalogState>, done: set<Entity>, eligible: CatalogState -> bool, next: CatalogState -> CatalogState)
      : map<Entity, CatalogState>
    {
      map e | e in catalog :: if e in done && eligible(catalog[e]) then next(catalog[e]) else catalog[e]
    }

    static lemma UpdatedOne(
        catalog: map<Entity, CatalogState>, done: set<Entity>, eligible: CatalogState -> bool, next: CatalogState -> CatalogState,
        e: Entity)
      requires e !in done
      ensures Updated(catalog, done, eligible, next).Keys == catalog.Keys
      ensures e in catalog ==> Updated(catalog, done, eligible, next)[e] == catalog[e]
      ensures Updated(catalog, done + {e}, eligible, next)
              == if e in catalog && eligible(catalog[e]) then Updated(catalog, done, eligible, next)[e := next(catalog[e])]
                 else Updated(catalog, done, eligible, next)
      ensures AllEligible(catalog, done + {e}, eligible)
              <==> AllEligible(catalog, done, eligible) && e in catalog && eligible(catalog[e])
    {}

    method MarkCatalogStatesImporting(run: RunId, selected: set<Entity>) returns (ok: bool)
      modifies db`catalog
      ensures var r := MarkImporting(old(db.Value()), run, selected); ok == r.Ok? && (ok ==> db.Value() == r.value)
    {
      var affected := UpdateCatalog(selected, _ => true, (c: CatalogState) => ImportingState(c, run));
      return affected == |selected|;
    }

    method MarkCatalogStatesReady(run: RunId, selected: set<Entity>) returns (ok: bool)
      modifies db`catalog
      ensures var r := MarkReady(old(db.Value()), run, selected); ok == r.Ok? && (ok ==> db.Value() == r.value)
    {
      var affected := UpdateCatalog(
        selected, (c: CatalogState) => c.activeRun == run || c.activeRun == 0, (c: CatalogState) => ReadyState(run));
      return affected == |selected|;
    }

    method MarkCatalogStatesFailed(run: RunId, selected: set<Entity>, failure: string) returns (ok: bool)
      modifies db`catalog
      ensures var r := MarkFailed(old(db.Value()), run, selected, failure); ok == r.Ok? && (ok ==> db.Value() == r.value)
    {
      var affected := UpdateCatalog(
        selected, (c: CatalogState) => c.activeRun == run, (c: CatalogState) => FailedState(c, failure));
      return affected == |selected|;
    }

    /** Refuse a dump that is older than the checkpoint of its entity. */
    method AssertNotDowngrade(plan: Plan, view: View) returns (ok: bool)
      ensures ok <==> !IsDowngrade(plan, view)
    {
      if plan.allowDowngrade {
        return true;
      }
      for i := 0 to |plan.dumps|
        invariant forall j :: 0 <= j < i ==>
                    var d := plan.dumps[j];
                    !(d.entity in view && view[d.entity].dumpDate.Some? && d.date < view[d.entity].dumpDate.value)
      {
        var d := plan.dumps[i];
        if d.entity in view && view[d.entity].dumpDate.Some? && d.date < view[d.entity].dumpDate.value {
          return false;
        }
      }
      return true;
    }

    // ----- admission -----

    method SkipAdmission(plan: Plan, compat: Compatibility, consolidated: map<Entity, RunDump>, newId: RunId, now: int)
        returns (r: Result<Admission>)
      modifies db
      ensures var x := SkipTx(old(db.Value()), plan, compat, consolidated, newId, now);
              r.Ok? == x.Ok? && (r.Ok? ==> (db.Value(), r.value) == x.value)
    {
      hide MarkReady, RecordConsolidated;
      var run := compat.exactRun;
      if run == 0 {
        run := newId;
        var complete := db.ConsolidateSuccessfulRun(plan, consolidated, newId, now);
        if !complete {
          return Err("consolidated dumps");
        }
      }
      var ok := MarkCatalogStatesReady(run, Selected(plan));
      r := if ok then Ok(Skipped(run)) else Err("catalog state transition");
    }

    /** Insert the run, then its dumps one by one. */
    method InsertImportRun(plan: Plan, newId: RunId, resumedFrom: RunId)
      requires DistinctEntities(plan.dumps) && forall d :: d in plan.dumps ==> d.entity in plan.revisions
      modifies db`runs, db`dumps
      ensures db.Value() == InsertRun(old(db.Value()), newId, plan, resumedFrom)
    {
      ghost var before := db.dumps;
      db.runs := db.runs[newId := Run(plan.manifest, Running, 0, plan.force, resumedFrom, |db.history|)];
      SomeSelected(plan, 0);
      assert before + NewSummaries(plan, newId, {}) == before;
      hide NewSummaries, DistinctEntities;
      for i := 0 to |plan.dumps|
        invariant EntitiesBefore(plan, i) <= Selected(plan)
        invariant db.runs == old(db.runs)[newId := Run(plan.manifest, Running, 0, plan.force, resumedFrom, |db.history|)]
        invariant db.dumps == before + NewSummaries(plan, newId, EntitiesBefore(plan, i))
      {
        var d := plan.dumps[i];
        SomeSelected(plan, i + 1);
        OneSummary(before, plan, newId, i);
        db.dumps := db.dumps[DumpKey(newId, d.entity) := RunDump(d.dumpId, plan.chunkSize, plan.revisions[d.entity], 0, None, None, None, false)];
      }
      AllSelected(plan);
    }

    static ghost function EntitiesBefore(plan: Plan, i: nat): set<Entity>
      requires i <= |plan.dumps|
    {
      set j | 0 <= j < i :: plan.dumps[j].entity
    }

    static lemma SomeSelected(plan: Plan, i: nat)
      requires i <= |plan.dumps|
      ensures EntitiesBefore(plan, i) <= Selected(plan)
      ensures i == 0 ==> EntitiesBefore(plan, i) == {}
      ensures i > 0 ==> EntitiesBefore(plan, i) == EntitiesBefore(plan, i - 1) + {plan.dumps[i - 1].entity}
    {
      forall j | 0 <= j < i
        ensures plan.dumps[j].entity in Selected(plan)
      {
        assert plan.dumps[j] in plan.dumps;
      }
    }

    static lemma AllSelected(plan: Plan)
      ensures EntitiesBefore(plan, |plan.dumps|) == Selected(plan)
    {
      SomeSelected(plan, |plan.dumps|);
      forall e | e in Selected(plan)
        ensures e in EntitiesBefore(plan, |plan.dumps|)
      {
        var d :| d in plan.dumps && d.entity == e;
        var j :| 0 <= j < |plan.dumps| && plan.dumps[j] == d;
      }
    }

    static lemma OneSummary(dumps: map<DumpKey, RunDump>, plan: Plan, newId: RunId, i: nat)
      requires DistinctEntities(plan.dumps) && forall d :: d in plan.dumps ==> d.entity in plan.revisions
      requires i < |plan.dumps|
      ensures EntitiesBefore(plan, i) <= Selected(plan) && EntitiesBefore(plan, i + 1) <= Selected(plan)
      ensures var d := plan.dumps[i];
              dumps + NewSummaries(plan, newId, EntitiesBefore(plan, i + 1))
              == (dumps + NewSummaries(plan, newId, EntitiesBefore(plan, i)))[
                   DumpKey(newId, d.entity) := RunDump(d.dumpId, plan.chunkSize, plan.revisions[d.entity], 0, None, None, None, false)]
    {
      SomeSelected(plan, i);
      SomeSelected(plan, i + 1);
      TheDump(plan, i);
      hide EntitiesBefore, DistinctEntities, Selected, NewSummaries;
      SummaryAdded(plan, newId, EntitiesBefore(plan, i), plan.dumps[i].entity);
      UpdateLast(dumps, NewSummaries(plan, newId, EntitiesBefore(plan, i)),
        DumpKey(newId, plan.dumps[i].entity), NewSummary(plan, plan.dumps[i].entity));
    }

    static lemma UpdateLast(dumps: map<DumpKey, RunDump>, added: map<DumpKey, RunDump>, k: DumpKey, summary: RunDump)
      ensures dumps + added[k := summary] == (dumps + added)[k := summary]
    {}

    static lemma SummaryAdded(plan: Plan, newId: RunId, entities: set<Entity>, e: Entity)
      requires forall x :: x in entities + {e} ==> x in Selected(plan) && x in plan.revisions
      ensures NewSummaries(plan, newId, entities + {e})
              == NewSummaries(plan, newId, entities)[DumpKey(newId, e) := NewSummary(plan, e)]
    {
      hide NewSummary, Selected;
      var fewer, more := NewSummaries(plan, newId, entities), NewSummaries(plan, newId, entities + {e});
      assert more.Keys == fewer.Keys + {DumpKey(newId, e)};
    }

    static lemma TheDump(plan: Plan, i: nat)
      requires DistinctEntities(plan.dumps) && i < |plan.dumps|
      ensures plan.dumps[i] in plan.dumps && DumpFor(plan.dumps, plan.dumps[i].entity) == plan.dumps[i]
    {
      var d := DumpFor(plan.dumps, plan.dumps[i].entity);
      var j :| 0 <= j < |plan.dumps| && plan.dumps[j] == d;
    }

    /** A new identifier: neither a run nor a ledger row has it. */
    predicate Unused(newId: RunId)
      reads this, db
    {
      newId !in db.runs && forall k :: k in db.chunks ==> k.run != newId
    }

    /** Insert a running run, let it take over a resumable one, and mark its entities importing. */
    method StartAdmission(plan: Plan, view: View, newId: RunId, bootstrapOk: bool) returns (r: Result<Admission>)
      requires PlanError(plan).None? && (forall run :: run in db.runs ==> 0 < run) && Unused(newId)
      modifies db
      ensures var x := StartTx(old(db.Value()), plan, view, newId, bootstrapOk);
              r.Ok? == x.Ok? && (r.Ok? ==> (db.Value(), r.value) == x.value)
    {
      PlanFits(plan);
      hide InsertRun, Database.CopyResumeProgress, MarkImporting, PlanError, Selected, DistinctEntities;
      var source := 0;
      if !plan.force {
        source := db.FindResumableRun(plan, view);
      }
      InsertImportRun(plan, newId, source);
      if source != 0 {
        var copied := db.CopyResumeProgress(source, newId, |plan.dumps|);
        if !copied {
          return Err("copied summaries");
        }
      }
      var ok := MarkCatalogStatesImporting(newId, Selected(plan));
      if !ok {
        return Err("catalog state transition");
      }
      if !bootstrapOk {
        return Err("prepare bootstrap");
      }
      r := Ok(Started(newId, source));
    }

    static lemma PlanFits(plan: Plan)
      requires PlanError(plan).None?
      ensures DistinctEntities(plan.dumps) && forall d :: d in plan.dumps ==> d.entity in plan.revisions
    {}

    /** The admission transaction; a failure rolls everything back. */
    method Admit(
        plan: Plan, view: View, compat: Compatibility, consolidated: map<Entity, RunDump>, newId: RunId, now: int,
        bootstrapOk: bool)
        returns (r: Result<Admission>)
      requires PlanError(plan).None? && (forall run :: run in db.runs ==> 0 < run) && Unused(newId)
      modifies db
      ensures var x := AdmitTx(old(db.Value()), plan, view, compat, consolidated, newId, now, bootstrapOk);
              r.Ok? == x.Ok? && if r.Ok? then (db.Value(), r.value) == x.value else db.Value() == old(db.Value())
      ensures r.Ok? ==> (r.value.Skipped? <==> !plan.force && compat.selected == |plan.dumps| == compat.compatible)
      ensures !plan.force && compat.selected == |plan.dumps| && 0 < compat.compatible < compat.selected ==> r.Err?
      ensures !UpToDate(plan, view) ==> r.Err?
      ensures r.Ok? && plan.force ==> r.value == Started(newId, 0) && BlankRun(old(db.Value()), newId, plan, db.Value())
    {
      AdmissionIsDecided(db.Value(), plan, view, compat, consolidated, newId, now, bootstrapOk);
      if plan.force {
        ForceStartsBlank(db.Value(), plan, view, compat, consolidated, newId, now, bootstrapOk);
      }
      hide PlanError, Selected, IsDowngrade, SkipTx, StartTx, Abandoned, UpToDate, BlankRun;
      var begun := db.Value();
      db.MarkAbandonedRuns(Selected(plan), now);
      var current := AssertNotDowngrade(plan, view);
      if !current {
        r := Err("dump predates checkpoint");
      } else if !plan.force && compat.selected == |plan.dumps| && 0 < compat.compatible < compat.selected {
        r := Err("import plan is partially satisfied");
      } else if !plan.force && compat.selected == |plan.dumps| && compat.compatible == compat.selected {
        r := SkipAdmission(plan, compat, consolidated, newId, now);
      } else {
        r := StartAdmission(plan, view, newId, bootstrapOk);
      }
      if r.Err? {
        db.Restore(begun);
      }
    }

    /** `Prepare`: check the plan, take its locks on a new session, admit it; only a started run keeps the locks. */
    method Prepare(
        newSession: Session, plan: Plan, view: View, compat: Compatibility, consolidated: map<Entity, RunDump>, newId: RunId,
        now: int, bootstrapOk: bool)
        returns (r: Result<Admission>)
      requires session.None? ==> Idle()
      requires (forall run :: run in db.runs ==> 0 < run) && Unused(newId)
      requires forall e :: e in db.locks ==> db.locks[e] != newSession
      modifies this, db
      ensures old(session).Some? ==> r.Err?
      ensures r.Err? ==> db.Value() == old(db.Value()) && (old(session).None? ==> Idle())
      ensures r.Ok? ==>
                var types := OrderedTypes(LockTypes(Selected(plan)));
                var locked := old(db.Value()).(locks := LockedAll(old(db.locks), newSession, types));
                && PlanError(plan).None?
                && (forall e :: e in types ==> e !in old(db.locks))
                && var x := AdmitTx(locked, plan, view, compat, consolidated, newId, now, bootstrapOk);
                   && x.Ok? && r.value == x.value.1
                   && (r.value.Started? ==>
                         && db.Value() == x.value.0 && session == Some(newSession) && runID == r.value.run
                         && entities == Selected(plan) && lockKeys == types)
                   && (r.value.Skipped? ==>
                         Idle() && db.Value() == x.value.0.(locks := UnlockedAll(x.value.0.locks, newSession, types)))
      ensures r.Ok? ==> (r.value.Skipped? <==> !plan.force && compat.selected == |plan.dumps| == compat.compatible)
      ensures !plan.force && compat.selected == |plan.dumps| && 0 < compat.compatible < compat.selected ==> r.Err?
      ensures !UpToDate(plan, view) ==> r.Err?
      ensures r.Ok? && plan.force ==> r.value == Started(newId, 0) && BlankRun(old(db.Value()), newId, plan, db.Value())
      ensures !WellPosed(plan) ==> r.Err?
    {
      WellPosedMeans(plan);
      hide WellPosed, PlanError, Selected, LockTypes, OrderedTypes, AdmitTx, LockedAll, UnlockedAll, UpToDate, Planned, Blank;
      if session.Some? {
        return Err("import execution has already been prepared");
      }
      if PlanError(plan).Some? {
        return Err(PlanError(plan).value);
      }
      session := Some(newSession);
      ghost var before := db.locks;
      var types := OrderedTypes(LockTypes(Selected(plan)));
      var acquired := AcquireEntityLocks(types);
      Undone(before, newSession, lockKeys);
      if !acquired {
        Release();
        return Err("another import is already updating an entity");
      }
      r := Admit(plan, view, compat, consolidated, newId, now, bootstrapOk);
      if r.Err? {
        Release();
        return;
      }
      if r.value.Skipped? {
        Release();
        return;
      }
      runID, entities := r.value.run, Selected(plan);
    }

    static lemma Undone(locks: map<Entity, Session>, session: Session, types: seq<Entity>)
      requires forall e :: e in locks ==> locks[e] != session
      requires forall e :: e in types ==> Available(locks, session, e)
      ensures UnlockedAll(LockedAll(locks, session, types), session, types) == locks
    {
      LockingUndone(locks, session, types);
    }

    /** `Complete`: close the run as its outcome demands; the locks are released whatever happens. */
    method Complete(runErr: Option<string>, view: View, now: int, bootstrapOk: bool) returns (r: Result<bool>)
      requires session.None? ==> Idle()
      modifies this, db
      ensures old(session).None? || old(runID) == 0 ==> r == Ok(true) && db.Value() == old(db.Value())
      ensures old(session).Some? && old(runID) != 0 ==>
                var x := CompleteTx(old(db.Value()), old(runID), old(entities), runErr, view, now, bootstrapOk);
                && Idle() && r.Ok? == x.Ok? && (r.Ok? ==> r.value == x.value.1)
                && var closed := if x.Ok? then x.value.0 else old(db.Value());
                   db.Value() == closed.(locks := UnlockedAll(closed.locks, old(session.value), old(lockKeys)))
      ensures old(session).Some? && old(runID) != 0 ==>
                && (r.Ok? <==> CanClose(old(db.Value()), old(runID), old(entities), runErr, bootstrapOk))
                && (r.Ok? ==> Closes(old(db.Value()), old(runID), old(entities), runErr, view, now,
                                db.Value().(locks := old(db.locks)), r.value))
    {
      if session.None? || runID == 0 {
        return Ok(true);
      }
      CompletionDecides(db.Value(), runID, entities, runErr, view, now, bootstrapOk);
      CompletionKeepsLocks(db.Value(), runID, entities, runErr, view, now, bootstrapOk);
      hide UnlockedAll, CompleteTx, Closes, CanClose;
      var begun := db.Value();
      r := CompleteTransaction(runErr, view, now, bootstrapOk);
      if r.Err? {
        db.Restore(begun);
      }
      Release();
    }

    static lemma CompletionKeepsLocks(
        db: Db, run: RunId, entities: set<Entity>, runErr: Option<string>, view: View, now: int, bootstrapOk: bool)
      ensures var x := CompleteTx(db, run, entities, runErr, view, now, bootstrapOk); x.Ok? ==> x.value.0.locks == db.locks
    {
      CompletionDecides(db, run, entities, runErr, view, now, bootstrapOk);
      hide CompleteTx, AllFinished, LedgersLeft, Ready, FailedFor;
    }

    /** The completion transaction, statement by statement; after an error the caller rolls back. */
    method CompleteTransaction(runErr: Option<string>, view: View, now: int, bootstrapOk: bool) returns (r: Result<bool>)
      modifies db
      ensures var x := CompleteTx(old(db.Value()), runID, entities, runErr, view, now, bootstrapOk);
              r.Ok? == x.Ok? && (r.Ok? ==> (db.Value(), r.value) == x.value)
    {
      hide MarkReady, MarkFailed, PruneChunks, HasIncompleteDump;
      var reason := runErr;
      if reason.None? && HasIncompleteDump(db.Value(), runID) {
        reason := Some("incomplete entities");
      }
      if runID !in db.runs || db.runs[runID].status != Running {
        return Err("import run was not running");
      }
      if reason.Some? {
        db.runs := db.runs[runID := db.runs[runID].(status := Failed, completedAt := now)];
        var ok := MarkCatalogStatesFailed(runID, entities, reason.value);
        return if ok then Ok(false) else Err("catalog state transition");
      }
      db.runs := db.runs[runID := db.runs[runID].(status := Success, completedAt := now)];
      if !bootstrapOk {
        return Err("finalize bootstrap");
      }
      ghost var closed := db.Value();
      var ok := MarkCatalogStatesReady(runID, entities);
      if !ok {
        return Err("catalog state transition");
      }
      PruneSuperseded(closed, view);
      return Ok(true);
    }

    /** Drop the ledgers of superseded failed runs, then that of the completed run. */
    method PruneSuperseded(ghost closed: Db, view: View)
      requires closed.runs == db.runs && closed.dumps == db.dumps && closed.chunks == db.chunks
      modifies db`chunks
      ensures db.chunks == PruneChunks(closed, runID, view)
      ensures forall k :: k in db.chunks ==> k in old(db.chunks) && db.chunks[k] == old(db.chunks)[k]
      ensures forall k :: k in old(db.chunks) ==> (k in db.chunks <==> k.run != runID && !SpentBy(closed, k.run, view))
    {
      forall r
        ensures ProgressSuperseded(db.runs, db.dumps, r, view) <==> SpentBy(closed, r, view)
      {
        SupersededIff(db.runs, db.dumps, r, view);
      }
      hide ProgressSuperseded, SpentBy;
      db.chunks := map k | k in db.chunks && !ProgressSuperseded(db.runs, db.dumps, k.run, view) :: db.chunks[k];
      db.chunks := map k | k in db.chunks && k.run != runID :: db.chunks[k];
    }
  }
}
