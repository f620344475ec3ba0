/** Which failed run an admission resumes, read off the rows of runs, summaries, chunks and checkpoints. */
module Resumption {
  import opened Coverage
  import opened Database

  /** The filters on the run itself, on its summaries and on its recorded chunks. */
  ghost predicate Compatible(db: Db, run: RunId, plan: Plan) {
    && run in db.runs
    && db.runs[run].status == Failed && db.runs[run].manifest == plan.manifest && !db.runs[run].forceRequested
    && |EntitiesOf(db.dumps, run)| == |plan.dumps|
    && (forall k :: k in db.dumps && k.run == run ==> UnderPlan(db.dumps[k], plan, k.entity) && Counted(db, k))
    && (forall k :: k in db.chunks && k.run == run && DumpKey(run, k.entity) in db.dumps ==> Aligned(db.chunks[k], k.index, plan))
  }

  /** The summary has the revision and the chunk size with which the plan would import its entity. */
  predicate UnderPlan(d: RunDump, plan: Plan, e: Entity) {
    e in plan.revisions && d.revision == plan.revisions[e] && d.chunkSize == plan.chunkSize
  }

  ghost predicate Counted(db: Db, k: DumpKey)
    requires k in db.dumps
  {
    db.dumps[k].processedItems == Items(LedgerOf(db.chunks, k.run, k.entity))
  }

  predicate Aligned(range: ChunkRange, index: int, plan: Plan) {
    range.first == index * plan.chunkSize && range.count <= plan.chunkSize
  }

  /** The checkpoint of `e` applied another dump or another revision than the run. */
  predicate OtherCheckpoint(dumps: map<DumpKey, RunDump>, run: RunId, e: Entity, view: View)
    requires DumpKey(run, e) in dumps
  {
    && e in view && DumpKey(view[e].run, e) in dumps
    && (|| dumps[DumpKey(view[e].run, e)].dumpId != dumps[DumpKey(run, e)].dumpId
        || dumps[DumpKey(view[e].run, e)].revision != dumps[DumpKey(run, e)].revision)
  }

  /** Whatever another dump or revision applied, it applied before the run failed. */
  ghost predicate LastToWrite(db: Db, run: RunId, view: View)
    requires run in db.runs
  {
    forall e :: DumpKey(run, e) in db.dumps && OtherCheckpoint(db.dumps, run, e, view) ==>
      || view[e].appliedAt < db.runs[run].completedAt
      || (view[e].appliedAt == db.runs[run].completedAt && view[e].run <= run)
  }

  lemma ResumableMeans(db: Db, run: RunId, plan: Plan, view: View)
    ensures Resumable(db, run, plan, view) <==> Compatible(db, run, plan) && LastToWrite(db, run, view)
  {
    hide Items, LedgerOf;
    if run in db.runs {
      SummariesMean(db, run, plan);
      CheckpointsMean(db, run, view);
    }
  }

  lemma SummariesMean(db: Db, run: RunId, plan: Plan)
    ensures (forall k :: k in db.dumps && k.run == run ==> UnderPlan(db.dumps[k], plan, k.entity) && Counted(db, k))
            <==> forall e :: e in EntitiesOf(db.dumps, run) ==>
                   && e in plan.revisions && db.dumps[DumpKey(run, e)].revision == plan.revisions[e]
                   && db.dumps[DumpKey(run, e)].chunkSize == plan.chunkSize
                   && db.dumps[DumpKey(run, e)].processedItems == Items(LedgerOf(db.chunks, run, e))
  {
    hide Items, LedgerOf;
  }

  lemma CheckpointsMean(db: Db, run: RunId, view: View)
    requires run in db.runs
    ensures LastToWrite(db, run, view) <==> forall e :: e in EntitiesOf(db.dumps, run) ==> !SupersededBy(db, run, e, view)
  {
    forall e
      ensures e in EntitiesOf(db.dumps, run) <==> DumpKey(run, e) in db.dumps
    {}
  }

  /** `a` failed before `b`, or at the same time with a smaller identifier. */
  predicate FailedBefore(runs: map<RunId, Run>, a: RunId, b: RunId)
    requires a in runs && b in runs
  {
    runs[a].completedAt < runs[b].completedAt || (runs[a].completedAt == runs[b].completedAt && a < b)
  }

  /**
   * The run that is found is compatible with the plan, and whatever another dump or revision applied to its
   * entities, it applied before; every other such run failed earlier. Without such a run nothing is found.
   */
  ghost predicate Finds(db: Db, plan: Plan, view: View, found: RunId) {
    && (found != 0 ==> Compatible(db, found, plan) && LastToWrite(db, found, view))
    && (forall r :: Compatible(db, r, plan) && LastToWrite(db, r, view) && r != found ==>
          found in db.runs && FailedBefore(db.runs, r, found))
  }

  lemma LatestIsFound(db: Db, plan: Plan, view: View)
    requires forall r :: r in db.runs ==> 0 < r
    ensures Finds(db, plan, view, FindResumableRun(db, plan, view))
  {
    hide Resumable, Compatible, LastToWrite;
    forall r
      ensures Resumable(db, r, plan, view) <==> Compatible(db, r, plan) && r in db.runs && LastToWrite(db, r, view)
    {
      CompatibleExists(db, r, plan);
      ResumableMeans(db, r, plan, view);
    }
    var found := FindResumableRun(db, plan, view);
    FoundIsLatest(db, plan, view);
    forall r | Compatible(db, r, plan) && r in db.runs && LastToWrite(db, r, view) && r != found
      ensures found in db.runs && FailedBefore(db.runs, r, found)
    {
      assert Resumable(db, r, plan, view);
    }
    forall r | Compatible(db, r, plan)
      ensures r in db.runs
    {
      CompatibleExists(db, r, plan);
    }
    assert found != 0 ==> Resumable(db, found, plan, view);
  }

  lemma FoundIsLatest(db: Db, plan: Plan, view: View)
    requires forall r :: r in db.runs ==> 0 < r
    ensures var found := FindResumableRun(db, plan, view);
            forall r :: r in db.runs && Resumable(db, r, plan, view) && r != found ==>
              found in db.runs && Later(db, found, r)
  {
    hide Resumable;
    var candidates := set r | r in db.runs && Resumable(db, r, plan, view);
    var found := FindResumableRun(db, plan, view);
    forall r | r in db.runs && Resumable(db, r, plan, view) && r != found
      ensures found in db.runs && Later(db, found, r)
    {
      assert r in candidates;
    }
  }

  lemma CompatibleExists(db: Db, run: RunId, plan: Plan)
    ensures Compatible(db, run, plan) ==> run in db.runs
    ensures Resumable(db, run, plan, map[]) ==> run in db.runs
  {}
}
