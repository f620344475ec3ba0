/**
 * Over whole histories, what the business tables hold is what was committed last: the row of a root, and the
 * relation rows below it, come from the last commit that wrote them, or from before the history.
 */
module LastWriter {
  import opened Options
  import opened Reconciliation
  import opened Database
  import opened History
  import opened Invariant
  import opened Protocol
  import opened Safety
  import opened ChunkRows
  import opened Resumption
  import opened Decisions
  import opened Completions
  import opened Admissions

  // ----- the commits of a history -----

  /** What a step commits: a written chunk, or root rows. */
  ghost function CommitsOf(s: State, step: Step): seq<Commit> {
    match step
    case Chunk(order, chunk, write) =>
      var r := ExecuteChunk(s.db, order, chunk, write);
      if r.Ok? && r.value.1 == ChunkOutcome.Written && write.Ok? then
        [ChunkCommit(order.run, order.entity, chunk.index, chunk.range, write.value)] else []
    case Roots(order, rows) =>
      if InsertRoots(s.db, order, rows).Ok? && rows.Ok? then [RootCommit(order.run, order.entity, rows.value)] else []
    case _ => []
  }

  ghost function CommitsAlong(s: State, steps: seq<Step>): seq<Commit>
    requires Possible(s, steps)
    decreases |steps|
  {
    if steps == [] then [] else CommitsOf(s, steps[0]) + CommitsAlong(Apply(s, steps[0]), steps[1..])
  }

  lemma StepCommits(s: State, step: Step)
    requires Inv(s) && Enabled(s, step)
    ensures Apply(s, step).db.history == s.db.history + CommitsOf(s, step) && Apply(s, step).db.base == s.db.base
  {
    hide *;
    BaseStays(s, step);
    if step.Admit? {
      AdmissionCommitsNothing(s, step);
      NoCommits(s, step);
    } else if step.Complete? {
      CompletionCommitsNothing(s, step);
      NoCommits(s, step);
    } else if step.Chunk? || step.Roots? || step.Finish? {
      WorkerCommits(s, step);
    } else {
      LocksCommitNothing(s, step);
      NoCommits(s, step);
    }
  }

  lemma BaseStays(s: State, step: Step)
    requires Inv(s) && Enabled(s, step)
    ensures Apply(s, step).db.base == s.db.base
  {
    StepFrameHolds(s, step);
    hide Inv, Enabled, Apply, RunsEvolve, ClosedRunsFrozen, SummariesKept;
  }

  lemma NoCommits(s: State, step: Step)
    requires !step.Chunk? && !step.Roots?
    ensures CommitsOf(s, step) == [] && s.db.history + [] == s.db.history
  {}

  lemma LocksCommitNothing(s: State, step: Step)
    requires Enabled(s, step) && (step.Open? || step.Lock? || step.Release? || step.Drop?)
    ensures Apply(s, step).db.history == s.db.history
  {}

  lemma WorkerCommits(s: State, step: Step)
    requires Enabled(s, step) && (step.Chunk? || step.Roots? || step.Finish?)
    ensures Apply(s, step).db.history == s.db.history + CommitsOf(s, step)
  {
    assert s.db.history + [] == s.db.history;
    match step {
      case Chunk(order, chunk, write) =>
        ChunkCommits(s.db, order, chunk, write);
        hide ExecuteChunk, WellFormedBatch;
      case Finish(order, totalItems, totalChunks, now) =>
        EntityCompletes(s.db, order, totalItems, totalChunks, now);
        hide CompleteEntity;
      case _ =>
    }
  }

  lemma ChunkCommits(db: Db, order: Order, chunk: ChunkMetadata, write: Result<Batch>)
    ensures var r := ExecuteChunk(db, order, chunk, write);
            r.Ok? ==>
              if r.value.1 == ChunkOutcome.Written then
                write.Ok? && r.value.0.history == db.history + [ChunkCommit(order.run, order.entity, chunk.index, chunk.range, write.value)]
              else r.value.0 == db
  {
    hide WriteBatch;
  }

  lemma AdmissionCommitsNothing(s: State, step: Step)
    requires Inv(s) && Enabled(s, step) && step.Admit?
    ensures Apply(s, step).db.history == s.db.history
  {
    var rec, source := RecoveryOf(s, step);
    hide Inv, Enabled, Apply, CanAdmit, StartedRows, Importing, Ready, Consolidates, Selected, ResumesFrom, WorksOn;
    AdmissionStepHolds(s, step, rec, source);
  }

  lemma CompletionCommitsNothing(s: State, step: Step)
    requires Inv(s) && Enabled(s, step) && step.Complete?
    ensures Apply(s, step).db.history == s.db.history
  {
    EnabledCompletion(s, step);
    var c := s.coords[step.session];
    CompletionDecides(s.db, c.runID, c.entities, step.runErr, step.view, step.now, step.bootstrapOk);
    hide Inv, Enabled, Apply, CompleteTx, AllFinished, LedgersLeft, Ready, FailedFor, CanClose;
  }

  lemma Unroll(s: State, steps: seq<Step>)
    requires Possible(s, steps) && steps != []
    ensures Enabled(s, steps[0]) && Possible(Apply(s, steps[0]), steps[1..])
    ensures After(s, steps) == After(Apply(s, steps[0]), steps[1..])
    ensures CommitsAlong(s, steps) == CommitsOf(s, steps[0]) + CommitsAlong(Apply(s, steps[0]), steps[1..])
  {
    hide Enabled, Apply, CommitsOf;
  }

  lemma Nothing(s: State)
    ensures Possible(s, []) && After(s, []) == s && s.db.history + CommitsAlong(s, []) == s.db.history
  {
    assert s.db.history + [] == s.db.history;
  }

  lemma Joined<T>(a: seq<T>, b: seq<T>, c: seq<T>)
    ensures a + b + c == a + (b + c)
  {}

  /** The recorded history is what the steps committed, and the content before it stays on record. */
  lemma {:induction false} HistoriesRecordCommits(s: State, steps: seq<Step>)
    requires Inv(s) && Possible(s, steps)
    ensures After(s, steps).db.history == s.db.history + CommitsAlong(s, steps) && After(s, steps).db.base == s.db.base
    decreases |steps|
  {
    hide *;
    if steps == [] {
      Nothing(s);
    } else {
      Unroll(s, steps);
      StepKeepsInv(s, steps[0]);
      StepCommits(s, steps[0]);
      HistoriesRecordCommits(Apply(s, steps[0]), steps[1..]);
      Joined(s.db.history, CommitsOf(s, steps[0]), CommitsAlong(Apply(s, steps[0]), steps[1..]));
    }
  }

  // ----- the last commit of a root -----

  ghost function RootRows(c: Commit): map<int, int> {
    if c.ChunkCommit? then c.batch.rootRows else c.rootRows
  }

  /** The commit writes the row of root `id`. */
  ghost predicate WritesRoot(c: Commit, e: Entity, id: int) {
    c.entity == e && id in RootRows(c)
  }

  /** The commit writes the relation rows below root `id`. */
  ghost predicate WritesBelow(c: Commit, e: Entity, id: int) {
    c.ChunkCommit? && c.entity == e && id in c.batch.rootIDs
  }

  ghost predicate LastRootWrite(h: seq<Commit>, e: Entity, id: int, p: int) {
    0 <= p < |h| && WritesRoot(h[p], e, id) && forall q :: p < q < |h| ==> !WritesRoot(h[q], e, id)
  }

  ghost predicate NoRootWrite(h: seq<Commit>, e: Entity, id: int) {
    forall p :: 0 <= p < |h| ==> !WritesRoot(h[p], e, id)
  }

  ghost predicate LastWriteBelow(h: seq<Commit>, e: Entity, id: int, p: int) {
    0 <= p < |h| && WritesBelow(h[p], e, id) && forall q :: p < q < |h| ==> !WritesBelow(h[q], e, id)
  }

  ghost predicate NoWriteBelow(h: seq<Commit>, e: Entity, id: int) {
    forall p :: 0 <= p < |h| ==> !WritesBelow(h[p], e, id)
  }

  /** The root has the same row in both, or none in either. */
  ghost predicate SameRoot(roots: map<int, int>, roots': map<int, int>, id: int) {
    (id in roots' <==> id in roots) && (id in roots ==> roots'[id] == roots[id])
  }

  ghost predicate SameBelow(t: Table, t': Table, id: int) {
    forall k: RowKey :: k.root == id ==> (k in t' <==> k in t) && (k in t ==> t'[k] == t[k])
  }

  /** Below the root stand exactly those of the rows that belong there. */
  ghost predicate Below(t: Table, id: int, rows: seq<Row>) {
    && (forall row :: row in rows && row.root == id ==> row.Key() in t && t[row.Key()] == row.identity)
    && (forall k :: k in t && k.root == id ==> exists row :: row in rows && row.Key() == k)
  }

  ghost predicate LastWritesStand(base: Content, h: seq<Commit>, e: Entity, c: Content) {
    && (forall id, p :: LastRootWrite(h, e, id, p) ==> id in c.roots && c.roots[id] == RootRows(h[p])[id])
    && (forall id :: NoRootWrite(h, e, id) ==> SameRoot(base.roots, c.roots, id))
    && (forall id, p :: LastWriteBelow(h, e, id, p) ==> Below(c.relations, id, h[p].batch.rows))
    && (forall id :: NoWriteBelow(h, e, id) ==> SameBelow(base.relations, c.relations, id))
  }

  // ----- one more commit -----

  lemma EffectOnRoots(c: Content, commit: Commit, e: Entity, id: int)
    ensures var c' := Effect(c, commit, e);
            if WritesRoot(commit, e, id) then id in c'.roots && c'.roots[id] == RootRows(commit)[id] else SameRoot(c.roots, c'.roots, id)
  {
    if commit.entity == e && commit.ChunkCommit? {
      BatchUpserts(c, commit.batch);
    }
    hide WriteBatch;
  }

  lemma EffectBelow(c: Content, commit: Commit, e: Entity, id: int)
    requires commit.ChunkCommit? ==> WellFormedBatch(commit.batch)
    ensures var c' := Effect(c, commit, e);
            if WritesBelow(commit, e, id) then Below(c'.relations, id, commit.batch.rows) else SameBelow(c.relations, c'.relations, id)
  {
    if commit.entity == e && commit.ChunkCommit? {
      BatchReplaces(c, commit.batch);
    }
    hide WriteBatch, WellFormedBatch;
  }

  lemma {:induction false} RootOfLastWrite(base: Content, h: seq<Commit>, e: Entity, id: int, p: int)
    requires LastRootWrite(h, e, id, p)
    ensures var c := Replay(base, h, e); id in c.roots && c.roots[id] == RootRows(h[p])[id]
  {
    var n := |h| - 1;
    EffectOnRoots(Replay(base, h[..n], e), h[n], e, id);
    if p < n {
      assert LastRootWrite(h[..n], e, id, p);
      RootOfLastWrite(base, h[..n], e, id, p);
    }
    hide Effect, WritesRoot, RootRows;
  }

  lemma {:induction false} RootOfBase(base: Content, h: seq<Commit>, e: Entity, id: int)
    requires NoRootWrite(h, e, id)
    ensures SameRoot(base.roots, Replay(base, h, e).roots, id)
  {
    if h != [] {
      var n := |h| - 1;
      EffectOnRoots(Replay(base, h[..n], e), h[n], e, id);
      assert NoRootWrite(h[..n], e, id);
      RootOfBase(base, h[..n], e, id);
    }
    hide Effect, WritesRoot, RootRows;
  }

  ghost predicate WellFormed(h: seq<Commit>) {
    forall p :: 0 <= p < |h| && h[p].ChunkCommit? ==> WellFormedBatch(h[p].batch)
  }

  lemma SameBelowComposes(a: Table, b: Table, c: Table, id: int, rows: seq<Row>)
    requires SameBelow(b, c, id)
    ensures SameBelow(a, b, id) ==> SameBelow(a, c, id)
    ensures Below(b, id, rows) ==> Below(c, id, rows)
  {}

  lemma {:induction false} BelowLastWrite(base: Content, h: seq<Commit>, e: Entity, id: int, p: int)
    requires WellFormed(h) && LastWriteBelow(h, e, id, p)
    ensures Below(Replay(base, h, e).relations, id, h[p].batch.rows)
  {
    var n := |h| - 1;
    EffectBelow(Replay(base, h[..n], e), h[n], e, id);
    if p < n {
      assert WellFormed(h[..n]) && LastWriteBelow(h[..n], e, id, p);
      BelowLastWrite(base, h[..n], e, id, p);
      SameBelowComposes(map[], Replay(base, h[..n], e).relations, Replay(base, h, e).relations, id, h[p].batch.rows);
    }
    hide Effect, WritesBelow, Below, SameBelow;
  }

  lemma {:induction false} BelowBase(base: Content, h: seq<Commit>, e: Entity, id: int)
    requires WellFormed(h) && NoWriteBelow(h, e, id)
    ensures SameBelow(base.relations, Replay(base, h, e).relations, id)
  {
    if h != [] {
      var n := |h| - 1;
      EffectBelow(Replay(base, h[..n], e), h[n], e, id);
      assert WellFormed(h[..n]) && NoWriteBelow(h[..n], e, id);
      BelowBase(base, h[..n], e, id);
      SameBelowComposes(base.relations, Replay(base, h[..n], e).relations, Replay(base, h, e).relations, id, []);
      hide Effect, WritesBelow, SameBelow;
    }
  }

  lemma ReplayKeepsLastWrites(base: Content, h: seq<Commit>, e: Entity)
    requires WellFormed(h)
    ensures LastWritesStand(base, h, e, Replay(base, h, e))
  {
    hide Replay, LastRootWrite, NoRootWrite, LastWriteBelow, NoWriteBelow, RootRows, SameRoot, Below, SameBelow, WellFormed;
    forall id, p | LastRootWrite(h, e, id, p)
      ensures var c := Replay(base, h, e); 0 <= p < |h| && id in RootRows(h[p]) && id in c.roots && c.roots[id] == RootRows(h[p])[id]
    {
      LastRootWriteMeans(h, e, id, p);
      RootOfLastWrite(base, h, e, id, p);
    }
    forall id | NoRootWrite(h, e, id)
      ensures SameRoot(base.roots, Replay(base, h, e).roots, id)
    {
      RootOfBase(base, h, e, id);
    }
    forall id, p | LastWriteBelow(h, e, id, p)
      ensures 0 <= p < |h| && h[p].ChunkCommit? && Below(Replay(base, h, e).relations, id, h[p].batch.rows)
    {
      LastWriteBelowMeans(h, e, id, p);
      BelowLastWrite(base, h, e, id, p);
    }
    forall id | NoWriteBelow(h, e, id)
      ensures SameBelow(base.relations, Replay(base, h, e).relations, id)
    {
      BelowBase(base, h, e, id);
    }
  }

  lemma LastRootWriteMeans(h: seq<Commit>, e: Entity, id: int, p: int)
    requires LastRootWrite(h, e, id, p)
    ensures 0 <= p < |h| && id in RootRows(h[p])
  {}

  lemma LastWriteBelowMeans(h: seq<Commit>, e: Entity, id: int, p: int)
    requires LastWriteBelow(h, e, id, p)
    ensures 0 <= p < |h| && h[p].ChunkCommit?
  {}

  // ----- histories -----

  lemma CommittedContent(s: State, e: Entity)
    requires Inv(s)
    ensures WellFormed(s.db.history)
    ensures EntityContent(s.db.content, e) == Replay(EntityContent(s.db.base, e), s.db.history, e)
  {
    hide WellFormedBatch, Replay, EntityContent;
  }

  lemma InitialContent(start: State)
    requires Init(start)
    ensures Inv(start) && start.db.history == [] && start.db.base == start.db.content
  {}

  /**
   * After any history: the row of a root is the one in the last commit that contains it, and the relation rows
   * below a root are those of the last chunk that contains it; what no commit contains is as it was at first.
   */
  lemma HistoriesLastWriteStands(start: State, steps: seq<Step>, e: Entity)
    requires Init(start) && Possible(start, steps)
    ensures LastWritesStand(EntityContent(start.db.content, e), CommitsAlong(start, steps), e,
              EntityContent(After(start, steps).db.content, e))
  {
    InitialContent(start);
    HistoriesRecordCommits(start, steps);
    ReachableStatesAreSafe(start, steps);
    CommittedContent(After(start, steps), e);
    hide *;
    assert [] + CommitsAlong(start, steps) == CommitsAlong(start, steps);
    ReplayKeepsLastWrites(EntityContent(start.db.content, e), CommitsAlong(start, steps), e);
  }
}
