/**
 * A reachable history in which a resumed run does not converge: a run of another manifest
 * fails between a crash and the resumption, and leaves its rows behind.
 */
module Divergence {
  import opened Options
  import opened Coverage
  import opened Reconciliation
  import opened Database
  import opened History
  import opened Invariant
  import opened Protocol
  import opened Safety
  import opened Convergence
  import opened Scenarios

  // ----- one source of two masters, and a foreign batch for the first of them -----

  const FIRST := Batch([1], map[1 := 1], [Row(1, IntegerKey(0), Some(7))])
  const SECOND := Batch([2], map[2 := 1], [Row(2, IntegerKey(0), Some(8))])
  const FOREIGN := Batch([1], map[1 := 2], [])
  const SOURCE: seq<Batch> := [FIRST, SECOND]

  function PlanFor(manifest: string, dumpId: int): Plan {
    Plan(manifest, [Dump(Master, dumpId, 0)], 1, false, false, map[Master := 1])
  }

  function Attempt(manifest: string, status: Status, resumedFrom: RunId, admittedAt: nat): Run {
    Run(manifest, status, 0, false, resumedFrom, admittedAt)
  }

  function Summary(dumpId: int, items: int): RunDump {
    RunDump(dumpId, 1, 1, items, None, None, None, false)
  }

  const RUNS_1 := map[1 := Attempt("a", Running, 0, 0)]
  const DUMPS_1 := map[DumpKey(1, Master) := Summary(10, 1)]
  const CHUNKS_1 := map[ChunkKey(1, Master, 0) := ChunkRange(0, 1)]
  const HISTORY_1 := [CommitBy(1, Master, 0, FIRST)]

  const FAILED_1 := map[1 := Attempt("a", Failed, 0, 0)]
  const RUNS_2 := map[1 := Attempt("a", Failed, 0, 0), 2 := Attempt("b", Running, 0, 1)]
  const DUMPS_2 := map[DumpKey(1, Master) := Summary(10, 1), DumpKey(2, Master) := Summary(20, 1)]
  const CHUNKS_2 := map[ChunkKey(1, Master, 0) := ChunkRange(0, 1), ChunkKey(2, Master, 0) := ChunkRange(0, 1)]
  const HISTORY_2 := HISTORY_1 + [CommitBy(2, Master, 0, FOREIGN)]

  const FAILED_2 := map[1 := Attempt("a", Failed, 0, 0), 2 := Attempt("b", Failed, 0, 1)]
  const RUNS_3 := FAILED_2[3 := Attempt("a", Running, 1, 2)]
  const TAKEN_3 := DUMPS_2[DumpKey(3, Master) := Summary(10, 1)]
  const DUMPS_3 := DUMPS_2[DumpKey(3, Master) := Summary(10, 2)]
  const MOVED_3 := map[ChunkKey(3, Master, 0) := ChunkRange(0, 1), ChunkKey(2, Master, 0) := ChunkRange(0, 1)]
  const CHUNKS_3 := MOVED_3[ChunkKey(3, Master, 1) := ChunkRange(1, 1)]
  const HISTORY_3 := HISTORY_2 + [CommitBy(3, Master, 1, SECOND)]

  lemma MasterLock()
    ensures LockTypes({Master}) == {Artist, Master}
  {
    assert Artist in RequiredLocks(Master) && Master in RequiredLocks(Master);
  }

  lemma Planned(manifest: string, dumpId: int)
    ensures var plan := PlanFor(manifest, dumpId);
            && MasterPlan(plan) && Selected(plan) == {Master} && plan.manifest == manifest
            && |plan.dumps| == 1 && plan.chunkSize == 1 && plan.revisions == map[Master := 1] && !plan.force
            && forall d :: d in plan.dumps ==> d.entity in plan.revisions
  {
    var plan := PlanFor(manifest, dumpId);
    assert Selected(plan) == {Master} by {
      assert plan.dumps[0].entity == Master && plan.dumps[0] in plan.dumps;
    }
    MasterLock();
  }

  lemma ItsSummary(manifest: string, dumpId: int)
    ensures var plan := PlanFor(manifest, dumpId);
            Master in Selected(plan) && Master in plan.revisions && NewSummary(plan, Master) == Summary(dumpId, 0)
  {
    var plan := PlanFor(manifest, dumpId);
    assert plan.dumps[0].entity == Master && plan.dumps[0] in plan.dumps;
  }

  lemma OneSummary(plan: Plan, run: RunId, summary: RunDump)
    requires Master in Selected(plan) && Master in plan.revisions && NewSummary(plan, Master) == summary
    ensures NewSummaries(plan, run, {Master}) == map[DumpKey(run, Master) := summary]
  {
    hide Selected, NewSummary;
    assert (set e | e in {Master} :: DumpKey(run, e)) == {DumpKey(run, Master)};
  }

  lemma Inserted(db: Db, manifest: string, dumpId: int, run: RunId, source: RunId)
    ensures forall d :: d in PlanFor(manifest, dumpId).dumps ==> d.entity in PlanFor(manifest, dumpId).revisions
    ensures InsertRun(db, run, PlanFor(manifest, dumpId), source)
            == db.(runs := db.runs[run := Attempt(manifest, Running, source, |db.history|)],
                   dumps := db.dumps[DumpKey(run, Master) := Summary(dumpId, 0)])
  {
    Planned(manifest, dumpId);
    ItsSummary(manifest, dumpId);
    hide NewSummaries, NewSummary, Selected, MasterPlan, PlanError, LockTypes, Summary;
    OneSummary(PlanFor(manifest, dumpId), run, Summary(dumpId, 0));
    assert db.dumps + map[DumpKey(run, Master) := Summary(dumpId, 0)] == db.dumps[DumpKey(run, Master) := Summary(dumpId, 0)];
  }

  lemma WellFormed()
    ensures WellFormedBatch(FIRST) && WellFormedBatch(SECOND) && WellFormedBatch(FOREIGN)
  {
    assert RootSet([1]) == {1} && RootSet([2]) == {2};
  }

  /** An attempt that resumes nothing: its admission inserts the run and an empty summary. */
  lemma PrepareFresh(
      db: Db, manifest: string, dumpId: int, run: RunId, recovered: Db, runs: map<RunId, Run>,
      dumps: map<DumpKey, RunDump>, chunks: map<ChunkKey, ChunkRange>, h: seq<Commit>) returns (inserted: Db)
    requires recovered == MarkAbandonedRuns(db, {Master}, 0) && recovered.locks == db.locks
    requires At(recovered, runs, dumps, chunks, h)
    requires forall r :: r in runs ==> runs[r].manifest != manifest || runs[r].status != Failed
    ensures Prepares(db, PlanFor(manifest, dumpId), run, recovered, 0, inserted) && inserted.locks == db.locks
    ensures At(inserted, runs[run := Attempt(manifest, Running, 0, |h|)], dumps[DumpKey(run, Master) := Summary(dumpId, 0)], chunks, h)
  {
    hide *;
    var plan := PlanFor(manifest, dumpId);
    AtMeans(recovered, runs, dumps, chunks, h);
    Planned(manifest, dumpId);
    NotResumable(recovered, plan);
    Inserted(recovered, manifest, dumpId, run, 0);
    inserted := InsertRun(recovered, run, plan, 0);
    NothingTaken(inserted, run, 1);
    PreparesBy(db, plan, run, recovered, 0, inserted);
    PartsReplaced(recovered, inserted, runs, dumps, chunks, h);
  }

  // ----- the first attempt -----

  lemma FirstRows()
    ensures var dumps := map[][DumpKey(1, Master) := Summary(10, 0)];
            var k := DumpKey(1, Master);
            && k in dumps && dumps[k].chunkSize == 1 && dumps[k].completedAt.None?
            && dumps[k := dumps[k].(processedItems := dumps[k].processedItems + 1)] == DUMPS_1
    ensures map[][1 := Attempt("a", Running, 0, 0)] == RUNS_1 && IsRunning(RUNS_1, 1)
    ensures map[][ChunkKey(1, Master, 0) := ChunkRange(0, 1)] == CHUNKS_1
    ensures [] + [CommitBy(1, Master, 0, FIRST)] == HISTORY_1
  {}

  lemma EmptyRecovers(db: Db, entities: set<Entity>)
    requires db.runs == map[]
    ensures db == MarkAbandonedRuns(db, entities, 0)
  {}

  /** Run 1 commits the first chunk of the source, then its process dies. */
  lemma RunOne(s: State) returns (s': State, steps: seq<Step>)
    requires Quiet(s) && At(s.db, map[], map[], map[], [])
    ensures Possible(s, steps) && After(s, steps) == s'
    ensures Quiet(s') && At(s'.db, RUNS_1, DUMPS_1, CHUNKS_1, HISTORY_1)
  {
    hide *;
    var db := s.db.(locks := MasterLocks(1));
    WellFormed();
    FirstRows();
    Ready(s.db, 1, 1, map[], map[], map[], []);
    AtMeans(db, map[], map[], map[], []);
    EmptyRecovers(db, {Master});
    var inserted := PrepareFresh(db, "a", 10, 1, db, map[], map[], map[], []);
    var dumps := map[][DumpKey(1, Master) := Summary(10, 0)];
    var begun, first := Begin(s, 1, PlanFor("a", 10), 1, db, 0, inserted, RUNS_1, dumps, map[], []);
    var written, chunk := WriteChunk(begun, 1, 1, Master, 0, FIRST, RUNS_1, dumps, map[], []);
    s' := Crash(written, 1, RUNS_1, DUMPS_1, CHUNKS_1, HISTORY_1);
    steps := first + [chunk] + [Drop(1)];
    Concatenate(s, first, [chunk]);
    Concatenate(s, first + [chunk], [Drop(1)]);
  }

  // ----- the second attempt -----

  lemma RecoverOne(db: Db)
    requires db.runs == RUNS_1 && db.dumps == DUMPS_1
    ensures MarkAbandonedRuns(db, {Master}, 0) == db.(runs := FAILED_1)
  {
    assert DumpKey(1, Master) in db.dumps;
    Abandon(db, 1, Master, {Master});
    assert db.runs[1 := db.runs[1].(status := Failed, completedAt := 0)] == FAILED_1;
  }

  lemma SecondRows()
    ensures var dumps := DUMPS_1[DumpKey(2, Master) := Summary(20, 0)];
            var k := DumpKey(2, Master);
            && k in dumps && dumps[k].chunkSize == 1 && dumps[k].completedAt.None?
            && dumps[k := dumps[k].(processedItems := dumps[k].processedItems + 1)] == DUMPS_2
    ensures FAILED_1[2 := Attempt("b", Running, 0, 1)] == RUNS_2 && IsRunning(RUNS_2, 2) && |HISTORY_1| == 1
    ensures 2 !in RUNS_1 && ChunkKey(2, Master, 0) !in CHUNKS_1
    ensures CHUNKS_1[ChunkKey(2, Master, 0) := ChunkRange(0, 1)] == CHUNKS_2
    ensures HISTORY_1 + [CommitBy(2, Master, 0, FOREIGN)] == HISTORY_2
    ensures forall r :: r in FAILED_1 ==> FAILED_1[r].manifest != "b"
  {}

  /** Run 2, of another manifest, recovers from the crash of run 1, overwrites its chunk and dies too. */
  lemma RunTwo(s: State) returns (s': State, steps: seq<Step>)
    requires Quiet(s) && At(s.db, RUNS_1, DUMPS_1, CHUNKS_1, HISTORY_1)
    ensures Possible(s, steps) && After(s, steps) == s'
    ensures Quiet(s') && At(s'.db, RUNS_2, DUMPS_2, CHUNKS_2, HISTORY_2)
  {
    hide *;
    var db := s.db.(locks := MasterLocks(2));
    WellFormed();
    SecondRows();
    Ready(s.db, 2, 2, RUNS_1, DUMPS_1, CHUNKS_1, HISTORY_1);
    AtMeans(db, RUNS_1, DUMPS_1, CHUNKS_1, HISTORY_1);
    RecoverOne(db);
    var recovered := db.(runs := FAILED_1);
    PartsReplaced(db, recovered, RUNS_1, DUMPS_1, CHUNKS_1, HISTORY_1);
    var inserted := PrepareFresh(db, "b", 20, 2, recovered, FAILED_1, DUMPS_1, CHUNKS_1, HISTORY_1);
    var dumps := DUMPS_1[DumpKey(2, Master) := Summary(20, 0)];
    var begun, first := Begin(s, 2, PlanFor("b", 20), 2, recovered, 0, inserted, RUNS_2, dumps, CHUNKS_1, HISTORY_1);
    var written, chunk := WriteChunk(begun, 2, 2, Master, 0, FOREIGN, RUNS_2, dumps, CHUNKS_1, HISTORY_1);
    s' := Crash(written, 2, RUNS_2, DUMPS_2, CHUNKS_2, HISTORY_2);
    steps := first + [chunk] + [Drop(2)];
    Concatenate(s, first, [chunk]);
    Concatenate(s, first + [chunk], [Drop(2)]);
  }

  // ----- the third attempt -----

  lemma RecoverTwo(db: Db)
    requires db.runs == RUNS_2 && db.dumps == DUMPS_2
    ensures MarkAbandonedRuns(db, {Master}, 0) == db.(runs := FAILED_2)
  {
    assert DumpKey(2, Master) in db.dumps;
    Abandon(db, 2, Master, {Master});
    assert db.runs[2 := db.runs[2].(status := Failed, completedAt := 0)] == FAILED_2;
  }

  lemma OneResumable(db: Db, plan: Plan)
    requires 1 in db.runs && db.runs[1] == Attempt("a", Failed, 0, 0)
    requires DumpKey(1, Master) in db.dumps && db.dumps[DumpKey(1, Master)] == Summary(10, 1)
    requires EntitiesOf(db.dumps, 1) == {Master}
    requires Items(LedgerOf(db.chunks, 1, Master)) == 1
    requires forall k :: k in db.chunks && k.run == 1 ==> k.index == 0 && db.chunks[k] == ChunkRange(0, 1)
    requires plan.manifest == "a" && |plan.dumps| == 1 && plan.chunkSize == 1 && plan.revisions == map[Master := 1]
    ensures Resumable(db, 1, plan, map[])
  {}

  lemma OneFailed(db: Db)
    requires db.runs == FAILED_2 && db.dumps == DUMPS_2 && db.chunks == CHUNKS_2
    ensures 1 in db.runs && db.runs[1] == Attempt("a", Failed, 0, 0)
    ensures DumpKey(1, Master) in db.dumps && db.dumps[DumpKey(1, Master)] == Summary(10, 1)
    ensures EntitiesOf(db.dumps, 1) == {Master}
    ensures forall k :: k in db.chunks && k.run == 1 ==> k.index == 0 && db.chunks[k] == ChunkRange(0, 1)
    ensures forall r :: r in db.runs && r != 1 ==> db.runs[r].manifest != "a"
  {
    assert DumpKey(1, Master) in db.dumps;
  }

  lemma OneItem(chunks: map<ChunkKey, ChunkRange>)
    requires chunks == CHUNKS_2
    ensures Items(LedgerOf(chunks, 1, Master)) == 1
  {
    OneRow(chunks, 1, Master);
    OneRowCovers();
  }

  lemma ResumesOne(db: Db, plan: Plan)
    requires db.runs == FAILED_2 && db.dumps == DUMPS_2 && db.chunks == CHUNKS_2
    requires plan.manifest == "a" && |plan.dumps| == 1 && plan.chunkSize == 1 && plan.revisions == map[Master := 1] && !plan.force
    ensures SourceOf(db, plan, map[]) == 1
  {
    hide *;
    OneFailed(db);
    OneItem(db.chunks);
    OneResumable(db, plan);
    OnlyResumable(db, plan, 1);
  }

  lemma OnlyCopied(db: Db)
    requires db.dumps == DUMPS_2[DumpKey(3, Master) := Summary(10, 0)]
    ensures (set e | e in EntitiesOf(db.dumps, 3) && CopyMatches(db, 1, 3, e)) == {Master}
    ensures DumpKey(1, Master) in db.dumps
  {
    assert DumpKey(3, Master) in db.dumps;
    assert Master in EntitiesOf(db.dumps, 3);
    assert CopyMatches(db, 1, 3, Master);
  }

  lemma MovedChunk(chunks: map<ChunkKey, ChunkRange>, moved: map<ChunkKey, ChunkRange>)
    requires chunks == CHUNKS_2
    requires moved == (map k | k in chunks && k.run != 1 :: chunks[k])
                    + (map k | k in MovedKeys(chunks, 1, 3) :: chunks[ChunkKey(1, k.entity, k.index)])
    ensures moved == MOVED_3
  {
    assert ChunkKey(1, Master, 0) in chunks && ChunkKey(2, Master, 0) in chunks;
    assert MovedKeys(chunks, 1, 3) == {ChunkKey(3, Master, 0)};
  }

  lemma CopiedSummary(dumps: map<DumpKey, RunDump>, copied: map<DumpKey, RunDump>)
    requires dumps == DUMPS_2[DumpKey(3, Master) := Summary(10, 0)]
    requires DumpKey(1, Master) in dumps && copied == CopiedSummaries(dumps, 1, 3, {Master})
    ensures copied == TAKEN_3
  {
    assert copied[DumpKey(3, Master)] == Summary(10, 1);
  }

  /** The copy of one entity, with its set of copied entities already known. */
  lemma CopyOne(db: Db) returns (db': Db)
    requires (set e | e in EntitiesOf(db.dumps, 3) && CopyMatches(db, 1, 3, e)) == {Master}
    requires DumpKey(1, Master) in db.dumps
    ensures CopyResumeProgress(db, 1, 3, 1) == Ok(db')
    ensures db' == db.(dumps := db'.dumps, chunks := db'.chunks)
    ensures db'.dumps == CopiedSummaries(db.dumps, 1, 3, {Master})
    ensures db'.chunks == (map k | k in db.chunks && k.run != 1 :: db.chunks[k])
                        + (map k | k in MovedKeys(db.chunks, 1, 3) :: db.chunks[ChunkKey(1, k.entity, k.index)])
  {
    db' := CopyResumeProgress(db, 1, 3, 1).value;
  }

  lemma TakeOne(inserted: Db) returns (resumed: Db)
    requires inserted.dumps == DUMPS_2[DumpKey(3, Master) := Summary(10, 0)] && inserted.chunks == CHUNKS_2
    ensures CopyResumeProgress(inserted, 1, 3, 1) == Ok(resumed)
    ensures resumed == inserted.(dumps := TAKEN_3, chunks := MOVED_3)
  {
    hide *;
    OnlyCopied(inserted);
    resumed := CopyOne(inserted);
    CopiedSummary(inserted.dumps, resumed.dumps);
    MovedChunk(inserted.chunks, resumed.chunks);
  }

  lemma ThirdRows()
    ensures var k := DumpKey(3, Master);
            && k in TAKEN_3 && TAKEN_3[k].chunkSize == 1 && TAKEN_3[k].completedAt.None?
            && TAKEN_3[k := TAKEN_3[k].(processedItems := TAKEN_3[k].processedItems + 1)] == DUMPS_3
    ensures FAILED_2[3 := Attempt("a", Running, 1, |HISTORY_2|)] == RUNS_3 && IsRunning(RUNS_3, 3)
    ensures 3 !in RUNS_2 && ChunkKey(3, Master, 1) !in MOVED_3
    ensures MOVED_3[ChunkKey(3, Master, 1) := ChunkRange(1, 1)] == CHUNKS_3
    ensures HISTORY_2 + [CommitBy(3, Master, 1, SECOND)] == HISTORY_3
  {}

  lemma BeforeThree(db: Db) returns (recovered: Db, resumed: Db)
    requires At(db, RUNS_2, DUMPS_2, CHUNKS_2, HISTORY_2) && db.locks == MasterLocks(3)
    ensures Prepares(db, PlanFor("a", 10), 3, recovered, 1, resumed) && resumed.locks == MasterLocks(3)
    ensures At(resumed, RUNS_3, TAKEN_3, MOVED_3, HISTORY_2)
  {
    hide *;
    var plan := PlanFor("a", 10);
    AtMeans(db, RUNS_2, DUMPS_2, CHUNKS_2, HISTORY_2);
    Planned("a", 10);
    ThirdRows();
    RecoverTwo(db);
    recovered := db.(runs := FAILED_2);
    ResumesOne(recovered, plan);
    Inserted(recovered, "a", 10, 3, 1);
    var inserted := InsertRun(recovered, 3, plan, 1);
    resumed := TakeOne(inserted);
    ResumesInto(inserted, 1, 3, 1, resumed);
    PreparesBy(db, plan, 3, recovered, 1, resumed);
    PartsReplaced(db, resumed, RUNS_2, DUMPS_2, CHUNKS_2, HISTORY_2);
  }

  /** Run 3 resumes run 1 and commits only the second chunk of the source. */
  lemma RunThree(s: State) returns (s': State, steps: seq<Step>)
    requires Quiet(s) && At(s.db, RUNS_2, DUMPS_2, CHUNKS_2, HISTORY_2)
    ensures Possible(s, steps) && After(s, steps) == s'
    ensures At(s'.db, RUNS_3, DUMPS_3, CHUNKS_3, HISTORY_3)
  {
    hide *;
    var db := s.db.(locks := MasterLocks(3));
    WellFormed();
    ThirdRows();
    Ready(s.db, 3, 3, RUNS_2, DUMPS_2, CHUNKS_2, HISTORY_2);
    var recovered, resumed := BeforeThree(db);
    var begun, first := Begin(s, 3, PlanFor("a", 10), 3, recovered, 1, resumed, RUNS_3, TAKEN_3, MOVED_3, HISTORY_2);
    var written, chunk := WriteChunk(begun, 3, 3, Master, 1, SECOND, RUNS_3, TAKEN_3, MOVED_3, HISTORY_2);
    s', steps := written, first + [chunk];
    Concatenate(s, first, [chunk]);
  }

  // ----- the outcome -----

  const LAST_ORDER := Order(3, Master, 1, true)

  lemma SourceIsOk()
    ensures SourceOk(SOURCE)
  {
    WellFormed();
    assert RootSet(FIRST.rootIDs) == {1} && RootSet(SECOND.rootIDs) == {2};
  }

  lemma LastTwoCommits(base: Content)
    ensures var c := Replay(base, HISTORY_1, Master);
            Replay(base, HISTORY_3, Master) == WriteBatch(WriteBatch(c, FOREIGN), SECOND)
  {
    hide WriteBatch;
    ReplayAppend(base, HISTORY_1, CommitBy(2, Master, 0, FOREIGN), Master);
    ReplayAppend(base, HISTORY_2, CommitBy(3, Master, 1, SECOND), Master);
  }

  /** The foreign batch removed the row of master 1 and nothing brings it back. */
  lemma RowLost(base: Content)
    ensures RowKey(1, IntegerKey(0)) !in Replay(base, HISTORY_3, Master).relations
  {
    var c := Replay(base, HISTORY_1, Master);
    LastTwoCommits(base);
    WellFormed();
    WriteReplaces(c, FOREIGN);
    WriteReplaces(WriteBatch(c, FOREIGN), SECOND);
    KeyedBelong(SECOND);
    hide Replay, WriteBatch, WellFormedBatch;
    assert RootSet(FOREIGN.rootIDs) == {1} && RootSet(SECOND.rootIDs) == {2};
    assert Keyed(FOREIGN.rows) == map[];
  }

  /** Any sequential pass over the source writes that row. */
  lemma RowKeptByPass(c: Content)
    ensures RowKey(1, IntegerKey(0)) in SequentialPass(c, SOURCE).relations
  {
    SourceIsOk();
    SequentialOverlay(c, SOURCE, 2);
    assert SOURCE[..2] == SOURCE;
    assert 0 in Indexes(2) && RootOf(SOURCE, 0, 1) by {
      assert 1 in RootSet(FIRST.rootIDs);
    }
    assert SameAt(SequentialPass(c, SOURCE).relations, Keyed(SOURCE[0].rows), RowKey(1, IntegerKey(0)));
  }

  lemma LedgerOfThree()
    ensures LedgerOf(CHUNKS_3, 3, Master) == map[0 := ChunkRange(0, 1), 1 := ChunkRange(1, 1)]
  {
    assert ChunkKey(3, Master, 0) in CHUNKS_3 && ChunkKey(3, Master, 1) in CHUNKS_3;
    assert RecordedIndexes(CHUNKS_3, 3, Master) == {0, 1};
  }

  lemma MasterCompletes(db: Db)
    requires db.runs == RUNS_3 && db.dumps == DUMPS_3 && db.chunks == CHUNKS_3
    ensures CompleteEntity(db, LAST_ORDER, 2, |SOURCE|, 0).Ok?
  {
    LedgerOfThree();
    TwoRowsCover();
    assert IsRunning(db.runs, 3) && db.dumps[DumpKey(3, Master)] == Summary(10, 2);
    hide CoverageAccepts, LedgerOf;
  }

  lemma PathOfThree(runs: map<RunId, Run>)
    requires runs == RUNS_3
    ensures Path(runs, 3) == {1, 3}
  {
    assert runs[1].resumedFrom == 0 && Path(runs, 1) == {1};
    assert runs[3].resumedFrom == 1;
  }

  lemma BothAttemptsReadSource(db: Db)
    requires db.runs == RUNS_3 && db.history == HISTORY_3
    ensures ReadsSource(db, LAST_ORDER.run, LAST_ORDER.entity, SOURCE)
    ensures !NoForeignWriter(db, LAST_ORDER.run, LAST_ORDER.entity, 0)
  {
    PathOfThree(db.runs);
    hide Path;
    assert db.history[0] == CommitBy(1, Master, 0, FIRST) && db.history[1] == CommitBy(2, Master, 0, FOREIGN);
    assert db.history[2] == CommitBy(3, Master, 1, SECOND);
  }

  /** The final table lost a row that every pass writes. */
  lemma NoPassAgrees(db: Db, at: nat)
    requires Replayed(db.content, db.base, db.history) && db.history == HISTORY_3 && at <= |db.history|
    ensures EntityContent(db.content, Master).relations != PassFrom(db, Master, at, SOURCE)
  {
    var base := EntityContent(db.base, Master);
    assert EntityContent(db.content, Master) == Replay(base, HISTORY_3, Master);
    hide Replayed, SequentialPass, Replay, HISTORY_3, SOURCE;
    RowLost(base);
    RowKeptByPass(Replay(base, db.history[..at], Master));
  }

  lemma InvReplays(s: State)
    requires Inv(s)
    ensures Replayed(s.db.content, s.db.base, s.db.history)
  {}

  lemma Diverged(s: State)
    requires Inv(s) && At(s.db, RUNS_3, DUMPS_3, CHUNKS_3, HISTORY_3)
    ensures Completes(s, LAST_ORDER, 2, 0, SOURCE) && ReadsSource(s.db, LAST_ORDER.run, LAST_ORDER.entity, SOURCE)
    ensures !NoForeignWriter(s.db, LAST_ORDER.run, LAST_ORDER.entity, 0)
    ensures forall at :: 0 <= at <= |s.db.history| ==>
              EntityContent(s.db.content, LAST_ORDER.entity).relations != PassFrom(s.db, LAST_ORDER.entity, at, SOURCE)
  {
    assert LAST_ORDER.entity == Master;
    hide *;
    AtMeans(s.db, RUNS_3, DUMPS_3, CHUNKS_3, HISTORY_3);
    InvReplays(s);
    MasterCompletes(s.db);
    BothAttemptsReadSource(s.db);
    SourceIsOk();
    CompletesBy(s, LAST_ORDER, 2, 0, SOURCE);
    forall at: nat | at <= |s.db.history|
      ensures EntityContent(s.db.content, Master).relations != PassFrom(s.db, Master, at, SOURCE)
    {
      NoPassAgrees(s.db, at);
    }
  }

  /**
   * The database alone does not guarantee convergence: a run of another manifest that commits
   * between the crash and the resumption, and then fails itself, is not noticed when the first
   * manifest is resumed. The entity completes, and its table is the result of no pass over the
   * source, wherever one lets that pass begin.
   */
  lemma ForeignWriterBreaksConvergence() returns (s: State, steps: seq<Step>, order: Order)
    ensures Init(s) && Possible(s, steps)
    ensures Completes(After(s, steps), order, 2, 0, SOURCE)
    ensures var db := After(s, steps).db;
            && ReadsSource(db, order.run, order.entity, SOURCE)
            && !NoForeignWriter(db, order.run, order.entity, 0)
            && forall at :: 0 <= at <= |db.history| ==>
                 EntityContent(db.content, order.entity).relations != PassFrom(db, order.entity, at, SOURCE)
  {
    var empty := CatalogState("empty", None, 0, 0, None);
    s := State(Db(map[], map[], map[], map[Artist := empty, Master := empty], map[], map[], map[], []), map[]);
    order := LAST_ORDER;
    assert Quiet(s) && At(s.db, map[], map[], map[], []) && Init(s);
    hide *;
    var one, steps1 := RunOne(s);
    var two, steps2 := RunTwo(one);
    var three, steps3 := RunThree(two);
    steps := steps1 + steps2 + steps3;
    Concatenate(s, steps1, steps2);
    Concatenate(s, steps1 + steps2, steps3);
    ReachableStatesAreSafe(s, steps);
    Diverged(three);
  }
}
