/**
 * A reachable history in which a resumed run does not converge although nobody else imports: the
 * artists were complete before the crash, so that the resumed run skips their step, knows no artist
 * and drops the artists of the masters it still has to write.
 */
module SkippedReferences {
  import opened Options
  import opened Coverage
  import opened Reconciliation
  import opened Database
  import opened History
  import opened Effects
  import opened Protocol
  import opened Safety
  import opened Convergence
  import opened References
  import opened Scenarios

  // ----- one artist, and one master that refers to it -----

  const ARTISTS := Batch([1], map[1 := 1], [])
  const MASTERS := Window([5], [SourceRow(Row(5, IntegerKey(1), Some(7)), Some(Reference(Artist, 1)))])
  const SOURCE: seq<Window> := [MASTERS]

  /** What the resumed run writes for the master. */
  const WITHOUT_ARTIST := Batch([5], map[5 := 1], [])

  const PLAN := Plan(
    "m", [Dump(Artist, 10, 0), Dump(Master, 11, 0)], 1, false, false, map[Artist := 1, Master := 1])

  /** The artist identifiers of the dump. */
  ghost function Ids(): Known {
    iset{Reference(Artist, 1)}
  }

  function Attempt(status: Status, resumedFrom: RunId, admittedAt: nat): Run {
    Run("m", status, 0, false, resumedFrom, admittedAt)
  }

  const FRESH_ARTISTS := RunDump(10, 1, 1, 0, None, None, None, false)
  const FRESH_MASTERS := RunDump(11, 1, 1, 0, None, None, None, false)
  const COMPLETE_ARTISTS := RunDump(10, 1, 1, 1, Some(1), Some(1), Some(0), false)

  const RUNS_1 := map[1 := Attempt(Running, 0, 0)]
  const DUMPS_0 := map[DumpKey(1, Artist) := FRESH_ARTISTS, DumpKey(1, Master) := FRESH_MASTERS]
  const DUMPS_1 := map[DumpKey(1, Artist) := COMPLETE_ARTISTS, DumpKey(1, Master) := FRESH_MASTERS]
  const CHUNKS_1 := map[ChunkKey(1, Artist, 0) := ChunkRange(0, 1)]
  const HISTORY_1 := [CommitBy(1, Artist, 0, ARTISTS)]

  const FAILED := map[1 := Attempt(Failed, 0, 0)]
  const RUNS_2 := map[1 := Attempt(Failed, 0, 0), 2 := Attempt(Running, 1, 1)]
  const DUMPS_2 := DUMPS_1[DumpKey(2, Artist) := COMPLETE_ARTISTS.(skipped := true)][DumpKey(2, Master) := FRESH_MASTERS]
  const CHUNKS_2 := map[ChunkKey(2, Artist, 0) := ChunkRange(0, 1)]

  const DUMPS_3 := DUMPS_2[DumpKey(2, Master) := FRESH_MASTERS.(processedItems := 1)]
  const CHUNKS_3 := CHUNKS_2[ChunkKey(2, Master, 0) := ChunkRange(0, 1)]
  const HISTORY_2 := HISTORY_1 + [CommitBy(2, Master, 0, WITHOUT_ARTIST)]

  lemma Planned()
    ensures MasterPlan(PLAN) && Selected(PLAN) == {Artist, Master}
    ensures forall d :: d in PLAN.dumps ==> d.entity in PLAN.revisions
  {
    assert forall d :: d in PLAN.dumps ==> d.entity in PLAN.revisions;
    assert Selected(PLAN) == {Artist, Master} by {
      assert PLAN.dumps[0].entity == Artist && PLAN.dumps[1].entity == Master;
      assert PLAN.dumps[0] in PLAN.dumps && PLAN.dumps[1] in PLAN.dumps;
    }
    assert PlanError(PLAN) == None && !PLAN.force;
    BothLocks();
    hide PlanError, Selected, LockTypes, PLAN;
  }

  lemma BothLocks()
    ensures LockTypes({Artist, Master}) == {Artist, Master}
  {
    assert Artist in RequiredLocks(Artist) && Master in RequiredLocks(Master);
  }

  lemma WellFormed()
    ensures WellFormedBatch(ARTISTS) && WellFormedBatch(WITHOUT_ARTIST) && WindowsOk(SOURCE)
  {
    assert RootSet([1]) == {1} && RootSet([5]) == {5};
  }

  lemma Summaries(run: RunId)
    ensures forall d :: d in PLAN.dumps ==> d.entity in PLAN.revisions
    ensures Selected(PLAN) == {Artist, Master}
    ensures NewSummaries(PLAN, run, {Artist, Master})
            == map[DumpKey(run, Artist) := FRESH_ARTISTS, DumpKey(run, Master) := FRESH_MASTERS]
  {
    hide *;
    Planned();
    EachSummary();
    BothSummaries(PLAN, run, FRESH_ARTISTS, FRESH_MASTERS);
  }

  lemma BothSummaries(plan: Plan, run: RunId, artists: RunDump, masters: RunDump)
    requires Artist in Selected(plan) && Artist in plan.revisions && NewSummary(plan, Artist) == artists
    requires Master in Selected(plan) && Master in plan.revisions && NewSummary(plan, Master) == masters
    ensures NewSummaries(plan, run, {Artist, Master}) == map[DumpKey(run, Artist) := artists, DumpKey(run, Master) := masters]
  {
    hide Selected, NewSummary;
    assert (set e | e in {Artist, Master} :: DumpKey(run, e)) == {DumpKey(run, Artist), DumpKey(run, Master)};
  }

  lemma EachSummary()
    ensures Artist in Selected(PLAN) && Artist in PLAN.revisions && NewSummary(PLAN, Artist) == FRESH_ARTISTS
    ensures Master in Selected(PLAN) && Master in PLAN.revisions && NewSummary(PLAN, Master) == FRESH_MASTERS
  {
    assert PLAN.dumps[0].entity == Artist && PLAN.dumps[1..][0].entity == Master;
    assert PLAN.dumps[0] in PLAN.dumps && PLAN.dumps[1] in PLAN.dumps;
  }

  lemma Inserted(db: Db, run: RunId, source: RunId)
    ensures forall d :: d in PLAN.dumps ==> d.entity in PLAN.revisions
    ensures InsertRun(db, run, PLAN, source)
            == db.(runs := db.runs[run := Attempt(Running, source, |db.history|)],
                   dumps := db.dumps[DumpKey(run, Artist) := FRESH_ARTISTS][DumpKey(run, Master) := FRESH_MASTERS])
  {
    Summaries(run);
    hide NewSummaries, Selected;
    assert db.dumps + map[DumpKey(run, Artist) := FRESH_ARTISTS, DumpKey(run, Master) := FRESH_MASTERS]
           == db.dumps[DumpKey(run, Artist) := FRESH_ARTISTS][DumpKey(run, Master) := FRESH_MASTERS];
  }

  // ----- the first attempt: the artists complete, then the process dies -----

  lemma BeforeFirst(db: Db) returns (inserted: Db)
    requires At(db, map[], map[], map[], []) && db.locks == MasterLocks(1)
    ensures Prepares(db, PLAN, 1, db, 0, inserted) && inserted.locks == MasterLocks(1)
    ensures At(inserted, RUNS_1, DUMPS_0, map[], [])
  {
    hide *;
    AtMeans(db, map[], map[], map[], []);
    Planned();
    NothingBefore(db, PLAN);
    Inserted(db, 1, 0);
    inserted := InsertRun(db, 1, PLAN, 0);
    NothingTaken(inserted, 1, |PLAN.dumps|);
    PreparesBy(db, PLAN, 1, db, 0, inserted);
    PartsReplaced(db, inserted, map[], map[], map[], []);
    FirstRows(inserted.runs, inserted.dumps);
  }

  lemma FirstRows(runs: map<RunId, Run>, dumps: map<DumpKey, RunDump>)
    requires runs == map[][1 := Attempt(Running, 0, 0)]
    requires dumps == map[][DumpKey(1, Artist) := FRESH_ARTISTS][DumpKey(1, Master) := FRESH_MASTERS]
    ensures runs == RUNS_1 && dumps == DUMPS_0
  {}

  lemma ArtistsCovered()
    ensures CoverageAccepts(LedgerOf(CHUNKS_1, 1, Artist), 1, 1, 1)
  {
    OneRow(CHUNKS_1, 1, Artist);
    OneRowCovers();
  }

  lemma ArtistRows()
    ensures var k := DumpKey(1, Artist);
            var written := DUMPS_0[k := DUMPS_0[k].(processedItems := DUMPS_0[k].processedItems + 1)];
            && k in DUMPS_0 && DUMPS_0[k].chunkSize == 1 && DUMPS_0[k].completedAt.None?
            && written[k].chunkSize == 1 && written[k].processedItems == 1
            && written[k := written[k].(totalItems := Some(1), totalChunks := Some(1), completedAt := Some(0))] == DUMPS_1
    ensures map[][ChunkKey(1, Artist, 0) := ChunkRange(0, 1)] == CHUNKS_1
    ensures [] + [CommitBy(1, Artist, 0, ARTISTS)] == HISTORY_1
    ensures IsRunning(RUNS_1, 1)
  {}

  lemma FirstAttempt(s: State) returns (s': State, steps: seq<Step>)
    requires Quiet(s) && At(s.db, map[], map[], map[], [])
    ensures Possible(s, steps) && After(s, steps) == s'
    ensures Quiet(s') && At(s'.db, RUNS_1, DUMPS_1, CHUNKS_1, HISTORY_1)
  {
    hide *;
    var db := s.db.(locks := MasterLocks(1));
    Ready(s.db, 1, 1, map[], map[], map[], []);
    WellFormed();
    ArtistRows();
    ArtistsCovered();
    var inserted := BeforeFirst(db);
    var begun, first := Begin(s, 1, PLAN, 1, db, 0, inserted, RUNS_1, DUMPS_0, map[], []);
    var written, chunk := WriteChunk(begun, 1, 1, Artist, 0, ARTISTS, RUNS_1, DUMPS_0, map[], []);
    var k := DumpKey(1, Artist);
    var finished, finish := FinishEntity(
      written, 1, 1, Artist, RUNS_1, DUMPS_0[k := DUMPS_0[k].(processedItems := DUMPS_0[k].processedItems + 1)], CHUNKS_1, HISTORY_1);
    s' := Crash(finished, 1, RUNS_1, DUMPS_1, CHUNKS_1, HISTORY_1);
    steps := first + [chunk] + [finish] + [Drop(1)];
    Concatenate(s, first, [chunk]);
    Concatenate(s, first + [chunk], [finish]);
    Concatenate(s, first + [chunk] + [finish], [Drop(1)]);
  }

  // ----- the second attempt resumes it, skips the artists, and writes the master -----

  lemma RecoverFirst(db: Db)
    requires db.runs == RUNS_1 && db.dumps == DUMPS_1
    ensures MarkAbandonedRuns(db, {Artist, Master}, 0) == db.(runs := FAILED)
  {
    assert DumpKey(1, Artist) in db.dumps;
    Abandon(db, 1, Artist, {Artist, Master});
    assert db.runs[1 := db.runs[1].(status := Failed, completedAt := 0)] == FAILED;
  }

  lemma FirstEntities(dumps: map<DumpKey, RunDump>)
    requires dumps == DUMPS_1
    ensures EntitiesOf(dumps, 1) == {Artist, Master}
  {
    assert DumpKey(1, Artist) in dumps && DumpKey(1, Master) in dumps;
  }

  lemma FirstItems(chunks: map<ChunkKey, ChunkRange>)
    requires chunks == CHUNKS_1
    ensures Items(LedgerOf(chunks, 1, Artist)) == 1 && Items(LedgerOf(chunks, 1, Master)) == 0
  {
    OneRow(chunks, 1, Artist);
    NoRow(chunks, 1, Master);
    OneRowCovers();
  }

  /** A failed run of the manifest with whole ledgers is resumable. */
  lemma FirstIsResumable(db: Db)
    requires 1 in db.runs && db.runs[1] == Attempt(Failed, 0, 0)
    requires EntitiesOf(db.dumps, 1) == {Artist, Master}
    requires DumpKey(1, Artist) in db.dumps && db.dumps[DumpKey(1, Artist)] == COMPLETE_ARTISTS
    requires DumpKey(1, Master) in db.dumps && db.dumps[DumpKey(1, Master)] == FRESH_MASTERS
    requires Items(LedgerOf(db.chunks, 1, Artist)) == 1 && Items(LedgerOf(db.chunks, 1, Master)) == 0
    requires forall k :: k in db.chunks && k.run == 1 ==> k.index == 0 && db.chunks[k] == ChunkRange(0, 1)
    ensures Resumable(db, 1, PLAN, map[])
  {
    hide EntitiesOf, LedgerOf, Items;
    assert |EntitiesOf(db.dumps, 1)| == |PLAN.dumps|;
    assert forall k :: k in db.chunks && k.run == 1 && DumpKey(1, k.entity) in db.dumps ==> k.entity in EntitiesOf(db.dumps, 1) by {
      EntitiesAreKeys(db.dumps, 1);
    }
  }

  lemma ResumesFirst(db: Db)
    requires db.runs == FAILED && db.dumps == DUMPS_1 && db.chunks == CHUNKS_1
    ensures SourceOf(db, PLAN, map[]) == 1
  {
    hide *;
    FirstEntities(db.dumps);
    FirstItems(db.chunks);
    FirstFailed(db);
    FirstIsResumable(db);
    OnlyResumable(db, PLAN, 1);
  }

  lemma FirstFailed(db: Db)
    requires db.runs == FAILED && db.dumps == DUMPS_1 && db.chunks == CHUNKS_1
    ensures db.runs.Keys == {1} && db.runs[1] == Attempt(Failed, 0, 0) && !PLAN.force
    ensures DumpKey(1, Artist) in db.dumps && db.dumps[DumpKey(1, Artist)] == COMPLETE_ARTISTS
    ensures DumpKey(1, Master) in db.dumps && db.dumps[DumpKey(1, Master)] == FRESH_MASTERS
    ensures forall k :: k in db.chunks && k.run == 1 ==> k.index == 0 && db.chunks[k] == ChunkRange(0, 1)
  {}

  lemma BothCopied(db: Db)
    requires db.dumps == DUMPS_1[DumpKey(2, Artist) := FRESH_ARTISTS][DumpKey(2, Master) := FRESH_MASTERS]
    ensures (set e | e in EntitiesOf(db.dumps, 2) && CopyMatches(db, 1, 2, e)) == {Artist, Master}
    ensures DumpKey(1, Artist) in db.dumps && DumpKey(1, Master) in db.dumps
  {
    assert DumpKey(2, Artist) in db.dumps && DumpKey(2, Master) in db.dumps;
    assert Artist in EntitiesOf(db.dumps, 2) && Master in EntitiesOf(db.dumps, 2);
    assert CopyMatches(db, 1, 2, Artist) && CopyMatches(db, 1, 2, Master);
  }

  /** The copy, with its set of copied entities already known. */
  lemma CopyBoth(db: Db) returns (db': Db)
    requires (set e | e in EntitiesOf(db.dumps, 2) && CopyMatches(db, 1, 2, e)) == {Artist, Master}
    requires DumpKey(1, Artist) in db.dumps && DumpKey(1, Master) in db.dumps
    ensures CopyResumeProgress(db, 1, 2, 2) == Ok(db')
    ensures db' == db.(dumps := db'.dumps, chunks := db'.chunks)
    ensures db'.dumps == CopiedSummaries(db.dumps, 1, 2, {Artist, Master})
    ensures db'.chunks == (map k | k in db.chunks && k.run != 1 :: db.chunks[k])
                        + (map k | k in MovedKeys(db.chunks, 1, 2) :: db.chunks[ChunkKey(1, k.entity, k.index)])
  {
    db' := CopyResumeProgress(db, 1, 2, 2).value;
  }

  lemma CopiedRows(dumps: map<DumpKey, RunDump>, copied: map<DumpKey, RunDump>)
    requires dumps == DUMPS_1[DumpKey(2, Artist) := FRESH_ARTISTS][DumpKey(2, Master) := FRESH_MASTERS]
    requires DumpKey(1, Artist) in dumps && DumpKey(1, Master) in dumps
    requires copied == CopiedSummaries(dumps, 1, 2, {Artist, Master})
    ensures copied == DUMPS_2
  {
    assert copied.Keys == DUMPS_2.Keys;
    assert copied[DumpKey(2, Artist)] == COMPLETE_ARTISTS.(skipped := true) && copied[DumpKey(2, Master)] == FRESH_MASTERS;
  }

  lemma MovedChunk(chunks: map<ChunkKey, ChunkRange>, moved: map<ChunkKey, ChunkRange>)
    requires chunks == CHUNKS_1
    requires moved == (map k | k in chunks && k.run != 1 :: chunks[k])
                    + (map k | k in MovedKeys(chunks, 1, 2) :: chunks[ChunkKey(1, k.entity, k.index)])
    ensures moved == CHUNKS_2
  {
    assert ChunkKey(1, Artist, 0) in chunks;
    assert MovedKeys(chunks, 1, 2) == {ChunkKey(2, Artist, 0)};
  }

  lemma TakeFirst(inserted: Db) returns (resumed: Db)
    requires inserted.dumps == DUMPS_1[DumpKey(2, Artist) := FRESH_ARTISTS][DumpKey(2, Master) := FRESH_MASTERS]
    requires inserted.chunks == CHUNKS_1
    ensures CopyResumeProgress(inserted, 1, 2, 2) == Ok(resumed)
    ensures resumed == inserted.(dumps := DUMPS_2, chunks := CHUNKS_2)
  {
    hide *;
    BothCopied(inserted);
    resumed := CopyBoth(inserted);
    CopiedRows(inserted.dumps, resumed.dumps);
    MovedChunk(inserted.chunks, resumed.chunks);
  }

  lemma SecondRows()
    ensures FAILED[2 := Attempt(Running, 1, |HISTORY_1|)] == RUNS_2 && |PLAN.dumps| == 2
    ensures var k := DumpKey(2, Master);
            && k in DUMPS_2 && DUMPS_2[k].chunkSize == 1 && DUMPS_2[k].completedAt.None?
            && DUMPS_2[k := DUMPS_2[k].(processedItems := DUMPS_2[k].processedItems + 1)] == DUMPS_3
    ensures IsRunning(RUNS_2, 2) && ChunkKey(2, Master, 0) !in CHUNKS_2 && 2 !in RUNS_1
    ensures CHUNKS_2[ChunkKey(2, Master, 0) := ChunkRange(0, 1)] == CHUNKS_3
    ensures HISTORY_1 + [CommitBy(2, Master, 0, WITHOUT_ARTIST)] == HISTORY_2
  {}

  lemma BeforeSecond(db: Db) returns (recovered: Db, resumed: Db)
    requires At(db, RUNS_1, DUMPS_1, CHUNKS_1, HISTORY_1) && db.locks == MasterLocks(2)
    ensures Prepares(db, PLAN, 2, recovered, 1, resumed) && resumed.locks == MasterLocks(2)
    ensures At(resumed, RUNS_2, DUMPS_2, CHUNKS_2, HISTORY_1)
  {
    hide *;
    AtMeans(db, RUNS_1, DUMPS_1, CHUNKS_1, HISTORY_1);
    Planned();
    RecoverFirst(db);
    recovered := db.(runs := FAILED);
    ResumesFirst(recovered);
    Inserted(recovered, 2, 1);
    SecondRows();
    var inserted := InsertRun(recovered, 2, PLAN, 1);
    resumed := TakeFirst(inserted);
    ResumesInto(inserted, 1, 2, 2, resumed);
    PreparesBy(db, PLAN, 2, recovered, 1, resumed);
    PartsReplaced(db, resumed, RUNS_1, DUMPS_1, CHUNKS_1, HISTORY_1);
  }

  lemma SecondAttempt(s: State) returns (s': State, steps: seq<Step>)
    requires Quiet(s) && At(s.db, RUNS_1, DUMPS_1, CHUNKS_1, HISTORY_1)
    ensures Possible(s, steps) && After(s, steps) == s'
    ensures At(s'.db, RUNS_2, DUMPS_3, CHUNKS_3, HISTORY_2)
  {
    hide *;
    var db := s.db.(locks := MasterLocks(2));
    SecondRows();
    Ready(s.db, 2, 2, RUNS_1, DUMPS_1, CHUNKS_1, HISTORY_1);
    WellFormed();
    var recovered, resumed := BeforeSecond(db);
    var begun, first := Begin(s, 2, PLAN, 2, recovered, 1, resumed, RUNS_2, DUMPS_2, CHUNKS_2, HISTORY_1);
    var written, chunk := WriteChunk(begun, 2, 2, Master, 0, WITHOUT_ARTIST, RUNS_2, DUMPS_2, CHUNKS_2, HISTORY_1);
    s', steps := written, first + [chunk];
    Concatenate(s, first, [chunk]);
  }

  // ----- the outcome -----

  const LAST_ORDER := Order(2, Master, 1, true)

  lemma MasterCompletes(db: Db)
    requires db.runs == RUNS_2 && db.dumps == DUMPS_3 && db.chunks == CHUNKS_3
    ensures CompleteEntity(db, LAST_ORDER, 1, |SOURCE|, 0).Ok?
  {
    OneRow(db.chunks, 2, Master);
    OneRowCovers();
    assert IsRunning(db.runs, 2) && db.dumps[DumpKey(2, Master)] == FRESH_MASTERS.(processedItems := 1);
    hide CoverageAccepts, LedgerOf;
  }

  lemma PathOfTwo(runs: map<RunId, Run>)
    requires runs == RUNS_2
    ensures Path(runs, 2) == {1, 2}
  {
    assert Path(runs, 1) == {1} && runs[2].resumedFrom == 1;
  }

  /** Both attempts derived their chunks as the code does, and nobody else wrote. */
  lemma OwnSource(db: Db)
    requires db.runs == RUNS_2 && db.dumps == DUMPS_3 && db.history == HISTORY_2
    ensures OwnChunks(db, 2, Master, Derived(SOURCE, KnownTo(db, 2, Ids())))
    ensures NoForeignWriter(db, 2, Master, 0)
  {
    PathOfTwo(db.runs);
    assert Skips(db, 2, Artist);
    assert Reference(Artist, 1) !in KnownTo(db, 2, Ids());
    assert MASTERS.rows[..0] == [];
    assert Kept(MASTERS.rows, KnownTo(db, 2, Ids())) == [];
    assert SameRelations(WITHOUT_ARTIST, Derived(SOURCE, KnownTo(db, 2, Ids()))[0]);
  }

  /** The master was still to be written when run 2 was admitted, and refers to the artist that run 2 does not know. */
  lemma SkipMatters(db: Db, from: nat)
    requires RunsOk(db.runs, |db.history|) && db.runs == RUNS_2 && db.dumps == DUMPS_3 && db.history == HISTORY_2
    requires from <= |db.history|
    ensures 2 in db.runs && !WillConverge(db, 2, Master, SOURCE, Ids(), from)
  {
    assert db.history[..AdmittedAt(db, 2)] == HISTORY_1;
    assert HISTORY_1[..0] == [];
    assert CommitCount(HISTORY_1, Path(db.runs, 2), Master, 0) == 0;
    assert 0 in Remaining(db, 2, Master, 1);
    assert Skips(db, 2, Artist) && Reference(Artist, 1) in Ids();
    hide InPlace, SameOutside, TableAt, Derived, KnownInFull, RunsOk, Path;
    assert MASTERS.rows[0].reference == Some(Reference(Artist, 1));
    assert !NeedsNothingSkipped(db, 2, Ids(), SOURCE[0]);
  }

  /**
   * An ordinary resumption that diverges: no foreign run, one source, and every chunk derived as the
   * code derives it. The entity completes with a table that no pass by a process that knows the
   * artists produces, wherever one lets that pass begin.
   */
  lemma SkippedStepBreaksConvergence() returns (s: State, steps: seq<Step>, order: Order)
    ensures Init(s) && Possible(s, steps)
    ensures Imports(After(s, steps), order, 1, 0, SOURCE, Ids())
    ensures var db := After(s, steps).db;
            && NoForeignWriter(db, order.run, order.entity, 0)
            && forall from :: 0 <= from <= |db.history| ==>
                 EntityContent(db.content, order.entity).relations
                 != PassFrom(db, order.entity, from, Derived(SOURCE, KnownInFull(db, order.run, Ids())))
  {
    var empty := CatalogState("empty", None, 0, 0, None);
    s := State(Db(map[], map[], map[], map[Artist := empty, Master := empty], map[], map[], map[], []), map[]);
    order := LAST_ORDER;
    assert Quiet(s) && At(s.db, map[], map[], map[], []) && Init(s);
    hide *;
    var crashed, before := FirstAttempt(s);
    var last, after_ := SecondAttempt(crashed);
    steps := before + after_;
    Concatenate(s, before, after_);
    ReachableStatesAreSafe(s, steps);
    Diverged(last);
  }

  lemma Diverged(s: State)
    requires Inv(s) && At(s.db, RUNS_2, DUMPS_3, CHUNKS_3, HISTORY_2)
    ensures Imports(s, LAST_ORDER, 1, 0, SOURCE, Ids())
    ensures NoForeignWriter(s.db, LAST_ORDER.run, LAST_ORDER.entity, 0)
    ensures forall from :: 0 <= from <= |s.db.history| ==>
              EntityContent(s.db.content, LAST_ORDER.entity).relations
              != PassFrom(s.db, LAST_ORDER.entity, from, Derived(SOURCE, KnownInFull(s.db, LAST_ORDER.run, Ids())))
  {
    assert LAST_ORDER.run == 2 && LAST_ORDER.entity == Master && |SOURCE| == 1;
    hide *;
    AtMeans(s.db, RUNS_2, DUMPS_3, CHUNKS_3, HISTORY_2);
    WellFormed();
    MasterCompletes(s.db);
    OwnSource(s.db);
    ImportBy(s, LAST_ORDER, 1, 0, SOURCE, Ids());
    forall from: nat | from <= |s.db.history|
      ensures EntityContent(s.db.content, Master).relations
              != PassFrom(s.db, Master, from, Derived(SOURCE, KnownInFull(s.db, 2, Ids())))
    {
      ImportConvergesIff(s, LAST_ORDER, 1, 0, SOURCE, Ids(), from);
      SkipMatters(s.db, from);
    }
  }
}
