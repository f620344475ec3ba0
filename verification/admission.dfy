/** What the admission transaction does to runs, ledgers and history. */
module RunAdmission {
  import opened Coverage
  import opened Database
  import opened History
  import opened Invariant

  /** Identifiers are unique; admissions of disjoint entities may commit them out of order. */
  ghost predicate FreshRun(db: Db, n: RunId) {
    0 < n && n !in db.runs
  }

  /** A run row and its dumps were added; every earlier row is as it was. */
  ghost predicate RunAdded(db: Db, n: RunId, entities: set<Entity>, db': Db) {
    && FreshRun(db, n)
    && db'.runs.Keys == db.runs.Keys + {n} && (forall r :: r in db.runs ==> db'.runs[r] == db.runs[r])
    && db'.runs[n].admittedAt == |db.history| && db'.runs[n].resumedFrom < n
    && (forall k :: k in db'.dumps <==> k in db.dumps || (k.run == n && k.entity in entities))
    && (forall k :: k in db.dumps ==> db'.dumps[k] == db.dumps[k])
    && db'.history == db.history && db'.content == db.content && db'.base == db.base
  }

  /** The new run starts from nothing. */
  ghost predicate StartedEmpty(db: Db, n: RunId, db': Db)
    requires n in db'.runs
  {
    && db'.runs[n].resumedFrom == 0
    && db'.chunks == db.chunks
    && forall k :: k in db'.dumps && k.run == n ==> db'.dumps[k].processedItems == 0
  }

  /** The new run owns the ledger and the counters of the failed run it resumes. */
  ghost predicate TookOver(db: Db, source: RunId, n: RunId, db': Db)
    requires n in db'.runs
  {
    && db'.runs[n].resumedFrom == source
    && (forall k: ChunkKey :: k in db'.chunks <==>
          if k.run == n then ChunkKey(source, k.entity, k.index) in db.chunks else k.run != source && k in db.chunks)
    && (forall k: ChunkKey :: k in db'.chunks ==>
          db'.chunks[k] == db.chunks[if k.run == n then ChunkKey(source, k.entity, k.index) else k])
    && (forall k :: k in db'.dumps && k.run == n ==>
          DumpKey(source, k.entity) in db.dumps
          && db'.dumps[k].processedItems == db.dumps[DumpKey(source, k.entity)].processedItems)
    && (forall k :: k in db.dumps && k.run == source ==> DumpKey(n, k.entity) in db'.dumps)
  }

  /** What the resumable-run query guarantees of the run it returns. */
  ghost predicate Resumed(db: Db, source: RunId) {
    && source in db.runs && db.runs[source].status == Failed
    && forall k :: k in db.dumps && k.run == source ==>
         db.dumps[k].processedItems == Items(LedgerOf(db.chunks, source, k.entity))
  }

  lemma OldPaths(db: Db, n: RunId, entities: set<Entity>, db': Db)
    requires RunsOk(db.runs, |db.history|) && RunAdded(db, n, entities, db')
    ensures forall r :: r in db.runs ==> Path(db'.runs, r) == Path(db.runs, r)
  {
    forall r | r in db.runs
      ensures Path(db'.runs, r) == Path(db.runs, r)
    {
      PathFrame(db.runs, db'.runs, |db.history|, r);
    }
  }

  lemma NewPath(db: Db, n: RunId, entities: set<Entity>, db': Db, e: Entity)
    requires RunsOk(db.runs, |db.history|) && HistoryOk(db.runs, db.dumps, db.history)
    requires RunAdded(db, n, entities, db')
    requires db'.runs[n].resumedFrom == 0 || db'.runs[n].resumedFrom in db.runs
    ensures var source := db'.runs[n].resumedFrom;
            var path, h := if source == 0 then {} else Path(db.runs, source), db.history;
            && Path(db'.runs, n) == path + {n}
            && CommittedItems(h, Path(db'.runs, n), e) == CommittedItems(h, path, e)
            && forall i :: CommitCount(h, Path(db'.runs, n), e, i) == CommitCount(h, path, e, i)
  {
    var source := db'.runs[n].resumedFrom;
    OldPaths(db, n, entities, db');
    IdleRun(db.history, if source == 0 then {} else Path(db.runs, source), n, e);
    if source != 0 {
      assert 0 < source < n;
    } else {
      assert {} + {n} == {n};
    }
  }

  /** No commit on an empty path. */
  lemma {:induction false} EmptyPath(h: seq<Commit>, e: Entity)
    ensures CommittedItems(h, {}, e) == 0
    ensures forall i :: CommitCount(h, {}, e, i) == 0
  {
    if h != [] {
      EmptyPath(h[..|h| - 1], e);
    }
  }

  /** A resumable run has a whole ledger: an emptied one with items left over is never resumable. */
  lemma ResumableIsWhole(db: Db, source: RunId)
    requires DbInv(db) && Resumed(db, source)
    ensures Whole(db.runs, db.dumps, db.chunks, db.history, source)
  {
    assert HistoryOk(db.runs, db.dumps, db.history) && LedgersOk(db.runs, db.dumps, db.chunks, db.history);
    assert Tallied(db.runs, db.dumps, db.history) && RowsOk(db.runs, db.dumps, db.chunks);
    hide DbInv, LedgerOf, Mirrors;
    if Emptied(db.chunks, source) {
      forall k | k in db.dumps && k.run == source
        ensures Mirrors(LedgerOf(db.chunks, source, k.entity), db.history, Path(db.runs, source), k.entity)
      {
        EmptiedIsMirrored(db, source, k);
      }
    }
  }

  /** No rows and no items: nothing was ever committed along the path. */
  lemma EmptiedIsMirrored(db: Db, source: RunId, k: DumpKey)
    requires HistoryOk(db.runs, db.dumps, db.history) && Emptied(db.chunks, source)
    requires k in db.dumps && k.run == source
    requires db.dumps[k].processedItems == Items(LedgerOf(db.chunks, source, k.entity))
    requires db.dumps[k].processedItems == CommittedItems(db.history, Path(db.runs, source), k.entity)
    ensures Mirrors(LedgerOf(db.chunks, source, k.entity), db.history, Path(db.runs, source), k.entity)
  {
    var ledger := LedgerOf(db.chunks, source, k.entity);
    assert ledger == map[];
    assert Items(ledger) == 0;
    assert PositiveChunks(db.history);
    hide HistoryOk, LedgerOf, Path;
    NoItemsNoCommits(db.history, Path(db.runs, source), k.entity);
  }

  /** Rows of the runs that neither gave nor took. */
  lemma OtherLedgers(db: Db, n: RunId, entities: set<Entity>, db': Db, r: RunId)
    requires DbInv(db) && RunAdded(db, n, entities, db') && r in db.runs
    requires Whole(db.runs, db.dumps, db.chunks, db.history, r)
    requires SameRows(db.chunks, db'.chunks, r)
    ensures Whole(db'.runs, db'.dumps, db'.chunks, db'.history, r)
  {
    OldPaths(db, n, entities, db');
    forall k | k in db'.dumps && k.run == r
      ensures LedgerOf(db'.chunks, r, k.entity) == LedgerOf(db.chunks, r, k.entity)
      ensures k in db.dumps
    {
      SameRowsSameLedger(db.chunks, db'.chunks, r, k.entity);
    }
  }

  lemma NothingMirrored(db: Db, n: RunId, entities: set<Entity>, db': Db, e: Entity)
    requires RunsOk(db.runs, |db.history|) && HistoryOk(db.runs, db.dumps, db.history)
    requires RunAdded(db, n, entities, db') && db'.runs[n].resumedFrom == 0
    ensures Mirrors(map[], db.history, Path(db'.runs, n), e)
  {
    NewPath(db, n, entities, db', e);
    EmptyPath(db.history, e);
    assert Path(db'.runs, n) == {n};
  }

  lemma NewLedgerFromNothing(db: Db, n: RunId, entities: set<Entity>, db': Db)
    requires DbInv(db) && RunAdded(db, n, entities, db') && StartedEmpty(db, n, db')
    ensures Whole(db'.runs, db'.dumps, db'.chunks, db'.history, n)
  {
    forall k | k in db'.dumps && k.run == n
      ensures Mirrors(LedgerOf(db'.chunks, n, k.entity), db'.history, Path(db'.runs, n), k.entity)
      ensures Items(LedgerOf(db'.chunks, n, k.entity)) == 0
    {
      assert LedgerOf(db'.chunks, n, k.entity) == map[];
      NothingMirrored(db, n, entities, db', k.entity);
    }
  }

  lemma MovedLedger(db: Db, source: RunId, n: RunId, db': Db, e: Entity)
    requires n in db'.runs && TookOver(db, source, n, db')
    ensures LedgerOf(db'.chunks, n, e) == LedgerOf(db.chunks, source, e)
  {
    forall i
      ensures i in LedgerOf(db'.chunks, n, e) <==> ChunkKey(n, e, i) in db'.chunks
      ensures i in LedgerOf(db.chunks, source, e) <==> ChunkKey(source, e, i) in db.chunks
    {}
  }

  lemma NewMirror(db: Db, source: RunId, n: RunId, entities: set<Entity>, db': Db, e: Entity)
    requires RunsOk(db.runs, |db.history|) && HistoryOk(db.runs, db.dumps, db.history)
    requires RunAdded(db, n, entities, db') && db'.runs[n].resumedFrom == source && source in db.runs && source != 0
    requires Mirrors(LedgerOf(db.chunks, source, e), db.history, Path(db.runs, source), e)
    ensures Mirrors(LedgerOf(db.chunks, source, e), db.history, Path(db'.runs, n), e)
  {
    NewPath(db, n, entities, db', e);
    forall p | 0 <= p < |db.history| && IsChunk(db.history[p], Path(db'.runs, n), e)
      ensures IsChunk(db.history[p], Path(db.runs, source), e)
    {}
  }

  lemma NewLedgerTakenOver(db: Db, source: RunId, n: RunId, entities: set<Entity>, db': Db)
    requires DbInv(db) && RunAdded(db, n, entities, db') && source != 0 && Resumed(db, source)
    requires TookOver(db, source, n, db')
    ensures Whole(db'.runs, db'.dumps, db'.chunks, db'.history, n)
  {
    ResumableIsWhole(db, source);
    forall k | k in db'.dumps && k.run == n
      ensures Mirrors(LedgerOf(db'.chunks, n, k.entity), db'.history, Path(db'.runs, n), k.entity)
      ensures db'.dumps[k].processedItems == Items(LedgerOf(db'.chunks, n, k.entity))
    {
      assert DumpKey(source, k.entity) in db.dumps;
      MovedLedger(db, source, n, db', k.entity);
      NewMirror(db, source, n, entities, db', k.entity);
    }
  }

  lemma AddedKeepsTally(db: Db, source: RunId, n: RunId, entities: set<Entity>, db': Db)
    requires DbInv(db) && RunAdded(db, n, entities, db')
    requires source == 0 || Resumed(db, source)
    requires db'.runs[n].status == Success || if source == 0 then StartedEmpty(db, n, db') else TookOver(db, source, n, db')
    ensures Tallied(db'.runs, db'.dumps, db'.history)
  {
    OldPaths(db, n, entities, db');
    forall k | k in db'.dumps && db'.runs[k.run].status != Success
      ensures db'.dumps[k].processedItems == CommittedItems(db'.history, Path(db'.runs, k.run), k.entity)
    {
      if k.run == n {
        NewPath(db, n, entities, db', k.entity);
        EmptyPath(db.history, k.entity);
      }
    }
  }

  /** Entities without a running run. */
  ghost predicate Idle(db: Db, entities: set<Entity>) {
    forall k :: k in db.dumps && k.entity in entities ==> !IsRunning(db.runs, k.run)
  }

  lemma AddedKeepsRest(db: Db, n: RunId, entities: set<Entity>, db': Db)
    requires DbInv(db) && RunAdded(db, n, entities, db')
    requires db'.runs[n].status == Running ==> Idle(db, entities)
    ensures HistoryOk(db'.runs, db'.dumps, db'.history)
    ensures Exclusive(db'.runs, db'.dumps)
    ensures TailOwned(db'.runs, db'.dumps, db'.history)
    ensures Replayed(db'.content, db'.base, db'.history)
  {
    forall p | 0 <= p < |db.history|
      ensures DumpKey(db.history[p].run, db.history[p].entity) in db'.dumps
    {}
  }

  lemma StartedEmptyKeepsLedgers(db: Db, n: RunId, entities: set<Entity>, db': Db)
    requires DbInv(db) && RunAdded(db, n, entities, db') && StartedEmpty(db, n, db')
    ensures LedgersOk(db'.runs, db'.dumps, db'.chunks, db'.history)
  {
    hide Whole, DbInv, Emptied;
    NewLedgerFromNothing(db, n, entities, db');
    OldLedgers(db, n, entities, db');
  }

  /** A run that keeps its rows keeps its whole or empty ledger. */
  lemma OldLedgers(db: Db, n: RunId, entities: set<Entity>, db': Db)
    requires DbInv(db) && RunAdded(db, n, entities, db') && db'.chunks == db.chunks
    ensures forall r :: r in db.runs && r != n ==>
              && (db.runs[r].status == Running ==> Whole(db'.runs, db'.dumps, db'.chunks, db'.history, r))
              && (db.runs[r].status == Failed ==>
                    Whole(db'.runs, db'.dumps, db'.chunks, db'.history, r) || Emptied(db'.chunks, r))
  {
    InvLedgers(db);
    hide Whole, DbInv, Emptied;
    forall r | r in db.runs && Whole(db.runs, db.dumps, db.chunks, db.history, r)
      ensures Whole(db'.runs, db'.dumps, db'.chunks, db'.history, r)
    {
      OtherLedgers(db, n, entities, db', r);
    }
  }

  lemma AddedKeepsRows(db: Db, n: RunId, entities: set<Entity>, db': Db)
    requires DbInv(db) && RunAdded(db, n, entities, db') && db'.chunks == db.chunks && db'.runs[n].resumedFrom == 0
    ensures RunsOk(db'.runs, |db'.history|) && RowsOk(db'.runs, db'.dumps, db'.chunks)
  {}

  lemma StartedEmptyKeepsInv(db: Db, n: RunId, entities: set<Entity>, db': Db)
    requires DbInv(db) && RunAdded(db, n, entities, db') && StartedEmpty(db, n, db')
    requires db'.runs[n].status == Running && Idle(db, entities)
    ensures DbInv(db')
  {
    hide RunsOk, RowsOk, HistoryOk, Tallied, LedgersOk, Exclusive, TailOwned, Replayed, RunAdded, Idle;
    AddedKeepsRows(db, n, entities, db');
    AddedKeepsTally(db, 0, n, entities, db');
    AddedKeepsRest(db, n, entities, db');
    StartedEmptyKeepsLedgers(db, n, entities, db');
  }

  lemma TookOverKeepsLedgers(db: Db, source: RunId, n: RunId, entities: set<Entity>, db': Db)
    requires DbInv(db) && RunAdded(db, n, entities, db') && source != 0 && Resumed(db, source)
    requires TookOver(db, source, n, db')
    ensures LedgersOk(db'.runs, db'.dumps, db'.chunks, db'.history)
  {
    forall r | r in db'.runs
      ensures LedgerOk(db'.runs, db'.dumps, db'.chunks, db'.history, r)
    {
      TookOverKeepsLedger(db, source, n, entities, db', r);
    }
    hide DbInv, RunAdded, Resumed, TookOver, Whole, Emptied;
  }

  lemma TookOverKeepsLedger(db: Db, source: RunId, n: RunId, entities: set<Entity>, db': Db, r: RunId)
    requires DbInv(db) && RunAdded(db, n, entities, db') && source != 0 && Resumed(db, source)
    requires TookOver(db, source, n, db') && r in db'.runs
    ensures LedgerOk(db'.runs, db'.dumps, db'.chunks, db'.history, r)
  {
    hide DbInv, Whole, TookOver, Emptied, LedgersOk;
    if r == n {
      NewLedgerTakenOver(db, source, n, entities, db');
    } else if r == source {
      SourceEmptied(db, source, n, db');
    } else {
      InvLedger(db, r);
      BystanderKept(db, source, n, entities, db', r);
    }
  }

  lemma InvLedger(db: Db, r: RunId)
    requires DbInv(db) && r in db.runs
    ensures LedgerOk(db.runs, db.dumps, db.chunks, db.history, r)
  {}

  lemma InvLedgers(db: Db)
    requires DbInv(db)
    ensures LedgersOk(db.runs, db.dumps, db.chunks, db.history)
  {}

  lemma SourceEmptied(db: Db, source: RunId, n: RunId, db': Db)
    requires n in db'.runs && n != source && TookOver(db, source, n, db')
    ensures Emptied(db'.chunks, source)
  {}

  /** A run that neither gave nor took keeps its whole or empty ledger. */
  lemma BystanderKept(db: Db, source: RunId, n: RunId, entities: set<Entity>, db': Db, r: RunId)
    requires DbInv(db) && RunAdded(db, n, entities, db') && TookOver(db, source, n, db')
    requires r in db.runs && r != source
    ensures Whole(db.runs, db.dumps, db.chunks, db.history, r) ==> Whole(db'.runs, db'.dumps, db'.chunks, db'.history, r)
    ensures Emptied(db.chunks, r) ==> Emptied(db'.chunks, r)
  {
    hide DbInv, Whole;
    assert SameRows(db.chunks, db'.chunks, r);
    if Whole(db.runs, db.dumps, db.chunks, db.history, r) {
      OtherLedgers(db, n, entities, db', r);
    }
  }

  lemma TookOverKeepsInv(db: Db, source: RunId, n: RunId, entities: set<Entity>, db': Db)
    requires DbInv(db) && RunAdded(db, n, entities, db') && source != 0 && Resumed(db, source)
    requires TookOver(db, source, n, db')
    requires db'.runs[n].status == Running && Idle(db, entities)
    ensures DbInv(db')
  {
    TakenRunsOk(db, source, n, entities, db');
    hide RunsOk, RowsOk, HistoryOk, Tallied, LedgersOk, Exclusive, TailOwned, Replayed, RunAdded, Idle, TookOver, Resumed;
    AddedKeepsTally(db, source, n, entities, db');
    AddedKeepsRest(db, n, entities, db');
    TookOverKeepsLedgers(db, source, n, entities, db');
    TakenRowsOk(db, source, n, entities, db');
  }

  lemma TakenRunsOk(db: Db, source: RunId, n: RunId, entities: set<Entity>, db': Db)
    requires RunsOk(db.runs, |db.history|) && RunAdded(db, n, entities, db')
    requires source != 0 && Resumed(db, source) && TookOver(db, source, n, db')
    ensures RunsOk(db'.runs, |db'.history|)
  {}

  lemma TakenRowsOk(db: Db, source: RunId, n: RunId, entities: set<Entity>, db': Db)
    requires RowsOk(db.runs, db.dumps, db.chunks) && RunAdded(db, n, entities, db') && TookOver(db, source, n, db')
    ensures RowsOk(db'.runs, db'.dumps, db'.chunks)
  {
    forall k | k in db'.chunks
      ensures DumpKey(k.run, k.entity) in db'.dumps && 0 <= k.index && 0 < db'.chunks[k].count
    {
      var old_ := if k.run == n then ChunkKey(source, k.entity, k.index) else k;
      assert old_ in db.chunks;
    }
  }

  /** A consolidated run is recorded as already successful; it has no ledger and no commits. */
  lemma ConsolidatedKeepsInv(db: Db, n: RunId, entities: set<Entity>, db': Db)
    requires DbInv(db) && RunAdded(db, n, entities, db') && db'.chunks == db.chunks
    requires db'.runs[n].status == Success && db'.runs[n].resumedFrom == 0
    ensures DbInv(db')
  {
    hide RunsOk, RowsOk, HistoryOk, Tallied, LedgersOk, Exclusive, TailOwned, Replayed, Idle;
    AddedKeepsRows(db, n, entities, db');
    AddedKeepsTally(db, 0, n, entities, db');
    AddedKeepsRest(db, n, entities, db');
    ConsolidatedLedgers(db, n, entities, db');
  }

  lemma ConsolidatedLedgers(db: Db, n: RunId, entities: set<Entity>, db': Db)
    requires DbInv(db) && RunAdded(db, n, entities, db') && db'.chunks == db.chunks && db'.runs[n].status == Success
    ensures LedgersOk(db'.runs, db'.dumps, db'.chunks, db'.history)
  {
    hide Whole, DbInv, Emptied;
    OldLedgers(db, n, entities, db');
  }
}
