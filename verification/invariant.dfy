/** What every transaction keeps about runs, ledgers and committed history. */
module Invariant {
  import opened Options
  import opened Coverage
  import opened Database
  import opened History

  /** Run dumps belong to runs, and ledger rows to run dumps. */
  ghost predicate RowsOk(runs: map<RunId, Run>, dumps: map<DumpKey, RunDump>, chunks: map<ChunkKey, ChunkRange>) {
    && (forall k :: k in dumps ==> k.run in runs)
    && (forall k :: k in chunks ==>
          DumpKey(k.run, k.entity) in dumps && 0 <= k.index && 0 < chunks[k].count)
  }

  /** Each commit was made by a run of the entity, after that run was admitted. */
  ghost predicate HistoryOk(runs: map<RunId, Run>, dumps: map<DumpKey, RunDump>, h: seq<Commit>) {
    && PositiveChunks(h)
    && forall p :: 0 <= p < |h| ==>
         && h[p].run in runs && runs[h[p].run].admittedAt <= p
         && DumpKey(h[p].run, h[p].entity) in dumps
         && (h[p].ChunkCommit? ==> WellFormedBatch(h[p].batch))
  }

  /** The item counter of a run dump is the number of items committed along the run's path. */
  ghost predicate Tallied(runs: map<RunId, Run>, dumps: map<DumpKey, RunDump>, h: seq<Commit>) {
    forall k :: k in dumps && k.run in runs && runs[k.run].status != Success ==>
      dumps[k].processedItems == CommittedItems(h, Path(runs, k.run), k.entity)
  }

  /** The ledger lists each chunk committed along the path, once, with its range. */
  ghost predicate Mirrors(ledger: Ledger, h: seq<Commit>, path: set<RunId>, e: Entity) {
    && (forall i :: CommitCount(h, path, e, i) == if i in ledger then 1 else 0)
    && (forall p :: 0 <= p < |h| && IsChunk(h[p], path, e) ==>
          h[p].index in ledger && ledger[h[p].index] == h[p].range)
  }

  /** Counter, ledger and history agree for every entity of the run. */
  ghost predicate Whole(
      runs: map<RunId, Run>, dumps: map<DumpKey, RunDump>, chunks: map<ChunkKey, ChunkRange>, h: seq<Commit>, run: RunId)
  {
    forall k :: k in dumps && k.run == run ==>
      && dumps[k].processedItems == Items(LedgerOf(chunks, run, k.entity))
      && Mirrors(LedgerOf(chunks, run, k.entity), h, Path(runs, run), k.entity)
  }

  ghost predicate Emptied(chunks: map<ChunkKey, ChunkRange>, run: RunId) {
    forall k :: k in chunks ==> k.run != run
  }

  /** A running run's ledger is whole; a failed run has kept or lost all of it. */
  ghost predicate LedgerOk(
      runs: map<RunId, Run>, dumps: map<DumpKey, RunDump>, chunks: map<ChunkKey, ChunkRange>, h: seq<Commit>, r: RunId)
    requires r in runs
  {
    && (runs[r].status == Running ==> Whole(runs, dumps, chunks, h, r))
    && (runs[r].status == Failed ==> Whole(runs, dumps, chunks, h, r) || Emptied(chunks, r))
  }

  ghost predicate LedgersOk(
      runs: map<RunId, Run>, dumps: map<DumpKey, RunDump>, chunks: map<ChunkKey, ChunkRange>, h: seq<Commit>)
  {
    forall r :: r in runs ==> LedgerOk(runs, dumps, chunks, h, r)
  }

  /** At most one running run per entity. */
  ghost predicate Exclusive(runs: map<RunId, Run>, dumps: map<DumpKey, RunDump>) {
    forall a, b, e :: IsRunning(runs, a) && IsRunning(runs, b) && DumpKey(a, e) in dumps && DumpKey(b, e) in dumps
      ==> a == b
  }

  /** Since a running run was admitted, nobody else has committed to its entities. */
  ghost predicate TailOwned(runs: map<RunId, Run>, dumps: map<DumpKey, RunDump>, h: seq<Commit>) {
    forall r, p :: IsRunning(runs, r) && runs[r].admittedAt <= p < |h| && DumpKey(r, h[p].entity) in dumps
      ==> h[p].run == r
  }

  ghost predicate Replayed(content: map<Entity, Content>, base: map<Entity, Content>, h: seq<Commit>) {
    forall e :: EntityContent(content, e) == Replay(EntityContent(base, e), h, e)
  }

  ghost predicate DbInv(db: Db) {
    && RunsOk(db.runs, |db.history|)
    && RowsOk(db.runs, db.dumps, db.chunks)
    && HistoryOk(db.runs, db.dumps, db.history)
    && Tallied(db.runs, db.dumps, db.history)
    && LedgersOk(db.runs, db.dumps, db.chunks, db.history)
    && Exclusive(db.runs, db.dumps)
    && TailOwned(db.runs, db.dumps, db.history)
    && Replayed(db.content, db.base, db.history)
  }

  // ----- a recorded chunk -----

  /** What a written chunk changes besides the business tables. */
  ghost predicate ChunkRecorded(db: Db, c: Commit, db': Db) {
    && c.ChunkCommit?
    && IsRunning(db.runs, c.run)
    && var dump, key := DumpKey(c.run, c.entity), ChunkKey(c.run, c.entity, c.index);
       && dump in db.dumps && db.dumps[dump].completedAt.None? && key !in db.chunks
       && db'.runs == db.runs && db'.base == db.base && db'.history == db.history + [c]
       && db'.chunks == db.chunks[key := c.range]
       && db'.dumps == db.dumps[dump := db.dumps[dump].(processedItems := db.dumps[dump].processedItems + c.range.count)]
  }

  ghost predicate ContentFollows(db: Db, c: Commit, db': Db) {
    forall e :: EntityContent(db'.content, e) == Effect(EntityContent(db.content, e), c, e)
  }

  function CommitOf(order: Order, chunk: ChunkMetadata, batch: Batch): Commit {
    ChunkCommit(order.run, order.entity, chunk.index, chunk.range, batch)
  }

  lemma WrittenEffects(db: Db, order: Order, chunk: ChunkMetadata, batch: Batch, db': Db)
    requires ExecuteChunk(db, order, chunk, Ok(batch)) == Ok((db', Written))
    ensures ChunkRecorded(db, CommitOf(order, chunk, batch), db')
    ensures ContentFollows(db, CommitOf(order, chunk, batch), db')
    ensures db'.catalog == db.catalog && db'.locks == db.locks
  {
    hide WriteBatch;
  }

  /** A running run is on nobody else's path. */
  lemma RunningIsAlone(db: Db, r: RunId, other: RunId)
    requires RunsOk(db.runs, |db.history|) && IsRunning(db.runs, r) && other in db.runs
    ensures r in Path(db.runs, other) <==> r == other
  {
    PathMembers(db.runs, |db.history|, other);
  }

  lemma LedgerGrows(chunks: map<ChunkKey, ChunkRange>, key: ChunkKey, range: ChunkRange, run: RunId, e: Entity)
    requires key !in chunks
    ensures LedgerOf(chunks[key := range], run, e)
            == if key.run == run && key.entity == e then LedgerOf(chunks, run, e)[key.index := range]
               else LedgerOf(chunks, run, e)
    ensures key.run == run && key.entity == e ==> key.index !in LedgerOf(chunks, run, e)
  {
    var before, after := LedgerOf(chunks, run, e), LedgerOf(chunks[key := range], run, e);
    forall i
      ensures i in before <==> ChunkKey(run, e, i) in chunks
      ensures i in after <==> ChunkKey(run, e, i) in chunks[key := range]
    {}
  }

  lemma MirrorsAppend(ledger: Ledger, h: seq<Commit>, path: set<RunId>, e: Entity, c: Commit)
    requires Mirrors(ledger, h, path, e)
    ensures !IsChunk(c, path, e) ==> Mirrors(ledger, h + [c], path, e)
    ensures IsChunk(c, path, e) && c.index !in ledger ==> Mirrors(ledger[c.index := c.range], h + [c], path, e)
  {
    Append(h, c, path, e);
    forall p | 0 <= p < |h| && IsChunk((h + [c])[p], path, e)
      ensures (h + [c])[p].index in ledger && ledger[(h + [c])[p].index] == (h + [c])[p].range
    {
      assert (h + [c])[p] == h[p];
    }
  }

  lemma RecordedKeepsItems(db: Db, c: Commit, db': Db, k: DumpKey)
    requires ChunkRecorded(db, c, db') && k in db.dumps
    requires db.dumps[k].processedItems == Items(LedgerOf(db.chunks, k.run, k.entity))
    ensures db'.dumps[k].processedItems == Items(LedgerOf(db'.chunks, k.run, k.entity))
  {
    LedgerGrows(db.chunks, ChunkKey(c.run, c.entity, c.index), c.range, k.run, k.entity);
    if k == DumpKey(c.run, c.entity) {
      ItemsInsert(LedgerOf(db.chunks, k.run, k.entity), c.index, c.range);
    }
  }

  lemma RecordedKeepsMirror(db: Db, c: Commit, db': Db, k: DumpKey)
    requires RunsOk(db.runs, |db.history|) && k in db.dumps && k.run in db.runs
    requires ChunkRecorded(db, c, db')
    requires Mirrors(LedgerOf(db.chunks, k.run, k.entity), db.history, Path(db.runs, k.run), k.entity)
    ensures Mirrors(LedgerOf(db'.chunks, k.run, k.entity), db'.history, Path(db'.runs, k.run), k.entity)
  {
    var ledger := LedgerOf(db.chunks, k.run, k.entity);
    LedgerGrows(db.chunks, ChunkKey(c.run, c.entity, c.index), c.range, k.run, k.entity);
    RunningIsAlone(db, c.run, k.run);
    MirrorsAppend(ledger, db.history, Path(db.runs, k.run), k.entity, c);
  }

  lemma RecordedKeepsLedgers(db: Db, c: Commit, db': Db)
    requires DbInv(db) && ChunkRecorded(db, c, db')
    ensures LedgersOk(db'.runs, db'.dumps, db'.chunks, db'.history)
  {
    forall r | r in db'.runs && Whole(db.runs, db.dumps, db.chunks, db.history, r)
      ensures Whole(db'.runs, db'.dumps, db'.chunks, db'.history, r)
    {
      forall k | k in db'.dumps && k.run == r
        ensures db'.dumps[k].processedItems == Items(LedgerOf(db'.chunks, r, k.entity))
        ensures Mirrors(LedgerOf(db'.chunks, r, k.entity), db'.history, Path(db'.runs, r), k.entity)
      {
        RecordedKeepsItems(db, c, db', k);
        RecordedKeepsMirror(db, c, db', k);
      }
    }
  }

  lemma RecordedKeepsTally(db: Db, c: Commit, db': Db)
    requires DbInv(db) && ChunkRecorded(db, c, db')
    ensures Tallied(db'.runs, db'.dumps, db'.history)
  {
    forall k | k in db'.dumps && db'.runs[k.run].status != Success
      ensures db'.dumps[k].processedItems == CommittedItems(db'.history, Path(db'.runs, k.run), k.entity)
    {
      Append(db.history, c, Path(db.runs, k.run), k.entity);
      RunningIsAlone(db, c.run, k.run);
    }
  }

  lemma AppendKeepsReplay(db: Db, c: Commit, db': Db)
    requires Replayed(db.content, db.base, db.history)
    requires ContentFollows(db, c, db')
    ensures Replayed(db'.content, db.base, db.history + [c])
  {
    forall e
      ensures EntityContent(db'.content, e) == Replay(EntityContent(db.base, e), db.history + [c], e)
    {
      ReplayAppend(EntityContent(db.base, e), db.history, c, e);
    }
  }

  lemma AppendKeepsHistory(db: Db, dumps: map<DumpKey, RunDump>, c: Commit)
    requires HistoryOk(db.runs, db.dumps, db.history) && TailOwned(db.runs, db.dumps, db.history)
    requires Exclusive(db.runs, db.dumps) && dumps.Keys == db.dumps.Keys
    requires IsRunning(db.runs, c.run) && DumpKey(c.run, c.entity) in db.dumps
    requires db.runs[c.run].admittedAt <= |db.history|
    requires c.ChunkCommit? ==> 0 < c.range.count && WellFormedBatch(c.batch)
    ensures HistoryOk(db.runs, dumps, db.history + [c]) && TailOwned(db.runs, dumps, db.history + [c])
    ensures Exclusive(db.runs, dumps)
  {}

  lemma RecordedKeepsRows(db: Db, c: Commit, db': Db)
    requires RunsOk(db.runs, |db.history|) && RowsOk(db.runs, db.dumps, db.chunks)
    requires ChunkRecorded(db, c, db') && 0 <= c.index && 0 < c.range.count
    ensures RunsOk(db'.runs, |db'.history|) && RowsOk(db'.runs, db'.dumps, db'.chunks)
    ensures db'.dumps.Keys == db.dumps.Keys && db.runs[c.run].admittedAt <= |db.history|
  {}

  lemma WrittenKeepsInv(db: Db, c: Commit, db': Db)
    requires DbInv(db) && ChunkRecorded(db, c, db') && ContentFollows(db, c, db')
    requires 0 <= c.index && 0 < c.range.count && WellFormedBatch(c.batch)
    ensures DbInv(db')
  {
    RecordedKeepsRows(db, c, db');
    RecordedKeepsTally(db, c, db');
    RecordedKeepsLedgers(db, c, db');
    hide RunsOk, RowsOk, HistoryOk, Tallied, LedgersOk, Exclusive, TailOwned, Replayed, ContentFollows, WellFormedBatch;
    AppendKeepsReplay(db, c, db');
    AppendKeepsHistory(db, db'.dumps, c);
  }

  // ----- root rows, entity completion, closing a run, pruning -----

  /** A commit that is no chunk changes no tally and no mirror. */
  lemma RootCommitKeepsLedgers(db: Db, c: Commit)
    requires Tallied(db.runs, db.dumps, db.history) && LedgersOk(db.runs, db.dumps, db.chunks, db.history)
    requires c.RootCommit?
    ensures Tallied(db.runs, db.dumps, db.history + [c])
    ensures LedgersOk(db.runs, db.dumps, db.chunks, db.history + [c])
  {
    forall path: set<RunId>, e: Entity
      ensures CommittedItems(db.history + [c], path, e) == CommittedItems(db.history, path, e)
    {
      Append(db.history, c, path, e);
    }
    forall r | Whole(db.runs, db.dumps, db.chunks, db.history, r)
      ensures Whole(db.runs, db.dumps, db.chunks, db.history + [c], r)
    {
      forall k | k in db.dumps && k.run == r
        ensures Mirrors(LedgerOf(db.chunks, r, k.entity), db.history + [c], Path(db.runs, r), k.entity)
      {
        MirrorsAppend(LedgerOf(db.chunks, r, k.entity), db.history, Path(db.runs, r), k.entity, c);
      }
    }
  }

  lemma RootsEffects(db: Db, order: Order, rows: map<int, int>, db': Db)
    requires RunsOk(db.runs, |db.history|)
    requires InsertRoots(db, order, Ok(rows)) == Ok(db')
    ensures var c := RootCommit(order.run, order.entity, rows);
            ContentFollows(db, c, db') && db' == db.(content := db'.content, history := db.history + [c])
    ensures IsRunning(db.runs, order.run) && db.runs[order.run].admittedAt <= |db.history|
    ensures RunsOk(db.runs, |db'.history|)
  {}

  lemma RootsKeepInv(db: Db, order: Order, rows: map<int, int>, db': Db)
    requires DbInv(db) && DumpKey(order.run, order.entity) in db.dumps
    requires InsertRoots(db, order, Ok(rows)) == Ok(db')
    ensures DbInv(db')
  {
    hide RunsOk, RowsOk, HistoryOk, Tallied, LedgersOk, Exclusive, TailOwned, Replayed, ContentFollows, InsertRoots;
    var c := RootCommit(order.run, order.entity, rows);
    RootsEffects(db, order, rows, db');
    AppendKeepsReplay(db, c, db');
    AppendKeepsHistory(db, db.dumps, c);
    RootCommitKeepsLedgers(db, c);
  }

  /** The same run dumps with the same counters. */
  ghost predicate SameCounters(dumps: map<DumpKey, RunDump>, dumps': map<DumpKey, RunDump>) {
    dumps'.Keys == dumps.Keys && forall k :: k in dumps ==> dumps'[k].processedItems == dumps[k].processedItems
  }

  lemma CountersKeepInv(db: Db, dumps': map<DumpKey, RunDump>)
    requires DbInv(db) && SameCounters(db.dumps, dumps')
    ensures DbInv(db.(dumps := dumps'))
  {
    forall r | Whole(db.runs, db.dumps, db.chunks, db.history, r)
      ensures Whole(db.runs, dumps', db.chunks, db.history, r)
    {}
  }

  /** Some running runs are closed; no other run changes. */
  ghost predicate Closed(runs: map<RunId, Run>, runs': map<RunId, Run>) {
    && runs'.Keys == runs.Keys
    && forall r :: r in runs ==>
         || runs'[r] == runs[r]
         || (runs[r].status == Running && runs'[r].status != Running
             && runs'[r].resumedFrom == runs[r].resumedFrom && runs'[r].admittedAt == runs[r].admittedAt)
  }

  lemma ClosingKeepsPaths(db: Db, runs': map<RunId, Run>)
    requires RunsOk(db.runs, |db.history|) && Closed(db.runs, runs')
    ensures RunsOk(runs', |db.history|)
    ensures forall r :: r in db.runs ==> Path(runs', r) == Path(db.runs, r)
  {
    forall r | r in db.runs
      ensures Path(runs', r) == Path(db.runs, r)
    {
      PathFrame(db.runs, runs', |db.history|, r);
    }
  }

  lemma ClosingKeepsLedgers(db: Db, runs': map<RunId, Run>)
    requires LedgersOk(db.runs, db.dumps, db.chunks, db.history) && Tallied(db.runs, db.dumps, db.history)
    requires Closed(db.runs, runs') && forall r :: r in db.runs ==> Path(runs', r) == Path(db.runs, r)
    ensures LedgersOk(runs', db.dumps, db.chunks, db.history) && Tallied(runs', db.dumps, db.history)
  {
    hide Mirrors, LedgerOf, Items, CommittedItems, Path;
    forall r | r in db.runs && Whole(db.runs, db.dumps, db.chunks, db.history, r)
      ensures Whole(runs', db.dumps, db.chunks, db.history, r)
    {}
  }

  lemma ClosingKeepsRest(db: Db, runs': map<RunId, Run>)
    requires RowsOk(db.runs, db.dumps, db.chunks) && HistoryOk(db.runs, db.dumps, db.history) && Closed(db.runs, runs')
    requires Exclusive(db.runs, db.dumps) && TailOwned(db.runs, db.dumps, db.history)
    ensures RowsOk(runs', db.dumps, db.chunks) && HistoryOk(runs', db.dumps, db.history)
    ensures Exclusive(runs', db.dumps) && TailOwned(runs', db.dumps, db.history)
  {
    hide WellFormedBatch;
  }

  lemma ClosingKeepsInv(db: Db, runs': map<RunId, Run>)
    requires DbInv(db) && Closed(db.runs, runs')
    ensures DbInv(db.(runs := runs'))
  {
    hide RunsOk, RowsOk, HistoryOk, Tallied, LedgersOk, Exclusive, TailOwned, Replayed, Closed;
    ClosingKeepsPaths(db, runs');
    ClosingKeepsLedgers(db, runs');
    ClosingKeepsRest(db, runs');
  }

  ghost predicate SameRows(chunks: map<ChunkKey, ChunkRange>, chunks': map<ChunkKey, ChunkRange>, r: RunId) {
    forall k: ChunkKey :: k.run == r ==> (k in chunks' <==> k in chunks) && (k in chunks ==> chunks'[k] == chunks[k])
  }

  /** Whole ledgers of runs that are not running were dropped. */
  ghost predicate Pruned(runs: map<RunId, Run>, chunks: map<ChunkKey, ChunkRange>, chunks': map<ChunkKey, ChunkRange>) {
    forall r :: r in runs ==>
      || (Emptied(chunks', r) && runs[r].status != Running)
      || SameRows(chunks, chunks', r)
  }

  lemma SameRowsSameLedger(chunks: map<ChunkKey, ChunkRange>, chunks': map<ChunkKey, ChunkRange>, r: RunId, e: Entity)
    requires SameRows(chunks, chunks', r)
    ensures LedgerOf(chunks', r, e) == LedgerOf(chunks, r, e)
  {
    forall i
      ensures i in LedgerOf(chunks', r, e) <==> ChunkKey(r, e, i) in chunks'
      ensures i in LedgerOf(chunks, r, e) <==> ChunkKey(r, e, i) in chunks
    {}
  }

  lemma PruningKeepsInv(db: Db, chunks': map<ChunkKey, ChunkRange>)
    requires DbInv(db) && Pruned(db.runs, db.chunks, chunks')
    requires forall k :: k in chunks' ==> k in db.chunks && chunks'[k] == db.chunks[k]
    ensures DbInv(db.(chunks := chunks'))
  {
    forall r | r in db.runs && Whole(db.runs, db.dumps, db.chunks, db.history, r)
      ensures Whole(db.runs, db.dumps, chunks', db.history, r) || (Emptied(chunks', r) && db.runs[r].status != Running)
    {
      if !(Emptied(chunks', r) && db.runs[r].status != Running) {
        forall k | k in db.dumps && k.run == r
          ensures LedgerOf(chunks', r, k.entity) == LedgerOf(db.chunks, r, k.entity)
        {
          SameRowsSameLedger(db.chunks, chunks', r, k.entity);
        }
      }
    }
  }
}
