/**
 * Crash and resume convergence: when an entity completes, its relation table is what one
 * sequential pass over the source would have produced.
 */
module Convergence {
  import opened Options
  import opened Coverage
  import opened Reconciliation
  import opened Database
  import opened History
  import opened Invariant
  import opened Protocol
  import opened Safety

  /** The batches of a source, one per chunk; no root occurs in two chunks. */
  ghost predicate SourceOk(batches: seq<Batch>) {
    && (forall i :: 0 <= i < |batches| ==> WellFormedBatch(batches[i]))
    && (forall i, j :: 0 <= i < |batches| && 0 <= j < |batches| && i != j ==>
          RootSet(batches[i].rootIDs) !! RootSet(batches[j].rootIDs))
  }

  /** One uninterrupted pass over the source. */
  ghost function SequentialPass(c: Content, batches: seq<Batch>): Content {
    if batches == [] then c
    else WriteBatch(SequentialPass(c, batches[..|batches| - 1]), batches[|batches| - 1])
  }

  ghost predicate RootOf(batches: seq<Batch>, i: int, root: int) {
    0 <= i < |batches| && root in RootSet(batches[i].rootIDs)
  }

  /** `t'` and `rows` agree on one key. */
  ghost predicate SameAt(t': Table, rows: Table, k: RowKey) {
    (k in t' <==> k in rows) && (k in rows ==> t'[k] == rows[k])
  }

  ghost predicate RootDone(batches: seq<Batch>, done: set<int>, root: int) {
    exists i :: i in done && RootOf(batches, i, root)
  }

  /** `t'` is `t` with the rows of the chunks in `done` replaced by the source's rows. */
  ghost predicate Overlay(t: Table, batches: seq<Batch>, done: set<int>, t': Table) {
    && (forall i, k: RowKey :: i in done && RootOf(batches, i, k.root) ==> SameAt(t', Keyed(batches[i].rows), k))
    && (forall k: RowKey :: !RootDone(batches, done, k.root) ==> SameAt(t', t, k))
  }

  lemma KeyedBelong(batch: Batch)
    requires WellFormedBatch(batch)
    ensures forall k :: k in Keyed(batch.rows) ==> k.root in RootSet(batch.rootIDs)
  {
    KeyedRows(batch.rows, true);
    forall k | k in Keyed(batch.rows)
      ensures k.root in RootSet(batch.rootIDs)
    {
      var i :| 0 <= i < |batch.rows| && batch.rows[i].Key() == k;
      assert batch.rows[i] in batch.rows;
    }
  }

  lemma WriteReplaces(c: Content, batch: Batch)
    requires WellFormedBatch(batch)
    ensures WriteBatch(c, batch).relations == Replace(c.relations, RootSet(batch.rootIDs), Keyed(batch.rows))
  {
    ExistingRootsSuffice(c.relations, RootSet(batch.rootIDs), batch.rows, true);
  }

  /** The same roots with the same relation rows; timestamps and columns of the root rows are not compared. */
  ghost predicate SameRelations(a: Batch, b: Batch) {
    a.rootIDs == b.rootIDs && a.rows == b.rows
  }

  /** Writing chunk `i`, in whatever order, adds it to the overlay. */
  lemma OverlayStep(t: Table, batches: seq<Batch>, done: set<int>, c: Content, i: int, batch: Batch)
    requires SourceOk(batches) && 0 <= i < |batches| && SameRelations(batch, batches[i])
    requires Overlay(t, batches, done, c.relations)
    requires forall j :: j in done ==> 0 <= j < |batches|
    ensures Overlay(t, batches, done + {i}, WriteBatch(c, batch).relations)
  {
    var rows, t' := Keyed(batches[i].rows), WriteBatch(c, batch).relations;
    assert t' == WriteBatch(c, batches[i]).relations;
    WriteReplaces(c, batches[i]);
    KeyedBelong(batches[i]);
    forall j, k: RowKey | j in done + {i} && RootOf(batches, j, k.root)
      ensures SameAt(t', Keyed(batches[j].rows), k)
    {
      if j != i {
        assert SameAt(c.relations, Keyed(batches[j].rows), k);
        assert k.root !in RootSet(batches[i].rootIDs);
      }
    }
    forall k: RowKey | !RootDone(batches, done + {i}, k.root)
      ensures SameAt(t', t, k)
    {
      assert !RootOf(batches, i, k.root);
      assert !RootDone(batches, done, k.root);
    }
  }

  lemma OverlayNothing(t: Table, batches: seq<Batch>)
    ensures Overlay(t, batches, {}, t)
  {}

  /** The sequential pass overlays every chunk. */
  lemma {:induction false} SequentialOverlay(c: Content, batches: seq<Batch>, n: nat)
    requires SourceOk(batches) && n <= |batches|
    ensures Overlay(c.relations, batches, Indexes(n), SequentialPass(c, batches[..n]).relations)
  {
    if n == 0 {
      OverlayNothing(c.relations, batches);
    } else {
      PassStep(c, batches, n);
      hide *;
      SequentialOverlay(c, batches, n - 1);
      OverlayStep(c.relations, batches, Indexes(n - 1), SequentialPass(c, batches[..n - 1]), n - 1, batches[n - 1]);
    }
  }

  lemma PassStep(c: Content, batches: seq<Batch>, n: nat)
    requires 0 < n <= |batches|
    ensures SequentialPass(c, batches[..n]) == WriteBatch(SequentialPass(c, batches[..n - 1]), batches[n - 1])
    ensures Indexes(n) == Indexes(n - 1) + {n - 1} && SameRelations(batches[n - 1], batches[n - 1])
  {
    assert batches[..n][..n - 1] == batches[..n - 1];
  }

  /** The chunks of `e` committed from position `from` on. */
  ghost function Touched(h: seq<Commit>, from: nat, e: Entity): set<int> {
    set p | from <= p < |h| && h[p].ChunkCommit? && h[p].entity == e :: h[p].index
  }

  /** From `from` on, the commits on `e` write the source's batches. */
  ghost predicate WritesSource(h: seq<Commit>, from: nat, e: Entity, batches: seq<Batch>) {
    forall p :: from <= p < |h| && h[p].ChunkCommit? && h[p].entity == e ==>
      0 <= h[p].index < |batches| && SameRelations(h[p].batch, batches[h[p].index])
  }

  lemma TouchedGrows(h: seq<Commit>, from: nat, e: Entity)
    requires from < |h|
    ensures var c := h[|h| - 1];
            Touched(h, from, e) == Touched(h[..|h| - 1], from, e)
                                   + if c.ChunkCommit? && c.entity == e then {c.index} else {}
  {
    var n := |h| - 1;
    forall i | i in Touched(h, from, e) && !(h[n].ChunkCommit? && h[n].entity == e && h[n].index == i)
      ensures i in Touched(h[..n], from, e)
    {
      var p :| from <= p < |h| && h[p].ChunkCommit? && h[p].entity == e && h[p].index == i;
      assert h[..n][p] == h[p];
    }
    forall i | i in Touched(h[..n], from, e)
      ensures i in Touched(h, from, e)
    {
      var p :| from <= p < n && h[..n][p].ChunkCommit? && h[..n][p].entity == e && h[..n][p].index == i;
      assert h[p] == h[..n][p];
    }
  }

  /** Replaying source commits, in any order and with any repetition, overlays the chunks they touch. */
  lemma {:induction false} ReplayOverlay(base: Content, h: seq<Commit>, from: nat, e: Entity, batches: seq<Batch>)
    requires from <= |h| && SourceOk(batches) && WritesSource(h, from, e, batches)
    ensures Overlay(Replay(base, h[..from], e).relations, batches, Touched(h, from, e), Replay(base, h, e).relations)
    decreases |h|
  {
    var start := Replay(base, h[..from], e).relations;
    if from == |h| {
      assert h[..from] == h && Touched(h, from, e) == {};
      OverlayNothing(start, batches);
    } else {
      var n := |h| - 1;
      ReplayStep(base, h, from, e, batches);
      TouchedGrows(h, from, e);
      TouchedInRange(h[..n], from, e, batches);
      hide *;
      ReplayOverlay(base, h[..n], from, e, batches);
      if h[n].ChunkCommit? && h[n].entity == e {
        OverlayStep(start, batches, Touched(h[..n], from, e), Replay(base, h[..n], e), h[n].index, h[n].batch);
      }
    }
  }

  /** The last commit of a history, in terms of what came before. */
  lemma ReplayStep(base: Content, h: seq<Commit>, from: nat, e: Entity, batches: seq<Batch>)
    requires from < |h| && WritesSource(h, from, e, batches)
    ensures var n := |h| - 1;
            && h[..n][..from] == h[..from] && WritesSource(h[..n], from, e, batches)
            && if h[n].ChunkCommit? && h[n].entity == e then
                 && Replay(base, h, e) == WriteBatch(Replay(base, h[..n], e), h[n].batch)
                 && 0 <= h[n].index < |batches| && SameRelations(h[n].batch, batches[h[n].index])
               else Replay(base, h, e).relations == Replay(base, h[..n], e).relations
  {
    var n := |h| - 1;
    assert forall p :: 0 <= p < n ==> h[..n][p] == h[p];
    hide WriteBatch, SameRelations;
  }

  lemma TouchedInRange(h: seq<Commit>, from: nat, e: Entity, batches: seq<Batch>)
    requires WritesSource(h, from, e, batches)
    ensures forall i :: i in Touched(h, from, e) ==> 0 <= i < |batches|
  {
    forall i | i in Touched(h, from, e)
      ensures 0 <= i < |batches|
    {
      var p :| from <= p < |h| && h[p].ChunkCommit? && h[p].entity == e && h[p].index == i;
    }
  }

  /** Below the roots of chunk `i`, `t` holds exactly the source's rows. */
  ghost predicate InPlace(t: Table, batches: seq<Batch>, i: int)
    requires 0 <= i < |batches|
  {
    forall k: RowKey :: k.root in RootSet(batches[i].rootIDs) ==> SameAt(t, Keyed(batches[i].rows), k)
  }

  lemma TablesEqual(a: Table, b: Table)
    requires forall k :: SameAt(a, b, k)
    ensures a == b
  {
    forall k ensures k in a <==> k in b { assert SameAt(a, b, k); }
    forall k | k in a ensures a[k] == b[k] { assert SameAt(a, b, k); }
  }

  /** Chunk `i` has the same relation rows in both lists of batches. */
  ghost predicate AlikeRows(own: seq<Batch>, target: seq<Batch>, i: int)
    requires 0 <= i < |own| == |target|
  {
    Keyed(own[i].rows) == Keyed(target[i].rows)
  }

  ghost predicate SameRoots(own: seq<Batch>, target: seq<Batch>) {
    |own| == |target| && forall i :: 0 <= i < |own| ==> own[i].rootIDs == target[i].rootIDs
  }

  /** Below roots that the source does not have, the two tables agree. */
  ghost predicate SameOutside(ta: Table, tf: Table, target: seq<Batch>) {
    forall k: RowKey :: !RootDone(target, Indexes(|target|), k.root) ==> SameAt(ta, tf, k)
  }

  /**
   * What it takes for `own` batches, written over `ta` for the chunks of `done` only, to leave the
   * table that all `target` batches leave when written over `tf`.
   */
  ghost predicate Agreement(ta: Table, tf: Table, own: seq<Batch>, target: seq<Batch>, done: set<int>)
    requires |own| == |target|
  {
    && (forall i :: 0 <= i < |own| && i in done ==> AlikeRows(own, target, i))
    && (forall i :: 0 <= i < |target| && i !in done ==> InPlace(ta, target, i))
    && SameOutside(ta, tf, target)
  }

  ghost predicate Pair(own: seq<Batch>, target: seq<Batch>, done: set<int>) {
    && SourceOk(own) && SourceOk(target) && SameRoots(own, target)
    && forall i :: i in done ==> 0 <= i < |own|
  }

  lemma SameRootsDone(own: seq<Batch>, target: seq<Batch>, done: set<int>, root: int)
    requires Pair(own, target, done)
    ensures RootDone(own, done, root) ==> RootDone(target, Indexes(|target|), root)
  {
    forall i | i in done && RootOf(own, i, root)
      ensures i in Indexes(|target|) && RootOf(target, i, root)
    {}
  }

  /** A chunk that is not done shares no root with those that are. */
  lemma OtherRootsDone(own: seq<Batch>, done: set<int>, i: int, root: int)
    requires SourceOk(own) && i !in done && RootOf(own, i, root)
    ensures !RootDone(own, done, root)
  {}

  lemma OverlaysAgree(
      ta: Table, tf: Table, own: seq<Batch>, target: seq<Batch>, done: set<int>, a: Table, b: Table)
    requires Pair(own, target, done)
    requires Overlay(ta, own, done, a) && Overlay(tf, target, Indexes(|target|), b)
    ensures a == b <==> Agreement(ta, tf, own, target, done)
  {
    if a == b {
      EqualOverlaysAgree(ta, tf, own, target, done, a);
    }
    if Agreement(ta, tf, own, target, done) {
      forall k: RowKey
        ensures SameAt(a, b, k)
      {
        AgreeAt(ta, tf, own, target, done, a, b, k);
      }
      TablesEqual(a, b);
    }
  }

  lemma EqualOverlaysAgree(ta: Table, tf: Table, own: seq<Batch>, target: seq<Batch>, done: set<int>, a: Table)
    requires Pair(own, target, done)
    requires Overlay(ta, own, done, a) && Overlay(tf, target, Indexes(|target|), a)
    ensures Agreement(ta, tf, own, target, done)
  {
    forall i | 0 <= i < |own| && i in done
      ensures AlikeRows(own, target, i)
    {
      WrittenAlike(ta, tf, own, target, done, a, i);
    }
    forall i | 0 <= i < |own| && i !in done
      ensures InPlace(ta, target, i)
    {
      HeldBefore(ta, tf, own, target, done, a, i);
    }
    forall k: RowKey | !RootDone(target, Indexes(|target|), k.root)
      ensures SameAt(ta, tf, k)
    {
      assert !RootDone(own, done, k.root) by {
        SameRootsDone(own, target, done, k.root);
      }
      assert SameAt(a, ta, k) && SameAt(a, tf, k);
    }
  }

  lemma WrittenAlike(ta: Table, tf: Table, own: seq<Batch>, target: seq<Batch>, done: set<int>, a: Table, i: int)
    requires Pair(own, target, done) && i in done
    requires Overlay(ta, own, done, a) && Overlay(tf, target, Indexes(|target|), a)
    ensures AlikeRows(own, target, i)
  {
    KeyedBelong(own[i]);
    KeyedBelong(target[i]);
    forall k: RowKey
      ensures SameAt(Keyed(own[i].rows), Keyed(target[i].rows), k)
    {
      if k.root in RootSet(own[i].rootIDs) {
        assert RootOf(own, i, k.root) && RootOf(target, i, k.root) && i in Indexes(|target|);
        assert SameAt(a, Keyed(own[i].rows), k) && SameAt(a, Keyed(target[i].rows), k);
      }
    }
    TablesEqual(Keyed(own[i].rows), Keyed(target[i].rows));
  }

  lemma HeldBefore(ta: Table, tf: Table, own: seq<Batch>, target: seq<Batch>, done: set<int>, a: Table, i: int)
    requires Pair(own, target, done) && 0 <= i < |own| && i !in done
    requires Overlay(ta, own, done, a) && Overlay(tf, target, Indexes(|target|), a)
    ensures InPlace(ta, target, i)
  {
    forall k: RowKey | k.root in RootSet(target[i].rootIDs)
      ensures SameAt(ta, Keyed(target[i].rows), k)
    {
      assert RootOf(target, i, k.root) && i in Indexes(|target|);
      assert SameAt(a, Keyed(target[i].rows), k);
      assert !RootDone(own, done, k.root) by {
        OtherRootsDone(own, done, i, k.root);
      }
      assert SameAt(a, ta, k);
    }
  }

  lemma AgreeAt(
      ta: Table, tf: Table, own: seq<Batch>, target: seq<Batch>, done: set<int>, a: Table, b: Table, k: RowKey)
    requires Pair(own, target, done) && Agreement(ta, tf, own, target, done)
    requires Overlay(ta, own, done, a) && Overlay(tf, target, Indexes(|target|), b)
    ensures SameAt(a, b, k)
  {
    if RootDone(target, Indexes(|target|), k.root) {
      var i :| i in Indexes(|target|) && RootOf(target, i, k.root);
      assert SameAt(b, Keyed(target[i].rows), k);
      if i in done {
        assert RootOf(own, i, k.root) && AlikeRows(own, target, i);
        assert SameAt(a, Keyed(own[i].rows), k);
      } else {
        assert InPlace(ta, target, i);
        assert SameAt(ta, Keyed(target[i].rows), k);
        assert !RootDone(own, done, k.root) by {
          OtherRootsDone(own, done, i, k.root);
        }
        assert SameAt(a, ta, k);
      }
    } else {
      assert !RootDone(own, done, k.root) by {
        SameRootsDone(own, target, done, k.root);
      }
      assert SameAt(a, ta, k) && SameAt(b, tf, k) && SameAt(ta, tf, k);
    }
  }

  // ----- runs and passes -----

  /** The relation table of `e` after the first `at` commits. */
  ghost function TableAt(db: Db, e: Entity, at: nat): Table
    requires at <= |db.history|
  {
    Replay(EntityContent(db.base, e), db.history[..at], e).relations
  }

  /** What one sequential pass over the source makes of the content after the first `at` commits. */
  ghost function PassFrom(db: Db, e: Entity, at: nat, batches: seq<Batch>): Table
    requires at <= |db.history|
  {
    SequentialPass(Replay(EntityContent(db.base, e), db.history[..at], e), batches).relations
  }

  /** Commits of `own` batches since position `at`, against a pass over `target` begun at position `from`. */
  lemma PassVersusReplay(
      base: Content, h: seq<Commit>, at: nat, from: nat, e: Entity, own: seq<Batch>, target: seq<Batch>)
    requires at <= |h| && from <= |h| && SourceOk(own) && SourceOk(target) && SameRoots(own, target)
    requires WritesSource(h, at, e, own)
    ensures var start := Replay(base, h[..from], e);
            Replay(base, h, e).relations == SequentialPass(start, target).relations
            <==> Agreement(Replay(base, h[..at], e).relations, start.relations, own, target, Touched(h, at, e))
  {
    var start := Replay(base, h[..from], e);
    ReplayOverlay(base, h, at, e, own);
    TouchedInRange(h, at, e, own);
    SequentialOverlay(start, target, |target|);
    assert target[..|target|] == target;
    hide SourceOk, SameRoots, Overlay, Agreement, Replay, SequentialPass, Touched, Indexes, WritesSource;
    OverlaysAgree(Replay(base, h[..at], e).relations, start.relations, own, target, Touched(h, at, e),
      Replay(base, h, e).relations, SequentialPass(start, target).relations);
  }

  /** The chunks that `r` itself committed carry the given batches, whatever earlier attempts wrote. */
  ghost predicate OwnChunks(db: Db, r: RunId, e: Entity, batches: seq<Batch>) {
    forall p :: 0 <= p < |db.history| && IsChunk(db.history[p], {r}, e) ==>
      0 <= db.history[p].index < |batches| && SameRelations(db.history[p].batch, batches[db.history[p].index])
  }

  /** An order whose entity completes now; its run wrote the given batches. */
  ghost predicate Completes(s: State, order: Order, totalItems: int, now: int, batches: seq<Batch>) {
    && Inv(s)
    && CompleteEntity(s.db, order, totalItems, |batches|, now).Ok?
    && SourceOk(batches)
    && OwnChunks(s.db, order.run, order.entity, batches)
  }

  lemma CompletesRun(s: State, order: Order, totalItems: int, now: int, batches: seq<Batch>)
    requires Completes(s, order, totalItems, now, batches)
    ensures Inv(s) && CompleteEntity(s.db, order, totalItems, |batches|, now).Ok?
    ensures RunsOk(s.db.runs, |s.db.history|) && IsRunning(s.db.runs, order.run)
    ensures TailOwned(s.db.runs, s.db.dumps, s.db.history) && DumpKey(order.run, order.entity) in s.db.dumps
    ensures Replayed(s.db.content, s.db.base, s.db.history)
    ensures order.run in Path(s.db.runs, order.run)
    ensures forall r :: r in s.db.runs ==> s.db.runs[r].admittedAt <= |s.db.history|
  {
    hide SourceOk, OwnChunks, CoverageAccepts;
    PathMembers(s.db.runs, |s.db.history|, order.run);
  }

  /** When the run was admitted: the number of commits made before. */
  ghost function AdmittedAt(db: Db, r: RunId): (at: nat)
    requires RunsOk(db.runs, |db.history|) && r in db.runs
    ensures at <= |db.history|
  {
    db.runs[r].admittedAt
  }

  /** The chunks that no run of the path had committed when `r` was admitted: what was left to do. */
  ghost function Remaining(db: Db, r: RunId, e: Entity, n: nat): set<int>
    requires RunsOk(db.runs, |db.history|) && r in db.runs
  {
    set i | 0 <= i < n && CommitCount(db.history[..AdmittedAt(db, r)], Path(db.runs, r), e, i) == 0
  }

  /** Since its admission only the run itself has written to its entity. */
  lemma TailIsOwn(s: State, order: Order, totalItems: int, now: int, batches: seq<Batch>)
    requires Completes(s, order, totalItems, now, batches)
    ensures order.run in s.db.runs && s.db.runs[order.run].admittedAt <= |s.db.history|
    ensures WritesSource(s.db.history, s.db.runs[order.run].admittedAt, order.entity, batches)
    ensures forall p :: s.db.runs[order.run].admittedAt <= p < |s.db.history| && s.db.history[p].entity == order.entity ==>
              s.db.history[p].run == order.run
  {
    CompletesRun(s, order, totalItems, now, batches);
    hide Inv, CompleteEntity, SourceOk, Path;
    forall p | s.db.runs[order.run].admittedAt <= p < |s.db.history| && s.db.history[p].ChunkCommit?
               && s.db.history[p].entity == order.entity
      ensures IsChunk(s.db.history[p], {order.run}, order.entity)
    {}
  }

  /** Every chunk of a completed entity was committed by exactly one run of the path. */
  lemma CommittedOnPath(s: State, order: Order, totalItems: int, now: int, batches: seq<Batch>, i: int) returns (p: nat)
    requires Completes(s, order, totalItems, now, batches) && 0 <= i < |batches|
    ensures p < |s.db.history| && IsChunk(s.db.history[p], Path(s.db.runs, order.run), order.entity)
    ensures s.db.history[p].index == i && s.db.runs[s.db.history[p].run].admittedAt <= p
    ensures forall q :: (0 <= q < |s.db.history| && IsChunk(s.db.history[q], Path(s.db.runs, order.run), order.entity)
                         && s.db.history[q].index == i) ==> q == p
  {
    hide *;
    var h, path := s.db.history, Path(s.db.runs, order.run);
    CompletesRun(s, order, totalItems, now, batches);
    CompletedExactlyOnce(s, order, totalItems, |batches|, now, i);
    PathCommits(s);
    p := CountedSomewhere(h, path, order.entity, i);
    CommittedNowhereElse(h, path, order.entity, i, p);
  }

  lemma CommittedNowhereElse(h: seq<Commit>, path: set<RunId>, e: Entity, i: int, p: nat)
    requires CommitCount(h, path, e, i) == 1 && p < |h| && IsChunk(h[p], path, e) && h[p].index == i
    ensures forall q :: (0 <= q < |h| && IsChunk(h[q], path, e) && h[q].index == i) ==> q == p
  {
    forall q | 0 <= q < |h| && IsChunk(h[q], path, e) && h[q].index == i
      ensures q == p
    {
      CountedOnce(h, path, e, if q < p then q else p);
    }
  }

  lemma PathCommits(s: State)
    requires Inv(s)
    ensures forall p :: 0 <= p < |s.db.history| ==>
              s.db.history[p].run in s.db.runs && s.db.runs[s.db.history[p].run].admittedAt <= p
  {}

  /** What a completing run wrote itself is what was left to do when it was admitted. */
  lemma WroteWhatRemained(s: State, order: Order, totalItems: int, now: int, batches: seq<Batch>)
    requires Completes(s, order, totalItems, now, batches)
    ensures RunsOk(s.db.runs, |s.db.history|) && order.run in s.db.runs
    ensures Touched(s.db.history, AdmittedAt(s.db, order.run), order.entity)
            == Remaining(s.db, order.run, order.entity, |batches|)
  {
    CompletesRun(s, order, totalItems, now, batches);
    TailIsOwn(s, order, totalItems, now, batches);
    var h, e, a, path := s.db.history, order.entity, AdmittedAt(s.db, order.run), Path(s.db.runs, order.run);
    TouchedInRange(h, a, e, batches);
    forall i | 0 <= i < |batches|
      ensures i in Touched(h, a, e) <==> CommitCount(h[..a], path, e, i) == 0
    {
      var p := CommittedOnPath(s, order, totalItems, now, batches, i);
      CommittedSince(h, a, path, e, order.run, i, p);
    }
  }

  lemma CountedBefore(h: seq<Commit>, a: nat, path: set<RunId>, e: Entity, i: int) returns (q: nat)
    requires a <= |h| && CommitCount(h[..a], path, e, i) >= 1
    ensures q < a && IsChunk(h[q], path, e) && h[q].index == i
  {
    q := CountedSomewhere(h[..a], path, e, i);
    assert h[q] == h[..a][q];
  }

  /** The one commit of chunk `i` came after position `a` exactly when none came before. */
  lemma CommittedSince(h: seq<Commit>, a: nat, path: set<RunId>, e: Entity, run: RunId, i: int, p: nat)
    requires a <= |h| && p < |h| && IsChunk(h[p], path, e) && h[p].index == i && run in path
    requires forall q :: 0 <= q < |h| && IsChunk(h[q], path, e) && h[q].index == i ==> q == p
    requires forall q :: a <= q < |h| && h[q].entity == e ==> h[q].run == run
    ensures i in Touched(h, a, e) <==> CommitCount(h[..a], path, e, i) == 0
  {
    if p < a {
      assert h[..a][p] == h[p];
      CountedOnce(h[..a], path, e, p);
      forall q | a <= q < |h| && h[q].ChunkCommit? && h[q].entity == e
        ensures h[q].index != i
      {
        assert IsChunk(h[q], path, e);
      }
    } else if CommitCount(h[..a], path, e, i) >= 1 {
      var q := CountedBefore(h, a, path, e, i);
    }
  }

  // ----- the theorems -----

  /**
   * The completed table against a pass over any batches with the same roots, begun at any position:
   * they are equal exactly when the run wrote the pass's rows for the chunks that remained at its
   * admission, the other chunks were in place then, and nothing else differed between the two positions.
   */
  lemma CompletedTableIff(
      s: State, order: Order, totalItems: int, now: int, own: seq<Batch>, target: seq<Batch>, from: nat)
    requires Completes(s, order, totalItems, now, own) && SourceOk(target) && SameRoots(own, target)
    requires from <= |s.db.history|
    ensures RunsOk(s.db.runs, |s.db.history|) && order.run in s.db.runs
    ensures var e, a := order.entity, AdmittedAt(s.db, order.run);
            EntityContent(s.db.content, e).relations == PassFrom(s.db, e, from, target)
            <==> Agreement(TableAt(s.db, e, a), TableAt(s.db, e, from), own, target, Remaining(s.db, order.run, e, |own|))
  {
    CompletesRun(s, order, totalItems, now, own);
    TailIsOwn(s, order, totalItems, now, own);
    WroteWhatRemained(s, order, totalItems, now, own);
    hide Inv, CompleteEntity, SourceOk, SameRoots, OwnChunks, Agreement, Remaining, Touched, WritesSource, SequentialPass, RunsOk;
    PassVersusReplay(EntityContent(s.db.base, order.entity), s.db.history, AdmittedAt(s.db, order.run), from,
      order.entity, own, target);
  }

  lemma SelfAgreement(t: Table, batches: seq<Batch>, done: set<int>)
    ensures Agreement(t, t, batches, batches, done)
            <==> forall i :: 0 <= i < |batches| && i !in done ==> InPlace(t, batches, i)
  {
    hide InPlace, Indexes, Keyed;
  }

  /**
   * Exactly when resuming converges: the completed table is what a pass begun at the run's
   * admission would leave if and only if, at admission, every chunk that the run inherited
   * was in the table as the run's source has it.
   */
  lemma ResumedRunConvergesIff(s: State, order: Order, totalItems: int, now: int, batches: seq<Batch>)
    requires Completes(s, order, totalItems, now, batches)
    ensures RunsOk(s.db.runs, |s.db.history|) && order.run in s.db.runs
    ensures var e, a := order.entity, AdmittedAt(s.db, order.run);
            EntityContent(s.db.content, e).relations == PassFrom(s.db, e, a, batches)
            <==> forall i :: 0 <= i < |batches| && i !in Remaining(s.db, order.run, e, |batches|) ==>
                   InPlace(TableAt(s.db, e, a), batches, i)
  {
    CompletesRun(s, order, totalItems, now, batches);
    CompletesSource(s, order, totalItems, now, batches);
    hide Inv, CompleteEntity, SourceOk, OwnChunks, Agreement, Remaining, InPlace, PassFrom, RunsOk, Completes;
    var e, a := order.entity, AdmittedAt(s.db, order.run);
    CompletedTableIff(s, order, totalItems, now, batches, batches, a);
    SelfAgreement(TableAt(s.db, e, a), batches, Remaining(s.db, order.run, e, |batches|));
  }

  lemma CompletesSource(s: State, order: Order, totalItems: int, now: int, batches: seq<Batch>)
    requires Completes(s, order, totalItems, now, batches)
    ensures SourceOk(batches) && SameRoots(batches, batches)
  {}

  /** A run that did not resume always converges, whatever other runs did before it was admitted. */
  lemma FreshRunConverges(s: State, order: Order, totalItems: int, now: int, batches: seq<Batch>)
    requires Completes(s, order, totalItems, now, batches) && order.run in s.db.runs && s.db.runs[order.run].resumedFrom == 0
    ensures RunsOk(s.db.runs, |s.db.history|) && order.run in s.db.runs
    ensures EntityContent(s.db.content, order.entity).relations
            == PassFrom(s.db, order.entity, AdmittedAt(s.db, order.run), batches)
  {
    hide *;
    ResumedRunConvergesIff(s, order, totalItems, now, batches);
    WroteWhatRemained(s, order, totalItems, now, batches);
    forall i | 0 <= i < |batches|
      ensures i in Touched(s.db.history, AdmittedAt(s.db, order.run), order.entity)
    {
      FreshlyTouched(s, order, totalItems, now, batches, i);
    }
  }

  lemma FreshlyTouched(s: State, order: Order, totalItems: int, now: int, batches: seq<Batch>, i: int)
    requires Completes(s, order, totalItems, now, batches) && 0 <= i < |batches|
    requires RunsOk(s.db.runs, |s.db.history|) && order.run in s.db.runs && s.db.runs[order.run].resumedFrom == 0
    ensures i in Touched(s.db.history, AdmittedAt(s.db, order.run), order.entity)
  {
    FreshPath(s.db.runs, order.run);
    hide Completes, RunsOk, Path;
    var p := CommittedOnPath(s, order, totalItems, now, batches, i);
  }

  lemma FreshPath(runs: map<RunId, Run>, run: RunId)
    requires run in runs && runs[run].resumedFrom == 0
    ensures Path(runs, run) == {run}
  {}

  // ----- whole resume paths -----

  /** Every attempt on the path of `r` wrote the same batches. */
  ghost predicate ReadsSource(db: Db, r: RunId, e: Entity, batches: seq<Batch>) {
    forall p :: 0 <= p < |db.history| && IsChunk(db.history[p], Path(db.runs, r), e) ==>
      0 <= db.history[p].index < |batches| && SameRelations(db.history[p].batch, batches[db.history[p].index])
  }

  /** From position `from` on, only runs on the path of `r` have written to `e`. */
  ghost predicate NoForeignWriter(db: Db, r: RunId, e: Entity, from: nat) {
    forall p :: from <= p < |db.history| && db.history[p].entity == e ==> db.history[p].run in Path(db.runs, r)
  }

  lemma PathWritesSource(db: Db, r: RunId, e: Entity, batches: seq<Batch>, from: nat)
    requires ReadsSource(db, r, e, batches) && NoForeignWriter(db, r, e, from)
    ensures WritesSource(db.history, from, e, batches)
  {
    forall p | from <= p < |db.history| && db.history[p].ChunkCommit? && db.history[p].entity == e
      ensures IsChunk(db.history[p], Path(db.runs, r), e)
    {}
  }

  /** The run with which a resume path began. */
  ghost function FirstRun(runs: map<RunId, Run>, run: RunId): RunId
    decreases if run < 0 then 0 else run
  {
    if run in runs && 0 < runs[run].resumedFrom < run then FirstRun(runs, runs[run].resumedFrom) else run
  }

  lemma {:induction false} FirstIsEarliest(runs: map<RunId, Run>, length: nat, run: RunId)
    requires RunsOk(runs, length) && run in runs
    ensures FirstRun(runs, run) in runs
    ensures forall r :: r in Path(runs, run) ==> r in runs && runs[FirstRun(runs, run)].admittedAt <= runs[r].admittedAt
    decreases run
  {
    PathMembers(runs, length, run);
    if runs[run].resumedFrom != 0 {
      FirstIsEarliest(runs, length, runs[run].resumedFrom);
      PathMembers(runs, length, runs[run].resumedFrom);
    }
  }

  /** When the resume path of `r` began. */
  ghost predicate PathBegan(db: Db, r: RunId, from: nat) {
    && FirstRun(db.runs, r) in db.runs && db.runs[FirstRun(db.runs, r)].admittedAt == from <= |db.history|
  }

  /**
   * The attempts of a path together, with no foreign writer since it began: the completed table is
   * that of a pass over `target` exactly when every chunk was committed with the pass's rows.
   */
  lemma PathTableIff(
      s: State, order: Order, totalItems: int, now: int, own: seq<Batch>, target: seq<Batch>, from: nat)
    requires Completes(s, order, totalItems, now, own) && ReadsSource(s.db, order.run, order.entity, own)
    requires SourceOk(target) && SameRoots(own, target)
    requires PathBegan(s.db, order.run, from) && NoForeignWriter(s.db, order.run, order.entity, from)
    ensures EntityContent(s.db.content, order.entity).relations == PassFrom(s.db, order.entity, from, target)
            <==> forall i :: 0 <= i < |own| ==> AlikeRows(own, target, i)
  {
    var e, h := order.entity, s.db.history;
    CompletesRun(s, order, totalItems, now, own);
    PathWritesSource(s.db, order.run, e, own, from);
    TouchedInRange(h, from, e, own);
    WholeSourceTouched(s, order, totalItems, now, own, from);
    hide Inv, CompleteEntity, SourceOk, SameRoots, OwnChunks, ReadsSource, NoForeignWriter, Touched, SequentialPass, RunsOk,
      WritesSource, Completes, PathBegan, AlikeRows, InPlace;
    PassVersusReplay(EntityContent(s.db.base, e), h, from, from, e, own, target);
    FullAgreement(Replay(EntityContent(s.db.base, e), h[..from], e).relations, own, target, Touched(h, from, e));
  }

  lemma FullAgreement(t: Table, own: seq<Batch>, target: seq<Batch>, done: set<int>)
    requires |own| == |target| && forall i :: 0 <= i < |own| ==> i in done
    ensures Agreement(t, t, own, target, done) <==> forall i :: 0 <= i < |own| ==> AlikeRows(own, target, i)
  {
    hide AlikeRows, InPlace, Indexes;
  }

  lemma WholeSourceTouched(s: State, order: Order, totalItems: int, now: int, own: seq<Batch>, from: nat)
    requires Completes(s, order, totalItems, now, own) && PathBegan(s.db, order.run, from)
    ensures forall i :: 0 <= i < |own| ==> i in Touched(s.db.history, from, order.entity)
  {
    CompletesRun(s, order, totalItems, now, own);
    FirstIsEarliest(s.db.runs, |s.db.history|, order.run);
    hide Completes, FirstRun, Path, RunsOk;
    forall i | 0 <= i < |own|
      ensures i in Touched(s.db.history, from, order.entity)
    {
      var p := CommittedOnPath(s, order, totalItems, now, own, i);
      assert s.db.history[p].run in Path(s.db.runs, order.run);
    }
  }

  /**
   * Crash and resume convergence: any interleaving of chunk transactions, failures, crashes,
   * zombies and resumed runs that completes an entity, with one source and no foreign writer since
   * the path began, leaves the relation table as one sequential pass over the source begun there.
   */
  lemma ResumePathConverges(s: State, order: Order, totalItems: int, now: int, batches: seq<Batch>, from: nat)
    requires Completes(s, order, totalItems, now, batches) && ReadsSource(s.db, order.run, order.entity, batches)
    requires PathBegan(s.db, order.run, from) && NoForeignWriter(s.db, order.run, order.entity, from)
    ensures EntityContent(s.db.content, order.entity).relations == PassFrom(s.db, order.entity, from, batches)
  {
    CompletesSource(s, order, totalItems, now, batches);
    hide Completes, ReadsSource, NoForeignWriter, PassFrom, SourceOk, SameRoots, Inv;
    PathTableIff(s, order, totalItems, now, batches, batches, from);
  }

  /** The same over histories: whatever steps led from an empty import database to the completion. */
  lemma HistoriesConverge(
      start: State, steps: seq<Step>, order: Order, totalItems: int, now: int, batches: seq<Batch>, from: nat)
    requires Init(start) && Possible(start, steps) && SourceOk(batches)
    requires var db := After(start, steps).db;
             && CompleteEntity(db, order, totalItems, |batches|, now).Ok?
             && ReadsSource(db, order.run, order.entity, batches)
             && PathBegan(db, order.run, from) && NoForeignWriter(db, order.run, order.entity, from)
    ensures var db := After(start, steps).db;
            EntityContent(db.content, order.entity).relations == PassFrom(db, order.entity, from, batches)
  {
    var s := After(start, steps);
    ReachableStatesAreSafe(start, steps);
    CompletesBy(s, order, totalItems, now, batches);
    hide Inv, Init, Possible, After, CompleteEntity, SourceOk, ReadsSource, PathBegan, NoForeignWriter, PassFrom, Completes;
    ResumePathConverges(s, order, totalItems, now, batches, from);
  }

  lemma CompletesBy(s: State, order: Order, totalItems: int, now: int, batches: seq<Batch>)
    requires Inv(s) && CompleteEntity(s.db, order, totalItems, |batches|, now).Ok?
    requires SourceOk(batches) && ReadsSource(s.db, order.run, order.entity, batches)
    ensures Completes(s, order, totalItems, now, batches)
  {
    InvRuns(s);
    CompletionGuards(s.db, order, totalItems, |batches|, now);
    PathMembers(s.db.runs, |s.db.history|, order.run);
    hide Inv, CompleteEntity, SourceOk, Path, RunsOk, SameRelations;
    forall p | 0 <= p < |s.db.history| && IsChunk(s.db.history[p], {order.run}, order.entity)
      ensures IsChunk(s.db.history[p], Path(s.db.runs, order.run), order.entity)
    {}
  }

  lemma InvRuns(s: State)
    requires Inv(s)
    ensures RunsOk(s.db.runs, |s.db.history|)
  {}
}
