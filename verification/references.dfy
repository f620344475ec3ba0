/**
 * Relation rows that refer to an artist or a label are written only when the process knows the
 * identifier. What an attempt knows depends on which steps it runs, so that a resumed run may
 * derive other rows from a chunk than an uninterrupted one: exactly when that matters.
 */
module References {
  import opened Options
  import opened Reconciliation
  import opened Database
  import opened History
  import opened Protocol
  import opened Safety
  import opened Convergence

  datatype Reference = Reference(entity: Entity, id: int)

  /** A relation row as the source has it, with the identifier it refers to, if any. */
  datatype SourceRow = SourceRow(row: Row, reference: Option<Reference>)

  /** The items of one chunk: their roots and all of their relation rows. */
  datatype Window = Window(rootIDs: seq<int>, rows: seq<SourceRow>)

  /** Identifiers found in the identifier sets. */
  type Known = iset<Reference>

  ghost predicate Passes(row: SourceRow, known: Known) {
    row.reference.None? || row.reference.value in known
  }

  /** The rows that the getters keep, in order. */
  ghost function Kept(rows: seq<SourceRow>, known: Known): seq<Row> {
    if rows == [] then []
    else
      var n := |rows| - 1;
      Kept(rows[..n], known) + if Passes(rows[n], known) then [rows[n].row] else []
  }

  /** The loop of the getters: a row whose reference is not in the set is passed over. */
  method FilterReferences(rows: seq<SourceRow>, ids: Known) returns (kept: seq<Row>)
    ensures kept == Kept(rows, ids)
    ensures forall row :: row in kept <==> Derives(rows, ids, row)
  {
    kept := [];
    for i := 0 to |rows|
      invariant kept == Kept(rows[..i], ids)
    {
      assert rows[..i + 1][..i] == rows[..i];
      if rows[i].reference.None? || rows[i].reference.value in ids {
        kept := kept + [rows[i].row];
      }
    }
    assert rows[..|rows|] == rows;
    KeptMembers(rows, ids);
  }

  ghost predicate Derives(rows: seq<SourceRow>, known: Known, row: Row) {
    exists i :: 0 <= i < |rows| && rows[i].row == row && Passes(rows[i], known)
  }

  lemma {:induction false} KeptMembers(rows: seq<SourceRow>, known: Known)
    ensures forall row :: row in Kept(rows, known) <==> Derives(rows, known, row)
  {
    if rows != [] {
      var n := |rows| - 1;
      KeptMembers(rows[..n], known);
      forall row
        ensures Derives(rows, known, row) <==> Derives(rows[..n], known, row) || (rows[n].row == row && Passes(rows[n], known))
      {
        if Derives(rows[..n], known, row) {
          var i :| 0 <= i < n && rows[..n][i].row == row && Passes(rows[..n][i], known);
          assert rows[i] == rows[..n][i];
        }
        if Derives(rows, known, row) {
          var i :| 0 <= i < |rows| && rows[i].row == row && Passes(rows[i], known);
          assert i < n ==> rows[..n][i] == rows[i];
        }
      }
    }
  }

  ghost function AllRows(rows: seq<SourceRow>): (all: seq<Row>)
    ensures |all| == |rows| && forall i :: 0 <= i < |rows| ==> all[i] == rows[i].row
  {
    seq(|rows|, i requires 0 <= i < |rows| => rows[i].row)
  }

  /** Dropping rows keeps the remaining ones canonical. */
  lemma {:induction false} KeptAreCanonical(rows: seq<SourceRow>, known: Known, digested: bool)
    requires Canonical(AllRows(rows), digested)
    ensures Canonical(Kept(rows, known), digested)
  {
    if rows != [] {
      var n := |rows| - 1;
      var all, kept := AllRows(rows[..n]), Kept(rows[..n], known);
      assert AllRows(rows) == all + [rows[n].row];
      CanonicalPrefix(all, rows[n].row, digested);
      KeptAreCanonical(rows[..n], known, digested);
      if Passes(rows[n], known) {
        forall i | 0 <= i < |kept|
          ensures kept[i].Key() != rows[n].row.Key()
        {
          KeptAmongAll(rows[..n], known, kept[i]);
        }
        CanonicalAppend(kept, rows[n].row, digested);
      }
    }
  }

  lemma CanonicalPrefix(rows: seq<Row>, last: Row, digested: bool)
    requires Canonical(rows + [last], digested)
    ensures Canonical(rows, digested) && last.identity.Some? == digested
    ensures forall row :: row in rows ==> row.Key() != last.Key()
  {
    var all := rows + [last];
    assert all[|rows|] == last && last in all;
    assert forall i :: 0 <= i < |rows| ==> all[i] == rows[i];
    forall row | row in rows
      ensures row.Key() != last.Key() && row.identity.Some? == digested
    {
      var i :| 0 <= i < |rows| && rows[i] == row;
      assert all[i] in all;
    }
  }

  lemma CanonicalAppend(rows: seq<Row>, last: Row, digested: bool)
    requires Canonical(rows, digested) && last.identity.Some? == digested
    requires forall i :: 0 <= i < |rows| ==> rows[i].Key() != last.Key()
    ensures Canonical(rows + [last], digested)
  {}

  lemma KeptAmongAll(rows: seq<SourceRow>, known: Known, row: Row)
    requires row in Kept(rows, known)
    ensures row in AllRows(rows)
  {
    KeptMembers(rows, known);
    var i :| 0 <= i < |rows| && rows[i].row == row && Passes(rows[i], known);
    assert AllRows(rows)[i] == row;
  }

  // ----- sources and batches -----

  /** All rows of a chunk, whatever they refer to. */
  ghost function Whole(window: Window): Batch {
    Batch(window.rootIDs, map[], AllRows(window.rows))
  }

  /** What a process that knows `known` writes for a chunk. */
  ghost function Derive(window: Window, known: Known): Batch {
    Batch(window.rootIDs, map[], Kept(window.rows, known))
  }

  ghost function Derived(source: seq<Window>, known: Known): (batches: seq<Batch>)
    ensures |batches| == |source|
    ensures forall i :: 0 <= i < |source| ==> batches[i] == Derive(source[i], known)
  {
    seq(|source|, i requires 0 <= i < |source| => Derive(source[i], known))
  }

  /** Each chunk's rows are canonical and lie below its roots; no root occurs in two chunks. */
  ghost predicate WindowsOk(source: seq<Window>) {
    && (forall i :: 0 <= i < |source| ==> WellFormedBatch(Whole(source[i])))
    && (forall i, j :: 0 <= i < |source| && 0 <= j < |source| && i != j ==>
          RootSet(source[i].rootIDs) !! RootSet(source[j].rootIDs))
  }

  lemma DeriveIsWellFormed(window: Window, known: Known)
    requires WellFormedBatch(Whole(window))
    ensures WellFormedBatch(Derive(window, known))
  {
    KeptAreCanonical(window.rows, known, true);
    forall row | row in Kept(window.rows, known)
      ensures row.root in RootSet(window.rootIDs)
    {
      KeptAmongAll(window.rows, known, row);
    }
  }

  /** Batches that derive each chunk under some knowledge of its own. */
  ghost predicate DerivedSomehow(source: seq<Window>, own: seq<Batch>, knowns: seq<Known>) {
    |own| == |knowns| == |source| && forall i :: 0 <= i < |source| ==> own[i] == Derive(source[i], knowns[i])
  }

  lemma DerivedIsOk(source: seq<Window>, own: seq<Batch>, knowns: seq<Known>)
    requires WindowsOk(source) && DerivedSomehow(source, own, knowns)
    ensures SourceOk(own)
  {
    forall i | 0 <= i < |own|
      ensures WellFormedBatch(own[i])
    {
      DeriveIsWellFormed(source[i], knowns[i]);
    }
  }

  /** The same knowledge for every chunk. */
  ghost function Everywhere(known: Known, n: nat): (knowns: seq<Known>)
    ensures |knowns| == n && forall i :: 0 <= i < n ==> knowns[i] == known
  {
    seq(n, i => known)
  }

  lemma DerivedAlike(source: seq<Window>, known: Known)
    ensures DerivedSomehow(source, Derived(source, known), Everywhere(known, |source|))
  {}

  /** The chunk refers to no identifier that one of the two knows and the other does not. */
  ghost predicate Unaffected(window: Window, a: Known, b: Known) {
    forall i :: 0 <= i < |window.rows| && window.rows[i].reference.Some? ==>
      (window.rows[i].reference.value in a <==> window.rows[i].reference.value in b)
  }

  lemma {:induction false} UnaffectedKeepsSame(rows: seq<SourceRow>, a: Known, b: Known)
    requires forall i :: 0 <= i < |rows| ==> (Passes(rows[i], a) <==> Passes(rows[i], b))
    ensures Kept(rows, a) == Kept(rows, b)
  {
    if rows != [] {
      UnaffectedKeepsSame(rows[..|rows| - 1], a, b);
    }
  }

  /** A kept row's key stands for that row and no other. */
  lemma KeyedPasses(window: Window, known: Known, i: nat)
    requires WellFormedBatch(Whole(window)) && i < |window.rows|
    ensures Passes(window.rows[i], known) <==> window.rows[i].row.Key() in Keyed(Kept(window.rows, known))
  {
    var rows, kept := window.rows, Kept(window.rows, known);
    DeriveIsWellFormed(window, known);
    KeyedRows(kept, true);
    KeptMembers(rows, known);
    hide *;
    if Passes(rows[i], known) {
      PassingKey(rows, known, i, kept);
    }
    if rows[i].row.Key() in Keyed(kept) {
      KeyPasses(window, known, i, kept);
    }
  }

  lemma PassingKey(rows: seq<SourceRow>, known: Known, i: nat, kept: seq<Row>)
    requires i < |rows| && Passes(rows[i], known)
    requires forall row :: row in kept <==> Derives(rows, known, row)
    requires forall m :: 0 <= m < |kept| ==> kept[m].Key() in Keyed(kept)
    ensures rows[i].row.Key() in Keyed(kept)
  {
    assert Derives(rows, known, rows[i].row);
    hide Keyed;
    var m :| 0 <= m < |kept| && kept[m] == rows[i].row;
  }

  lemma KeyPasses(window: Window, known: Known, i: nat, kept: seq<Row>)
    requires WellFormedBatch(Whole(window)) && i < |window.rows| && HasKey(kept, window.rows[i].row.Key())
    requires forall row :: row in kept <==> Derives(window.rows, known, row)
    ensures Passes(window.rows[i], known)
  {
    var rows, all := window.rows, AllRows(window.rows);
    var m :| 0 <= m < |kept| && kept[m].Key() == rows[i].row.Key();
    assert kept[m] in kept;
    var j :| 0 <= j < |rows| && rows[j].row == kept[m] && Passes(rows[j], known);
    assert all[i].Key() == all[j].Key();
  }

  /** The same rows are written exactly when the chunk refers to nothing that only one of the two knows. */
  lemma SameRowsIff(window: Window, a: Known, b: Known)
    requires WellFormedBatch(Whole(window))
    ensures Keyed(Kept(window.rows, a)) == Keyed(Kept(window.rows, b)) <==> Unaffected(window, a, b)
  {
    if Keyed(Kept(window.rows, a)) == Keyed(Kept(window.rows, b)) {
      forall i | 0 <= i < |window.rows| && window.rows[i].reference.Some?
        ensures window.rows[i].reference.value in a <==> window.rows[i].reference.value in b
      {
        KeyedPasses(window, a, i);
        KeyedPasses(window, b, i);
      }
    }
    if Unaffected(window, a, b) {
      UnaffectedKeepsSame(window.rows, a, b);
    }
  }

  lemma SameRowsAt(source: seq<Window>, own: seq<Batch>, knowns: seq<Known>, known: Known, i: nat)
    requires WindowsOk(source) && DerivedSomehow(source, own, knowns) && i < |source|
    ensures AlikeRows(own, Derived(source, known), i) <==> Unaffected(source[i], knowns[i], known)
  {
    hide Keyed, Kept, Unaffected, WellFormedBatch;
    SameRowsIff(source[i], knowns[i], known);
  }

  // ----- what an attempt knows -----

  /** The run found the entity complete when it was admitted, so that the entity's step registers nothing. */
  ghost predicate Skips(db: Db, r: RunId, f: Entity) {
    DumpKey(r, f) in db.dumps && db.dumps[DumpKey(r, f)].skipped
  }

  /**
   * The identifiers of a selected entity are those of its dump, which its step registers; those of
   * an entity that is not selected are read from its table when the run starts.
   */
  ghost predicate Provides(db: Db, r: RunId, ids: Known, ref: Reference) {
    if DumpKey(r, ref.entity) in db.dumps then ref in ids
    else
      && r in db.runs && db.runs[r].admittedAt <= |db.history|
      && ref.id in Replay(EntityContent(db.base, ref.entity), db.history[..db.runs[r].admittedAt], ref.entity).roots
  }

  /** What run `r` knows; `ids` are the identifiers in the dumps of the selected entities. */
  ghost function KnownTo(db: Db, r: RunId, ids: Known): Known {
    iset ref: Reference | Provides(db, r, ids, ref) && !Skips(db, r, ref.entity)
  }

  /** What it would know had it run every step. */
  ghost function KnownInFull(db: Db, r: RunId, ids: Known): Known {
    iset ref: Reference | Provides(db, r, ids, ref)
  }

  /** The chunk refers to no known identifier of an entity whose step the run skips. */
  ghost predicate NeedsNothingSkipped(db: Db, r: RunId, ids: Known, window: Window) {
    forall i :: 0 <= i < |window.rows| && window.rows[i].reference.Some? ==>
      var ref := window.rows[i].reference.value;
      !(Skips(db, r, ref.entity) && ref in ids)
  }

  lemma SkipGuardDecides(db: Db, r: RunId, ids: Known, window: Window)
    ensures Unaffected(window, KnownTo(db, r, ids), KnownInFull(db, r, ids)) <==> NeedsNothingSkipped(db, r, ids, window)
  {}

  // ----- the theorems -----

  /** An order whose entity completes now; its run derived its chunks from the source under what it knew. */
  ghost predicate Imports(s: State, order: Order, totalItems: int, now: int, source: seq<Window>, ids: Known) {
    && Inv(s)
    && CompleteEntity(s.db, order, totalItems, |source|, now).Ok?
    && WindowsOk(source)
    && OwnChunks(s.db, order.run, order.entity, Derived(source, KnownTo(s.db, order.run, ids)))
  }

  lemma ImportCompletes(s: State, order: Order, totalItems: int, now: int, source: seq<Window>, ids: Known)
    requires Imports(s, order, totalItems, now, source, ids)
    ensures Completes(s, order, totalItems, now, Derived(source, KnownTo(s.db, order.run, ids)))
  {
    hide Inv, CompleteEntity, SourceOk, WindowsOk, OwnChunks, KnownTo;
    DerivedAlike(source, KnownTo(s.db, order.run, ids));
    DerivedIsOk(source, Derived(source, KnownTo(s.db, order.run, ids)), Everywhere(KnownTo(s.db, order.run, ids), |source|));
  }

  /** What decides at its admission whether a run will leave the table of a pass begun at `from`. */
  ghost predicate WillConverge(db: Db, r: RunId, e: Entity, source: seq<Window>, ids: Known, from: nat)
    requires RunsOk(db.runs, |db.history|) && r in db.runs && from <= |db.history|
  {
    var full, before := Derived(source, KnownInFull(db, r, ids)), TableAt(db, e, AdmittedAt(db, r));
    && (forall i :: 0 <= i < |source| && i in Remaining(db, r, e, |source|) ==> NeedsNothingSkipped(db, r, ids, source[i]))
    && (forall i :: 0 <= i < |source| && i !in Remaining(db, r, e, |source|) ==> InPlace(before, full, i))
    && SameOutside(before, TableAt(db, e, from), full)
  }

  /**
   * Exactly when a run, resumed or not, ends in the table that one uninterrupted pass begun at
   * `from` would leave: the chunks that remained at its admission need no identifier of a step it
   * skips, the chunks it inherited were in place then, and nothing else had changed since `from`.
   */
  lemma ImportConvergesIff(
      s: State, order: Order, totalItems: int, now: int, source: seq<Window>, ids: Known, from: nat)
    requires Imports(s, order, totalItems, now, source, ids) && from <= |s.db.history|
    ensures RunsOk(s.db.runs, |s.db.history|) && order.run in s.db.runs
    ensures EntityContent(s.db.content, order.entity).relations
            == PassFrom(s.db, order.entity, from, Derived(source, KnownInFull(s.db, order.run, ids)))
            <==> WillConverge(s.db, order.run, order.entity, source, ids, from)
  {
    hide *;
    var own, full := Derived(source, KnownTo(s.db, order.run, ids)), Derived(source, KnownInFull(s.db, order.run, ids));
    ImportCompletes(s, order, totalItems, now, source, ids);
    ImportSource(s, order, totalItems, now, source, ids);
    CompletedTableIff(s, order, totalItems, now, own, full, from);
    ConvergenceIsAgreement(s.db, order.run, order.entity, source, ids, from);
  }

  lemma ImportSource(s: State, order: Order, totalItems: int, now: int, source: seq<Window>, ids: Known)
    requires Imports(s, order, totalItems, now, source, ids)
    ensures WindowsOk(source) && SourceOk(Derived(source, KnownInFull(s.db, order.run, ids)))
    ensures SameRoots(Derived(source, KnownTo(s.db, order.run, ids)), Derived(source, KnownInFull(s.db, order.run, ids)))
  {
    hide Inv, CompleteEntity, SourceOk, WindowsOk, OwnChunks, KnownTo, KnownInFull;
    DerivedAlike(source, KnownInFull(s.db, order.run, ids));
    DerivedIsOk(source, Derived(source, KnownInFull(s.db, order.run, ids)), Everywhere(KnownInFull(s.db, order.run, ids), |source|));
  }

  lemma ConvergenceIsAgreement(db: Db, r: RunId, e: Entity, source: seq<Window>, ids: Known, from: nat)
    requires RunsOk(db.runs, |db.history|) && r in db.runs && from <= |db.history| && WindowsOk(source)
    ensures WillConverge(db, r, e, source, ids, from)
            <==> Agreement(TableAt(db, e, AdmittedAt(db, r)), TableAt(db, e, from), Derived(source, KnownTo(db, r, ids)),
                   Derived(source, KnownInFull(db, r, ids)), Remaining(db, r, e, |source|))
  {
    var own, full := Derived(source, KnownTo(db, r, ids)), Derived(source, KnownInFull(db, r, ids));
    forall i | 0 <= i < |source|
      ensures AlikeRows(own, full, i) <==> NeedsNothingSkipped(db, r, ids, source[i])
    {
      DerivedAlike(source, KnownTo(db, r, ids));
      SameRowsAt(source, own, Everywhere(KnownTo(db, r, ids), |source|), KnownInFull(db, r, ids), i);
      SkipGuardDecides(db, r, ids, source[i]);
    }
    hide RunsOk, WindowsOk, AlikeRows, NeedsNothingSkipped, InPlace, SameOutside, Remaining, TableAt, KnownTo, KnownInFull, Derive;
  }

  /** The same over histories: whatever steps led from an empty import database to the completion. */
  lemma HistoriesConvergeIff(
      start: State, steps: seq<Step>, order: Order, totalItems: int, now: int, source: seq<Window>, ids: Known, from: nat)
    requires Init(start) && Possible(start, steps) && WindowsOk(source)
    requires var db := After(start, steps).db;
             && CompleteEntity(db, order, totalItems, |source|, now).Ok?
             && OwnChunks(db, order.run, order.entity, Derived(source, KnownTo(db, order.run, ids)))
             && from <= |db.history|
    ensures var db := After(start, steps).db;
            && RunsOk(db.runs, |db.history|) && order.run in db.runs
            && (EntityContent(db.content, order.entity).relations
                == PassFrom(db, order.entity, from, Derived(source, KnownInFull(db, order.run, ids)))
                <==> WillConverge(db, order.run, order.entity, source, ids, from))
  {
    ReachableStatesAreSafe(start, steps);
    var s := After(start, steps);
    ImportBy(s, order, totalItems, now, source, ids);
    hide *;
    ImportConvergesIff(s, order, totalItems, now, source, ids, from);
  }

  lemma ImportBy(s: State, order: Order, totalItems: int, now: int, source: seq<Window>, ids: Known)
    requires Inv(s) && CompleteEntity(s.db, order, totalItems, |source|, now).Ok? && WindowsOk(source)
    requires OwnChunks(s.db, order.run, order.entity, Derived(source, KnownTo(s.db, order.run, ids)))
    ensures Imports(s, order, totalItems, now, source, ids)
  {
    hide Inv, CompleteEntity, WindowsOk, OwnChunks;
  }

  // ----- whole resume paths -----

  /** Each attempt on the path of `r` derived its chunks from the source under what it knew itself. */
  ghost predicate AttemptsDerive(db: Db, r: RunId, e: Entity, source: seq<Window>, ids: Known) {
    forall p :: 0 <= p < |db.history| && IsChunk(db.history[p], Path(db.runs, r), e) ==>
      0 <= db.history[p].index < |source|
      && SameRelations(db.history[p].batch, Derive(source[db.history[p].index], KnownTo(db, db.history[p].run, ids)))
  }

  /** Some run of the path that committed chunk `i`. */
  ghost function Committer(h: seq<Commit>, path: set<RunId>, e: Entity, i: int): RunId {
    if exists p :: CommitsAt(h, path, e, i, p) then
      var p :| CommitsAt(h, path, e, i, p);
      h[p].run
    else 0
  }

  ghost predicate CommitsAt(h: seq<Commit>, path: set<RunId>, e: Entity, i: int, p: int) {
    0 <= p < |h| && IsChunk(h[p], path, e) && h[p].index == i
  }

  /** What the committer of each chunk knew, and what it wrote. */
  ghost function KnownAlong(db: Db, r: RunId, e: Entity, n: nat, ids: Known): seq<Known> {
    seq(n, i => KnownTo(db, Committer(db.history, Path(db.runs, r), e, i), ids))
  }

  ghost function WrittenAlong(db: Db, r: RunId, e: Entity, source: seq<Window>, ids: Known): seq<Batch> {
    seq(|source|, i requires 0 <= i < |source| =>
      Derive(source[i], KnownTo(db, Committer(db.history, Path(db.runs, r), e, i), ids)))
  }

  lemma OnlyCommitter(h: seq<Commit>, path: set<RunId>, e: Entity, i: int, p: nat)
    requires p < |h| && IsChunk(h[p], path, e) && h[p].index == i
    requires CommitCount(h, path, e, i) <= 1
    ensures Committer(h, path, e, i) == h[p].run
  {
    assert CommitsAt(h, path, e, i, p);
    var q :| CommitsAt(h, path, e, i, q);
    CountedOnce(h, path, e, p);
    CommittedNowhereElse(h, path, e, i, p);
  }

  lemma AttemptsWrote(s: State, order: Order, totalItems: int, now: int, source: seq<Window>, ids: Known)
    requires Inv(s) && CompleteEntity(s.db, order, totalItems, |source|, now).Ok?
    requires AttemptsDerive(s.db, order.run, order.entity, source, ids)
    ensures ReadsSource(s.db, order.run, order.entity, WrittenAlong(s.db, order.run, order.entity, source, ids))
  {
    var h, path, e := s.db.history, Path(s.db.runs, order.run), order.entity;
    hide Inv, CompleteEntity, Path, KnownTo, Derive, SameRelations, Committer;
    forall p | 0 <= p < |h| && IsChunk(h[p], path, e)
      ensures Committer(h, path, e, h[p].index) == h[p].run
    {
      CompletedExactlyOnce(s, order, totalItems, |source|, now, h[p].index);
      OnlyCommitter(h, path, e, h[p].index, p);
    }
  }

  /** The chunks of the path were committed by attempts that knew all the identifiers they refer to, and no others. */
  ghost predicate PathUnaffected(db: Db, r: RunId, e: Entity, source: seq<Window>, ids: Known, known: Known) {
    forall i :: 0 <= i < |source| ==>
      Unaffected(source[i], KnownTo(db, Committer(db.history, Path(db.runs, r), e, i), ids), known)
  }

  /**
   * Along a whole resume path without foreign writers: the completed table is that of one pass by a
   * process that knows `known` exactly when every chunk was committed by an attempt that knew the
   * same of the identifiers the chunk refers to.
   */
  lemma PathConvergesIff(
      s: State, order: Order, totalItems: int, now: int, source: seq<Window>, ids: Known, known: Known, from: nat)
    requires Inv(s) && CompleteEntity(s.db, order, totalItems, |source|, now).Ok? && WindowsOk(source)
    requires AttemptsDerive(s.db, order.run, order.entity, source, ids)
    requires PathBegan(s.db, order.run, from) && NoForeignWriter(s.db, order.run, order.entity, from)
    ensures EntityContent(s.db.content, order.entity).relations
            == PassFrom(s.db, order.entity, from, Derived(source, known))
            <==> PathUnaffected(s.db, order.run, order.entity, source, ids, known)
  {
    hide *;
    var db, r, e := s.db, order.run, order.entity;
    var own, target := WrittenAlong(db, r, e, source, ids), Derived(source, known);
    AttemptsWrote(s, order, totalItems, now, source, ids);
    AlongSource(db, r, e, source, ids, known);
    CompletesBy(s, order, totalItems, now, own);
    PathTableIff(s, order, totalItems, now, own, target, from);
  }

  lemma AlongSource(db: Db, r: RunId, e: Entity, source: seq<Window>, ids: Known, known: Known)
    requires WindowsOk(source)
    ensures var own := WrittenAlong(db, r, e, source, ids);
            && SourceOk(own) && SourceOk(Derived(source, known)) && SameRoots(own, Derived(source, known)) && |own| == |source|
            && (PathUnaffected(db, r, e, source, ids, known)
                <==> forall i :: 0 <= i < |own| ==> AlikeRows(own, Derived(source, known), i))
  {
    var own, knowns := WrittenAlong(db, r, e, source, ids), KnownAlong(db, r, e, |source|, ids);
    assert DerivedSomehow(source, own, knowns);
    DerivedIsOk(source, own, knowns);
    DerivedAlike(source, known);
    DerivedIsOk(source, Derived(source, known), Everywhere(known, |source|));
    hide WindowsOk, SourceOk, AlikeRows, Unaffected, KnownTo, Committer, Kept;
    forall i | 0 <= i < |source|
      ensures AlikeRows(own, Derived(source, known), i) <==> Unaffected(source[i], knowns[i], known)
    {
      SameRowsAt(source, own, knowns, known, i);
    }
  }
}
