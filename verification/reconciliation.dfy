/**
 * Reconciling one relation table with the rows of a chunk: existing rows that the chunk
 * no longer contains are deleted, then the chunk's rows are inserted with
 * "on conflict do nothing".
 */
module Reconciliation {
  import opened Options
  import opened Sets

  /** The conflict key of a relation row below its root, one shape per relation family. */
  datatype RelationKey =
    | IntegerKey(integer: int)
    | TextKey(text: string)
    | TwoIntegerKey(first: int, second: int)
    | IntegerNullableTextKey(integer: int, nullableText: Option<string>)

  datatype RowKey = RowKey(root: int, key: RelationKey)

  /** An incoming row; `identity` is present exactly for the digest relations. */
  datatype Row = Row(root: int, key: RelationKey, identity: Option<Digest>) {
    function Key(): RowKey { RowKey(root, key) }
  }

  /** A relation table: its conflict key is unique; a legacy row has no identity. */
  type Table = map<RowKey, Option<Digest>>

  /** The match of the stale-row query: a null identity equals nothing. */
  predicate Matches(k: RowKey, current: Option<Digest>, row: Row, digested: bool) {
    && row.Key() == k
    && (digested ==> current.Some? && row.identity == current)
  }

  predicate Stale(k: RowKey, current: Option<Digest>, roots: set<int>, incoming: seq<Row>, digested: bool) {
    k.root in roots && forall row :: row in incoming ==> !Matches(k, current, row, digested)
  }

  function DeleteStale(t: Table, roots: set<int>, incoming: seq<Row>, digested: bool): Table {
    map k | k in t && !Stale(k, t[k], roots, incoming, digested) :: t[k]
  }

  /** Insert in order; a row whose key is taken is ignored. */
  function InsertMissing(t: Table, incoming: seq<Row>): Table
    decreases |incoming|
  {
    if incoming == [] then t
    else
      var row := incoming[0];
      InsertMissing(if row.Key() in t then t else t[row.Key() := row.identity], incoming[1..])
  }

  function Reconcile(t: Table, deleteStale: bool, roots: set<int>, incoming: seq<Row>, digested: bool): Table {
    InsertMissing(if deleteStale then DeleteStale(t, roots, incoming, digested) else t, incoming)
  }

  function RootSet(rootIDs: seq<int>): set<int> {
    set r | r in rootIDs
  }

  /** The roots of the chunk that already have rows in this table. */
  function ExistingRoots(t: Table, roots: set<int>): set<int> {
    set k | k in t && k.root in roots :: k.root
  }

  /** What canonicalization guarantees of a chunk's rows: one row per key, and identities where they belong. */
  ghost predicate Canonical(incoming: seq<Row>, digested: bool) {
    && (forall i, j :: 0 <= i < j < |incoming| ==> incoming[i].Key() != incoming[j].Key())
    && (forall row :: row in incoming ==> row.identity.Some? == digested)
  }

  ghost predicate BelongTo(incoming: seq<Row>, roots: set<int>) {
    forall row :: row in incoming ==> row.root in roots
  }

  /** A relation without an identity column stores none. */
  ghost predicate Shaped(t: Table, digested: bool) {
    !digested ==> forall k :: k in t ==> t[k] == None
  }

  /** The incoming rows as a table of their own. */
  ghost function Keyed(incoming: seq<Row>): Table {
    if incoming == [] then map[]
    else Keyed(incoming[1..])[incoming[0].Key() := incoming[0].identity]
  }

  /** The intended result: below `roots` exactly `rows`, everything else untouched. */
  ghost function Replace(t: Table, roots: set<int>, rows: Table): Table {
    (map k | k in t && k.root !in roots :: t[k]) + rows
  }

  ghost predicate HasKey(incoming: seq<Row>, k: RowKey) {
    exists i :: 0 <= i < |incoming| && incoming[i].Key() == k
  }

  lemma {:induction false} KeyedRows(incoming: seq<Row>, digested: bool)
    requires Canonical(incoming, digested)
    ensures forall i :: 0 <= i < |incoming| ==> incoming[i].Key() in Keyed(incoming)
    ensures forall i :: 0 <= i < |incoming| ==> Keyed(incoming)[incoming[i].Key()] == incoming[i].identity
    ensures forall k :: k in Keyed(incoming) ==> HasKey(incoming, k)
  {
    if incoming != [] {
      var rest := incoming[1..];
      assert forall row :: row in rest ==> row in incoming;
      KeyedRows(rest, digested);
      forall k | k in Keyed(incoming)
        ensures HasKey(incoming, k)
      {
        if k == incoming[0].Key() {
        } else {
          var i :| 0 <= i < |rest| && rest[i].Key() == k;
          assert incoming[i + 1].Key() == k;
        }
      }
      forall i | 0 <= i < |incoming|
        ensures incoming[i].Key() in Keyed(incoming) && Keyed(incoming)[incoming[i].Key()] == incoming[i].identity
      {
        if i > 0 { assert rest[i - 1] == incoming[i]; }
      }
    }
  }

  /** The table gains the missing rows and keeps what it has. */
  lemma {:induction false} InsertMissingRows(t: Table, incoming: seq<Row>)
    ensures InsertMissing(t, incoming) == Keyed(incoming) + t
    decreases |incoming|
  {
    if incoming == [] {
      assert Keyed(incoming) + t == t;
    } else {
      var row, rest := incoming[0], incoming[1..];
      var t' := if row.Key() in t then t else t[row.Key() := row.identity];
      InsertMissingRows(t', rest);
      assert Keyed(rest) + t' == Keyed(incoming) + t;
    }
  }

  /** Which rows survive the deletion, in terms of the keyed incoming rows. */
  lemma SurvivingRow(k: RowKey, current: Option<Digest>, roots: set<int>, incoming: seq<Row>, digested: bool)
    requires Canonical(incoming, digested)
    requires !digested ==> current == None
    ensures Stale(k, current, roots, incoming, digested)
            <==> k.root in roots && !(k in Keyed(incoming) && Keyed(incoming)[k] == current)
  {
    KeyedRows(incoming, digested);
    if k in Keyed(incoming) {
      var i :| 0 <= i < |incoming| && incoming[i].Key() == k;
      assert incoming[i] in incoming;
    }
  }

  /** Deleting stale rows and inserting missing ones replaces the rows of the chunk's roots. */
  lemma ReconcileIsReplacement(t: Table, roots: set<int>, incoming: seq<Row>, digested: bool)
    requires Canonical(incoming, digested) && BelongTo(incoming, roots) && Shaped(t, digested)
    ensures Reconcile(t, true, roots, incoming, digested) == Replace(t, roots, Keyed(incoming))
  {
    var kept := DeleteStale(t, roots, incoming, digested);
    InsertMissingRows(kept, incoming);
    KeptRows(t, roots, incoming, digested);
    RowsBelong(incoming, roots, digested);
    hide Canonical, BelongTo, Shaped, Keyed, InsertMissing, DeleteStale, Replace;
    KeptAndMissing(t, roots, Keyed(incoming), kept);
  }

  lemma KeptAndMissing(t: Table, roots: set<int>, rows: Table, kept: Table)
    requires forall k :: k in rows ==> k.root in roots
    requires forall k :: k in kept ==> k in t && kept[k] == t[k]
    requires forall k :: k in t ==> (k in kept <==> k.root !in roots || (k in rows && rows[k] == t[k]))
    ensures rows + kept == Replace(t, roots, rows)
  {}

  lemma KeptRows(t: Table, roots: set<int>, incoming: seq<Row>, digested: bool)
    requires Canonical(incoming, digested) && Shaped(t, digested)
    ensures var kept := DeleteStale(t, roots, incoming, digested);
            && (forall k :: k in kept ==> k in t && kept[k] == t[k])
            && forall k :: k in t ==>
                 (k in kept <==> k.root !in roots || (k in Keyed(incoming) && Keyed(incoming)[k] == t[k]))
  {
    forall k | k in t
      ensures Stale(k, t[k], roots, incoming, digested)
              <==> k.root in roots && !(k in Keyed(incoming) && Keyed(incoming)[k] == t[k])
    {
      SurvivingRow(k, t[k], roots, incoming, digested);
    }
    hide Canonical, Keyed, Stale;
  }

  lemma RowsBelong(incoming: seq<Row>, roots: set<int>, digested: bool)
    requires Canonical(incoming, digested) && BelongTo(incoming, roots)
    ensures forall k :: k in Keyed(incoming) ==> k.root in roots
  {
    KeyedRows(incoming, digested);
    forall k | k in Keyed(incoming)
      ensures k.root in roots
    {
      var i :| 0 <= i < |incoming| && incoming[i].Key() == k;
      assert incoming[i] in incoming;
    }
  }

  /** Limiting the delete to roots that have rows, or skipping it when none has, deletes the same rows. */
  lemma SameDeletion(t: Table, roots: set<int>, incoming: seq<Row>, digested: bool)
    ensures var existing := ExistingRoots(t, roots);
            DeleteStale(t, roots, incoming, digested)
            == if existing != {} then DeleteStale(t, existing, incoming, digested) else t
  {
    var existing := ExistingRoots(t, roots);
    forall k | k in t
      ensures k.root in existing <==> k.root in roots
    {}
    if existing != {} {
      assert DeleteStale(t, existing, incoming, digested) == DeleteStale(t, roots, incoming, digested);
    } else {
      assert DeleteStale(t, roots, incoming, digested) == t;
    }
  }

  /**
   * What the importer runs: the delete is limited to roots that have rows, and skipped
   * when none has. The table it leaves is the same replacement, at the same count of rows.
   */
  lemma ExistingRootsSuffice(t: Table, roots: set<int>, incoming: seq<Row>, digested: bool)
    requires Canonical(incoming, digested) && BelongTo(incoming, roots) && Shaped(t, digested)
    ensures var existing := ExistingRoots(t, roots);
            && Reconcile(t, existing != {}, existing, incoming, digested) == Replace(t, roots, Keyed(incoming))
            && Affected(t, existing != {}, existing, incoming, digested) == Affected(t, true, roots, incoming, digested)
  {
    hide Canonical, BelongTo, Shaped, Keyed, InsertMissing, DeleteStale, ExistingRoots, Replace;
    SameDeletion(t, roots, incoming, digested);
    ReconcileIsReplacement(t, roots, incoming, digested);
  }

  lemma RowsAreShaped(incoming: seq<Row>, digested: bool)
    requires Canonical(incoming, digested)
    ensures forall k :: k in Keyed(incoming) ==> Keyed(incoming)[k].Some? == digested
  {
    KeyedRows(incoming, digested);
    forall k | k in Keyed(incoming)
      ensures Keyed(incoming)[k].Some? == digested
    {
      var i :| 0 <= i < |incoming| && incoming[i].Key() == k;
      assert incoming[i] in incoming;
    }
  }

  /** Rows deleted plus rows inserted: the number a reconciliation reports. */
  ghost function Affected(t: Table, deleteStale: bool, roots: set<int>, incoming: seq<Row>, digested: bool): int {
    var kept := if deleteStale then DeleteStale(t, roots, incoming, digested) else t;
    |t| - |kept| + |InsertMissing(kept, incoming)| - |kept|
  }

  lemma NothingStaleAfter(t: Table, roots: set<int>, incoming: seq<Row>, digested: bool)
    requires Canonical(incoming, digested) && Shaped(t, digested)
    ensures var after := Replace(t, roots, Keyed(incoming));
            DeleteStale(after, roots, incoming, digested) == after
  {
    var after := Replace(t, roots, Keyed(incoming));
    RowsAreShaped(incoming, digested);
    forall k | k in after
      ensures !Stale(k, after[k], roots, incoming, digested)
    {
      SurvivingRow(k, after[k], roots, incoming, digested);
    }
  }

  lemma NothingMissingAfter(t: Table, roots: set<int>, incoming: seq<Row>)
    ensures var after := Replace(t, roots, Keyed(incoming));
            InsertMissing(after, incoming) == after
  {
    var after := Replace(t, roots, Keyed(incoming));
    InsertMissingRows(after, incoming);
    assert Keyed(incoming) + after == after;
  }

  /** Reconciling again with the same rows changes nothing and reports zero affected rows. */
  lemma ReconcileAgain(t: Table, roots: set<int>, incoming: seq<Row>, digested: bool, deleteStale: bool)
    requires Canonical(incoming, digested) && Shaped(t, digested)
    ensures var after := Replace(t, roots, Keyed(incoming));
            && Reconcile(after, deleteStale, roots, incoming, digested) == after
            && Affected(after, deleteStale, roots, incoming, digested) == 0
  {
    NothingStaleAfter(t, roots, incoming, digested);
    NothingMissingAfter(t, roots, incoming);
  }

  /** Replacements of disjoint root sets commute. */
  lemma ReplacementsCommute(t: Table, rootsA: set<int>, rowsA: Table, rootsB: set<int>, rowsB: Table)
    requires rootsA !! rootsB
    requires forall k :: k in rowsA ==> k.root in rootsA
    requires forall k :: k in rowsB ==> k.root in rootsB
    ensures Replace(Replace(t, rootsA, rowsA), rootsB, rowsB) == Replace(Replace(t, rootsB, rowsB), rootsA, rowsA)
  {
    var ab := Replace(Replace(t, rootsA, rowsA), rootsB, rowsB);
    var ba := Replace(Replace(t, rootsB, rowsB), rootsA, rowsA);
    forall k
      ensures k in ab <==> k in ba
      ensures k in ab ==> ab[k] == ba[k]
    {}
  }

  lemma {:induction false} InsertMissingConcat(t: Table, a: seq<Row>, b: seq<Row>)
    ensures InsertMissing(t, a + b) == InsertMissing(InsertMissing(t, a), b)
    decreases |a|
  {
    if a == [] {
      assert a + b == b;
    } else {
      assert (a + b)[1..] == a[1..] + b;
      InsertMissingConcat(if a[0].Key() in t then t else t[a[0].Key() := a[0].identity], a[1..], b);
    }
  }

  const POSTGRES_BIND_PARAMETER_LIMIT := 65535

  /** A batch never needs more bind parameters than one statement may have. */
  function PostgresSafeBatchSize(requested: int, columnCount: int): (r: Result<int>)
    ensures r.Ok? <==> 1 <= requested && 1 <= columnCount <= POSTGRES_BIND_PARAMETER_LIMIT
    ensures r.Ok? ==> 1 <= r.value <= requested && r.value * columnCount <= POSTGRES_BIND_PARAMETER_LIMIT
    ensures r.Ok? && r.value < requested ==> (r.value + 1) * columnCount > POSTGRES_BIND_PARAMETER_LIMIT
  {
    if requested < 1 then Err("chunk size must be positive")
    else if columnCount < 1 then Err("insert schema has no columns")
    else
      var maxRows := POSTGRES_BIND_PARAMETER_LIMIT / columnCount;
      if maxRows < 1 then Err("insert schema has too many columns")
      else Ok(if requested < maxRows then requested else maxRows)
  }

  /** One relation table of the database. */
  class RelationTable {
    var rows: Table
    const digested: bool

    constructor (rows: Table, digested: bool)
      ensures this.rows == rows && this.digested == digested
    {
      this.rows := rows;
      this.digested := digested;
    }

    /** Insert the rows in batches that respect the bind-parameter limit. */
    method DoWrite(items: seq<Row>, chunkSize: int, columnCount: int) returns (written: Result<int>)
      modifies this
      ensures written.Ok? <==> items == [] || PostgresSafeBatchSize(chunkSize, columnCount).Ok?
      ensures written.Ok? ==> rows == InsertMissing(old(rows), items) && written.value == |rows| - |old(rows)|
      ensures written.Err? ==> rows == old(rows)
    {
      if |items| == 0 {
        return Ok(0);
      }
      var safe := PostgresSafeBatchSize(chunkSize, columnCount);
      if safe.Err? {
        return Err(safe.error);
      }
      var size := safe.value;
      var start, end, affected := 0, size, 0;
      assert items[..0] == [];
      while start < |items|
        invariant 0 <= start && end == start + size
        invariant var done := if start < |items| then start else |items|;
                  rows == InsertMissing(old(rows), items[..done])
        invariant affected == |rows| - |old(rows)|
        decreases |items| - start
      {
        if end > |items| {
          end := |items|;
        }
        var part := items[start..end];
        InsertMissingConcat(old(rows), items[..start], part);
        assert items[..start] + part == items[..end];
        var before := |rows|;
        rows := InsertMissing(rows, part);
        affected := affected + |rows| - before;
        start := start + size;
        end := start + size;
      }
      assert items[..|items|] == items;
      written := Ok(affected);
    }

    /** Build the parallel key arrays, delete the stale rows of `rootIDs`, then insert `incoming`. */
    method ReconcileRelation(
        deleteStale: bool, rootIDs: seq<int>, incoming: seq<Row>, chunkSize: int, columnCount: int)
      returns (affected: Result<int>)
      modifies this
      ensures affected.Ok? <==> incoming == [] || PostgresSafeBatchSize(chunkSize, columnCount).Ok?
      ensures var roots := RootSet(rootIDs);
              affected.Ok? ==>
                && rows == Reconcile(old(rows), deleteStale, roots, incoming, digested)
                && affected.value == Affected(old(rows), deleteStale, roots, incoming, digested)
    {
      if !deleteStale {
        affected := DoWrite(incoming, chunkSize, columnCount);
        return;
      }
      var parents: seq<int>, keys: seq<RelationKey>, identities: seq<Option<Digest>> := [], [], [];
      for i := 0 to |incoming|
        invariant |parents| == |keys| == |identities| == i
        invariant forall j :: 0 <= j < i ==> incoming[j] == Row(parents[j], keys[j], identities[j])
      {
        parents := parents + [incoming[i].root];
        keys := keys + [incoming[i].key];
        identities := identities + [incoming[i].identity];
      }
      ghost var roots := RootSet(rootIDs);
      var kept := map k | k in rows && !(k.root in rootIDs && forall j :: 0 <= j < |parents| ==>
          !Matches(k, rows[k], Row(parents[j], keys[j], identities[j]), digested)) :: rows[k];
      forall k | k in rows
        ensures k in kept <==> !Stale(k, rows[k], roots, incoming, digested)
      {
        if forall j :: 0 <= j < |parents| ==> !Matches(k, rows[k], Row(parents[j], keys[j], identities[j]), digested) {
          forall row | row in incoming
            ensures !Matches(k, rows[k], row, digested)
          {
            var j :| 0 <= j < |incoming| && incoming[j] == row;
          }
        }
      }
      assert kept == DeleteStale(rows, roots, incoming, digested);
      var deleted := |rows| - |kept|;
      rows := kept;
      var written := DoWrite(incoming, chunkSize, columnCount);
      affected := if written.Ok? then Ok(deleted + written.value) else Err(written.error);
    }

    /** The reconciliation a chunk transaction performs on this table. */
    method ReconcileChunk(rootIDs: seq<int>, incoming: seq<Row>, chunkSize: int, columnCount: int)
      returns (affected: Result<int>)
      requires Canonical(incoming, digested) && BelongTo(incoming, RootSet(rootIDs)) && Shaped(rows, digested)
      modifies this
      ensures affected.Ok? <==> incoming == [] || PostgresSafeBatchSize(chunkSize, columnCount).Ok?
      ensures affected.Ok? ==> rows == Replace(old(rows), RootSet(rootIDs), Keyed(incoming))
      ensures affected.Ok? ==> affected.value == Affected(old(rows), true, RootSet(rootIDs), incoming, digested)
    {
      var existing := FindExistingRelationRoots(rootIDs);
      ghost var roots := RootSet(rootIDs);
      ExistingRootsSuffice(rows, roots, incoming, digested);
      assert |existing| > 0 <==> ExistingRoots(rows, roots) != {} by {
        if |existing| > 0 { assert existing[0] in ExistingRoots(rows, roots); }
        if ExistingRoots(rows, roots) != {} { assert Pick(ExistingRoots(rows, roots)) in existing; }
      }
      affected := ReconcileRelation(|existing| > 0, existing, incoming, chunkSize, columnCount);
    }

    /** Group the current rows by root and collect the roots, in any order. */
    method FindExistingRelationRoots(rootIDs: seq<int>) returns (existing: seq<int>)
      ensures RootSet(existing) == ExistingRoots(rows, RootSet(rootIDs))
    {
      existing := [];
      if |rootIDs| == 0 {
        return;
      }
      var found := set k | k in rows && k.root in rootIDs :: k.root;
      while found != {}
        invariant RootSet(existing) + found == ExistingRoots(rows, RootSet(rootIDs))
        decreases |found|
      {
        ghost var some := Pick(found);
        var r :| r in found;
        existing := existing + [r];
        found := found - {r};
      }
    }
  }
}
