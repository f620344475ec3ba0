/** What a committed chunk leaves in the business tables, row by row. */
module ChunkRows {
  import opened Options
  import opened Reconciliation
  import opened Database

  /** Every root of `rows` has its row there, every other root its row from before. */
  ghost predicate RootsUpserted(roots: map<int, int>, rows: map<int, int>, roots': map<int, int>) {
    && (forall id :: id in rows ==> id in roots' && roots'[id] == rows[id])
    && (forall id :: id !in rows ==> (id in roots' <==> id in roots) && (id in roots ==> roots'[id] == roots[id]))
  }

  /** Below the batch's roots stand exactly the batch's rows; elsewhere nothing changed. */
  ghost predicate RelationsReplaced(t: Table, batch: Batch, t': Table) {
    && (forall row :: row in batch.rows ==> row.Key() in t' && t'[row.Key()] == row.identity)
    && (forall k :: k in t' && k.root in batch.rootIDs ==> exists row :: row in batch.rows && row.Key() == k)
    && (forall k: RowKey :: k.root !in batch.rootIDs ==> (k in t' <==> k in t) && (k in t ==> t'[k] == t[k]))
  }

  /** The tables of one entity took a batch; those of other entities are as before. */
  ghost predicate EntityWritten(content: map<Entity, Content>, e: Entity, batch: Batch, content': map<Entity, Content>) {
    && content'.Keys == content.Keys + {e}
    && (forall other :: other in content && other != e ==> content'[other] == content[other])
    && RootsUpserted(EntityContent(content, e).roots, batch.rootRows, content'[e].roots)
    && (WellFormedBatch(batch) ==> RelationsReplaced(EntityContent(content, e).relations, batch, content'[e].relations))
  }

  /** The tables of one entity took root rows only. */
  ghost predicate RootsWritten(content: map<Entity, Content>, e: Entity, rows: map<int, int>, content': map<Entity, Content>) {
    && content'.Keys == content.Keys + {e}
    && (forall other :: other in content && other != e ==> content'[other] == content[other])
    && RootsUpserted(EntityContent(content, e).roots, rows, content'[e].roots)
    && content'[e].relations == EntityContent(content, e).relations
  }

  lemma BatchUpserts(c: Content, batch: Batch)
    ensures RootsUpserted(c.roots, batch.rootRows, WriteBatch(c, batch).roots)
  {
    hide ExistingRoots, Reconcile, RootSet;
  }

  lemma BatchIsReplacement(c: Content, batch: Batch)
    requires WellFormedBatch(batch)
    ensures WriteBatch(c, batch).relations == Replace(c.relations, RootSet(batch.rootIDs), Keyed(batch.rows))
  {
    ExistingRootsSuffice(c.relations, RootSet(batch.rootIDs), batch.rows, true);
    hide Canonical, BelongTo, Keyed, Reconcile, ExistingRoots, RootSet;
  }

  lemma BatchKeys(batch: Batch)
    requires WellFormedBatch(batch)
    ensures forall row :: row in batch.rows ==> row.Key() in Keyed(batch.rows) && Keyed(batch.rows)[row.Key()] == row.identity
    ensures forall k :: k in Keyed(batch.rows) ==> k.root in batch.rootIDs && exists row :: row in batch.rows && row.Key() == k
  {
    KeyedRows(batch.rows, true);
    RowsBelong(batch.rows, RootSet(batch.rootIDs), true);
    hide Canonical, BelongTo, Keyed, WellFormedBatch;
    forall row | row in batch.rows
      ensures row.Key() in Keyed(batch.rows) && Keyed(batch.rows)[row.Key()] == row.identity
    {
      var i :| 0 <= i < |batch.rows| && batch.rows[i] == row;
      assert batch.rows[i].Key() in Keyed(batch.rows);
    }
    forall k | k in Keyed(batch.rows)
      ensures exists row :: row in batch.rows && row.Key() == k
    {
      var i :| 0 <= i < |batch.rows| && batch.rows[i].Key() == k;
      assert batch.rows[i] in batch.rows;
    }
  }

  lemma ReplacedRows(t: Table, batch: Batch, rows: Table)
    requires forall row :: row in batch.rows ==> row.Key() in rows && rows[row.Key()] == row.identity
    requires forall k :: k in rows ==> k.root in batch.rootIDs && exists row :: row in batch.rows && row.Key() == k
    ensures RelationsReplaced(t, batch, Replace(t, RootSet(batch.rootIDs), rows))
  {}

  lemma BatchReplaces(c: Content, batch: Batch)
    requires WellFormedBatch(batch)
    ensures RelationsReplaced(c.relations, batch, WriteBatch(c, batch).relations)
  {
    BatchIsReplacement(c, batch);
    BatchKeys(batch);
    hide *;
    ReplacedRows(c.relations, batch, Keyed(batch.rows));
  }

  /** A chunk that is committed and recorded has its batch in the tables, and nothing else of them changed. */
  lemma RecordedBatch(db: Db, order: Order, chunk: ChunkMetadata, batch: Batch)
    ensures var r := RecordCompletedChunk(CommitBatch(db, order, chunk, batch), order, chunk);
            r.Ok? ==> EntityWritten(db.content, order.entity, batch, r.value.content)
  {
    var c := EntityContent(db.content, order.entity);
    BatchUpserts(c, batch);
    if WellFormedBatch(batch) {
      BatchReplaces(c, batch);
    }
    CommittedContent(db, order, chunk, batch);
    hide CommitBatch, EntityWritten;
  }

  lemma CommittedContent(db: Db, order: Order, chunk: ChunkMetadata, batch: Batch)
    requires var c := EntityContent(db.content, order.entity);
             && RootsUpserted(c.roots, batch.rootRows, WriteBatch(c, batch).roots)
             && (WellFormedBatch(batch) ==> RelationsReplaced(c.relations, batch, WriteBatch(c, batch).relations))
    ensures EntityWritten(db.content, order.entity, batch, CommitBatch(db, order, chunk, batch).content)
  {
    hide RootsUpserted, RelationsReplaced, WriteBatch, WellFormedBatch, EntityContent;
  }

  lemma WrittenRoots(db: Db, order: Order, write: Result<map<int, int>>)
    ensures var r := InsertRoots(db, order, write);
            r.Ok? ==> write.Ok? && RootsWritten(db.content, order.entity, write.value, r.value.content)
  {}
}
