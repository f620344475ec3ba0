/**
 * The durable chunk ledger of one entity, and the coverage query that decides whether
 * an entity may be marked complete.
 */
module Coverage {
  import opened Sets

  /** One ledger row without its key: `first_item_index` and `item_count`. */
  datatype ChunkRange = ChunkRange(first: int, count: int)

  /** The ledger rows of one run and entity, keyed by `chunk_index` (unique). */
  type Ledger = map<int, ChunkRange>

  /** `coalesce(sum(item_count), 0)` over the ledger. */
  ghost function Items(ledger: Ledger): int
    decreases |ledger|
  {
    if |ledger| == 0 then 0
    else
      var i := Pick(ledger.Keys);
      ledger[i].count + Items(ledger - {i})
  }

  /** The sum does not depend on the order in which the rows are visited. */
  lemma {:induction false} ItemsRemove(ledger: Ledger, k: int)
    requires k in ledger
    ensures Items(ledger) == ledger[k].count + Items(ledger - {k})
    decreases |ledger|
  {
    var i := Pick(ledger.Keys);
    if i != k {
      ItemsRemove(ledger - {i}, k);
      ItemsRemove(ledger - {k}, i);
      assert ledger - {i} - {k} == ledger - {k} - {i};
    }
  }

  lemma NoItems()
    ensures Items(map[]) == 0
  {}

  lemma ItemsInsert(ledger: Ledger, k: int, range: ChunkRange)
    requires k !in ledger
    ensures Items(ledger[k := range]) == Items(ledger) + range.count
  {
    ItemsRemove(ledger[k := range], k);
    assert ledger[k := range] - {k} == ledger;
  }

  /** Every row written by the importer has a non-negative index and at least one item. */
  ghost predicate Recorded(ledger: Ledger) {
    forall i :: i in ledger ==> 0 <= i && 0 < ledger[i].count
  }

  lemma {:induction false} ItemsPositive(ledger: Ledger)
    requires Recorded(ledger)
    ensures 0 <= Items(ledger)
    ensures Items(ledger) == 0 <==> ledger == map[]
    decreases |ledger|
  {
    if |ledger| != 0 {
      var i := Pick(ledger.Keys);
      ItemsRemove(ledger, i);
      ItemsPositive(ledger - {i});
    }
  }

  /** The row filter that the coverage query counts as `invalid_chunks`. */
  predicate InvalidChunk(i: int, range: ChunkRange, chunkSize: int, totalItems: int, totalChunks: int) {
    || i >= totalChunks
    || range.first != i * chunkSize
    || range.count != if i == totalChunks - 1 then totalItems - range.first else chunkSize
  }

  /** The guards of the completing update: row count, item sum and zero invalid rows. */
  ghost predicate CoverageAccepts(ledger: Ledger, chunkSize: int, totalItems: int, totalChunks: int) {
    && |ledger| == totalChunks
    && Items(ledger) == totalItems
    && forall i :: i in ledger ==> !InvalidChunk(i, ledger[i], chunkSize, totalItems, totalChunks)
  }

  /** The query itself: it visits the rows in any order. */
  method QueryCoverage(ledger: Ledger, chunkSize: int, totalItems: int, totalChunks: int)
    returns (completedChunks: nat, completedItems: int, invalidChunks: nat)
    ensures (completedChunks == totalChunks && completedItems == totalItems && invalidChunks == 0)
            <==> CoverageAccepts(ledger, chunkSize, totalItems, totalChunks)
    ensures completedChunks == |ledger| && completedItems == Items(ledger)
  {
    NoItems();
    hide Items, InvalidChunk;
    completedChunks, completedItems, invalidChunks := 0, 0, 0;
    var rest := ledger;
    while rest != map[]
      invariant rest.Keys <= ledger.Keys && forall i :: i in rest ==> rest[i] == ledger[i]
      invariant completedChunks + |rest| == |ledger|
      invariant completedItems + Items(rest) == Items(ledger)
      invariant invalidChunks == 0 <==>
                forall i :: i in ledger && i !in rest ==>
                  !InvalidChunk(i, ledger[i], chunkSize, totalItems, totalChunks)
      decreases |rest|
    {
      ghost var witnessed := Pick(rest.Keys);
      var i :| i in rest;
      ItemsRemove(rest, i);
      var smaller := rest - {i};
      assert rest == smaller[i := rest[i]] && |rest| == |smaller| + 1;
      completedChunks := completedChunks + 1;
      completedItems := completedItems + rest[i].count;
      if InvalidChunk(i, rest[i], chunkSize, totalItems, totalChunks) {
        invalidChunks := invalidChunks + 1;
      }
      rest := smaller;
    }
  }

  /** The chunk indexes `0..n-1`. */
  function Indexes(n: nat): (s: set<int>)
    ensures |s| == n
    ensures forall i :: i in s <==> 0 <= i < n
  {
    if n == 0 then {} else Indexes(n - 1) + {n - 1}
  }

  /** Pigeonhole: `n` distinct indexes below `n` are all of them. */
  lemma Pigeonhole(s: set<int>, n: nat)
    requires |s| == n && forall i :: i in s ==> 0 <= i < n
    ensures s == Indexes(n)
  {
    SubsetCardinality(s, Indexes(n));
  }

  /**
   * The ledger tiles `[0, totalItems)`: the indexes are exactly `0..n-1`, the first
   * range starts at 0, each other one starts where its predecessor ends, all but the
   * last hold `chunkSize` items, and the last one ends at `totalItems`.
   */
  ghost predicate Tiles(ledger: Ledger, chunkSize: int, totalItems: int, totalChunks: int) {
    && 0 <= totalChunks
    && ledger.Keys == Indexes(totalChunks)
    && (if totalChunks == 0 then totalItems == 0 else ledger[0].first == 0 && End(ledger, totalChunks - 1) == totalItems)
    && (forall i :: 0 <= i < totalChunks - 1 ==> ledger[i].count == chunkSize)
    && (forall i :: 0 < i < totalChunks ==> ledger[i].first == End(ledger, i - 1))
  }

  ghost function End(ledger: Ledger, i: int): int
    requires i in ledger
  {
    ledger[i].first + ledger[i].count
  }

  lemma IndexesBefore(ledger: Ledger, last: int)
    requires 0 <= last && ledger.Keys == Indexes(last + 1)
    ensures (ledger - {last}).Keys == Indexes(last)
    ensures forall i :: 0 <= i < last ==> i in ledger && i in ledger - {last} && (ledger - {last})[i] == ledger[i]
    ensures last in ledger
  {}

  lemma DropLast(ledger: Ledger, chunkSize: int, totalItems: int, last: int)
    requires Tiles(ledger, chunkSize, totalItems, last + 1) && 0 <= last
    ensures Tiles(ledger - {last}, chunkSize, ledger[last].first, last)
  {
    IndexesBefore(ledger, last);
    hide Indexes;
  }

  /** Telescoping: the rows of a tiling add up to the position where the last one ends. */
  lemma {:induction false} Telescope(ledger: Ledger, chunkSize: int, totalItems: int, totalChunks: int)
    requires Tiles(ledger, chunkSize, totalItems, totalChunks)
    ensures |ledger| == totalChunks && Items(ledger) == totalItems
    decreases totalChunks
  {
    assert |ledger| == |ledger.Keys|;
    if totalChunks > 0 {
      var last := totalChunks - 1;
      DropLast(ledger, chunkSize, totalItems, last);
      Telescope(ledger - {last}, chunkSize, ledger[last].first, last);
      ItemsRemove(ledger, last);
    }
  }

  lemma NextProduct(i: int, size: int)
    ensures (i + 1) * size == i * size + size
  {}

  /** In a tiling, chunk `i` starts at item `i * chunkSize`. */
  lemma {:induction false} StartOf(ledger: Ledger, chunkSize: int, totalItems: int, totalChunks: int, i: int)
    requires Tiles(ledger, chunkSize, totalItems, totalChunks) && 0 <= i < totalChunks
    ensures ledger[i].first == i * chunkSize
    decreases i
  {
    if i > 0 {
      StartOf(ledger, chunkSize, totalItems, totalChunks, i - 1);
      NextProduct(i - 1, chunkSize);
    }
  }

  /**
   * The coverage query accepts exactly the ledgers that tile the source, given only
   * that recorded indexes are not negative.
   */
  lemma AcceptsIffTiles(ledger: Ledger, chunkSize: int, totalItems: int, totalChunks: int)
    requires forall i :: i in ledger ==> 0 <= i
    ensures CoverageAccepts(ledger, chunkSize, totalItems, totalChunks)
            <==> Tiles(ledger, chunkSize, totalItems, totalChunks)
  {
    if CoverageAccepts(ledger, chunkSize, totalItems, totalChunks) {
      AcceptedTiles(ledger, chunkSize, totalItems, totalChunks);
    }
    if Tiles(ledger, chunkSize, totalItems, totalChunks) {
      Telescope(ledger, chunkSize, totalItems, totalChunks);
      forall i | i in ledger
        ensures !InvalidChunk(i, ledger[i], chunkSize, totalItems, totalChunks)
      {
        StartOf(ledger, chunkSize, totalItems, totalChunks, i);
      }
    }
  }

  lemma AcceptedTiles(ledger: Ledger, chunkSize: int, totalItems: int, totalChunks: int)
    requires forall i :: i in ledger ==> 0 <= i
    requires CoverageAccepts(ledger, chunkSize, totalItems, totalChunks)
    ensures Tiles(ledger, chunkSize, totalItems, totalChunks)
  {
    assert |ledger.Keys| == |ledger|;
    assert forall i :: i in ledger ==> !InvalidChunk(i, ledger[i], chunkSize, totalItems, totalChunks);
    Pigeonhole(ledger.Keys, totalChunks);
    forall i | 0 < i < totalChunks
      ensures ledger[i].first == End(ledger, i - 1)
    {
      assert i in ledger && i - 1 in ledger;
      NextProduct(i - 1, chunkSize);
    }
    if totalChunks == 0 {
      assert ledger == map[];
    } else {
      assert 0 in ledger && totalChunks - 1 in ledger;
    }
  }

  ghost predicate Covers(range: ChunkRange, item: int) {
    range.first <= item < range.first + range.count
  }

  ghost predicate CoveredBy(ledger: Ledger, item: int) {
    exists i :: i in ledger && Covers(ledger[i], item)
  }

  /** An accepted ledger is a partition: each item lies in exactly one chunk, and nothing else is covered. */
  lemma AcceptedLedgerPartitions(ledger: Ledger, chunkSize: int, totalItems: int, totalChunks: int)
    requires Recorded(ledger)
    requires CoverageAccepts(ledger, chunkSize, totalItems, totalChunks)
    ensures forall item :: CoveredBy(ledger, item) <==> 0 <= item < totalItems
    ensures forall i, j, item :: i in ledger && j in ledger && Covers(ledger[i], item) && Covers(ledger[j], item) ==> i == j
  {
    AcceptsIffTiles(ledger, chunkSize, totalItems, totalChunks);
    forall item
      ensures CoveredBy(ledger, item) <==> 0 <= item < totalItems
    {
      if 0 <= item < totalItems {
        CoveringChunk(ledger, chunkSize, totalItems, totalChunks, item, totalChunks - 1);
      }
      if CoveredBy(ledger, item) {
        var i :| i in ledger && Covers(ledger[i], item);
        Ordered(ledger, chunkSize, totalItems, totalChunks, i, totalChunks - 1);
        Ordered(ledger, chunkSize, totalItems, totalChunks, 0, i);
      }
    }
    forall i, j, item | i in ledger && j in ledger && Covers(ledger[i], item) && Covers(ledger[j], item)
      ensures i == j
    {
      if i < j { Ordered(ledger, chunkSize, totalItems, totalChunks, i, j); }
      if j < i { Ordered(ledger, chunkSize, totalItems, totalChunks, j, i); }
    }
  }

  lemma {:induction false} Ordered(ledger: Ledger, chunkSize: int, totalItems: int, totalChunks: int, i: int, j: int)
    requires Recorded(ledger) && Tiles(ledger, chunkSize, totalItems, totalChunks)
    requires 0 <= i <= j < totalChunks
    ensures ledger[i].first <= ledger[j].first && End(ledger, i) <= End(ledger, j)
    ensures i < j ==> End(ledger, i) <= ledger[j].first
    decreases j
  {
    assert j in ledger;
    hide Indexes;
    if i < j {
      Ordered(ledger, chunkSize, totalItems, totalChunks, i, j - 1);
    }
  }

  lemma {:induction false} CoveringChunk(
      ledger: Ledger, chunkSize: int, totalItems: int, totalChunks: int, item: int, i: int)
    requires Tiles(ledger, chunkSize, totalItems, totalChunks)
    requires 0 <= i < totalChunks && 0 <= item < End(ledger, i)
    ensures CoveredBy(ledger, item)
    decreases i
  {
    if ledger[i].first <= item {
      assert Covers(ledger[i], item);
    } else {
      CoveringChunk(ledger, chunkSize, totalItems, totalChunks, item, i - 1);
    }
  }

  /** Why a row's index must be known to be non-negative: the query has no lower bound of its own. */
  lemma NegativeIndexIsAccepted()
    ensures CoverageAccepts(map[-1 := ChunkRange(-5, 5)], 5, 5, 1)
    ensures !Tiles(map[-1 := ChunkRange(-5, 5)], 5, 5, 1)
  {
    var ledger := map[-1 := ChunkRange(-5, 5)];
    ItemsRemove(ledger, -1);
    assert ledger - {-1} == map[];
    assert -1 in ledger.Keys && -1 !in Indexes(1);
  }
}
