/** Rows with a canonical key: one row per key, or an error when two rows of one key disagree. */
module CanonicalRows {
  import opened Options
  import opened Reconciliation
  import opened Ordering
  import Deduplication
  import Slots

  /** Two rows of one key with different payloads. */
  ghost predicate Clashing<T, K, P>(items: seq<Option<T>>, key: T -> K, payload: T -> P) {
    exists i, j :: && 0 <= i < |items| && 0 <= j < |items| && items[i].Some? && items[j].Some?
                   && key(items[i].value) == key(items[j].value) && payload(items[i].value) != payload(items[j].value)
  }

  /** After `n` rows: `seen` has a row of each key met so far, and no other, and all rows agree with it. */
  ghost predicate Tracked<T, K, P>(items: seq<Option<T>>, key: T -> K, payload: T -> P, n: nat, seen: map<K, T>)
    requires n <= |items|
  {
    && (forall j :: 0 <= j < n ==>
          items[j].Some? && key(items[j].value) in seen && payload(seen[key(items[j].value)]) == payload(items[j].value))
    && (forall k :: k in seen ==> key(seen[k]) == k && exists j :: 0 <= j < n && items[j] == Some(seen[k]))
  }

  /** A row is the first of its key exactly when the key has not been met. */
  lemma NewIsUnseen<T, K, P>(items: seq<Option<T>>, key: T -> K, payload: T -> P, n: nat, seen: map<K, T>)
    requires n < |items| && Tracked(items, key, payload, n, seen) && items[n].Some?
    ensures AllPresent(items[..n]) && AllPresent(items[..n + 1])
    ensures Firsts(Values(items[..n + 1]), key)
            == Firsts(Values(items[..n]), key) + if key(items[n].value) in seen then [] else [items[n].value]
  {
    var values := Values(items[..n + 1]);
    assert values[..n] == Values(items[..n]);
    if key(items[n].value) in seen {
      var j :| 0 <= j < n && items[j] == Some(seen[key(items[n].value)]);
      assert key(values[j]) == key(values[n]);
    } else {
      forall j | 0 <= j < n
        ensures key(values[j]) != key(values[n])
      {
        assert values[j] == items[j].value;
      }
    }
  }

  lemma KnownKey<T, K, P>(items: seq<Option<T>>, key: T -> K, payload: T -> P, n: nat, seen: map<K, T>)
    requires n < |items| && Tracked(items, key, payload, n, seen) && items[n].Some? && key(items[n].value) in seen
    ensures if payload(seen[key(items[n].value)]) == payload(items[n].value) then Tracked(items, key, payload, n + 1, seen)
            else Clashing(items, key, payload)
  {
    var j :| 0 <= j < n && items[j] == Some(seen[key(items[n].value)]);
  }

  lemma UnknownKey<T, K, P>(items: seq<Option<T>>, key: T -> K, payload: T -> P, n: nat, seen: map<K, T>)
    requires n < |items| && Tracked(items, key, payload, n, seen) && items[n].Some? && key(items[n].value) !in seen
    ensures Tracked(items, key, payload, n + 1, seen[key(items[n].value) := items[n].value])
  {
    var item := items[n].value;
    var seen' := seen[key(item) := item];
    forall k | k in seen'
      ensures key(seen'[k]) == k && exists j :: 0 <= j < n + 1 && items[j] == Some(seen'[k])
    {
      if k == key(item) { assert items[n] == Some(seen'[k]); }
    }
  }

  lemma TrackedAll<T, K, P>(items: seq<Option<T>>, key: T -> K, payload: T -> P, seen: map<K, T>)
    requires Tracked(items, key, payload, |items|, seen)
    ensures AllPresent(items) && None !in items && !Clashing(items, key, payload)
  {}

  lemma NothingTracked<T, K, P>(items: seq<Option<T>>, key: T -> K, payload: T -> P)
    ensures Tracked(items, key, payload, 0, map[])
    ensures AllPresent(items[..0]) && Firsts(Values(items[..0]), key) == []
  {}

  /** `deduplicateCanonicalRows`: keep the first row of a key; a later one must carry the same payload. */
  method DeduplicateCanonicalRows<T, K(==), P(==)>(items: seq<Option<T>>, key: T -> K, payload: T -> P)
      returns (r: Result<seq<T>>)
    ensures r.Err? <==> None in items || Clashing(items, key, payload)
    ensures r.Ok? ==> AllPresent(items) && r.value == Firsts(Values(items), key)
  {
    hide Tracked, Clashing, Firsts, AllPresent, Values;
    var seen: map<K, T> := map[];
    var kept: seq<T> := [];
    NothingTracked(items, key, payload);
    for i := 0 to |items|
      invariant Tracked(items, key, payload, i, seen)
      invariant AllPresent(items[..i]) && kept == Firsts(Values(items[..i]), key)
    {
      if items[i].None? {
        return Err("nil row");
      }
      var item := items[i].value;
      NewIsUnseen(items, key, payload, i, seen);
      if key(item) in seen {
        KnownKey(items, key, payload, i, seen);
        if payload(seen[key(item)]) != payload(item) {
          return Err("conflicting rows");
        }
      } else {
        UnknownKey(items, key, payload, i, seen);
        seen := seen[key(item) := item];
        kept := kept + [item];
      }
    }
    assert items[..|items|] == items;
    TrackedAll(items, key, payload, seen);
    r := Ok(kept);
  }

  /** `deduplicateComparable`: the first occurrence of each value, in order. */
  method DeduplicateComparable<T(==)>(items: seq<T>) returns (kept: seq<T>)
    ensures kept == Firsts(items, x => x)
    ensures forall x :: x in kept <==> x in items
    ensures forall i, j :: 0 <= i < j < |kept| ==> kept[i] != kept[j]
  {
    var seen: set<T> := {};
    kept := [];
    for i := 0 to |items|
      invariant forall x :: x in seen <==> x in items[..i]
      invariant forall x :: x in kept <==> x in seen
      invariant forall a, b :: 0 <= a < b < |kept| ==> kept[a] != kept[b]
      invariant kept == Firsts(items[..i], x => x)
    {
      FirstsGrow(items, x => x, i);
      assert items[..i + 1] == items[..i] + [items[i]];
      assert items[i] in items[..i] <==> exists j :: 0 <= j < i && items[j] == items[i];
      if items[i] !in seen {
        seen := seen + {items[i]};
        kept := kept + [items[i]];
      }
    }
    assert items[..|items|] == items;
  }

  /** Rows that were deduplicated by their conflict key are what reconciliation asks for. */
  lemma DeduplicatedRowsAreCanonical(items: seq<Row>, digested: bool)
    requires forall i :: 0 <= i < |items| ==> items[i].identity.Some? == digested
    ensures Canonical(Firsts(items, (row: Row) => row.Key()), digested)
  {
    var key := (row: Row) => row.Key();
    var kept := Firsts(items, key);
    var positions := FirstsKeepOrder(items, key);
    forall i, j | 0 <= i < j < |kept|
      ensures kept[i].Key() != kept[j].Key()
    {
      assert positions[j] in positions && IsNew(items, key, positions[j]);
      assert key(items[positions[i]]) != key(items[positions[j]]);
    }
    forall row | row in kept
      ensures row.identity.Some? == digested
    {
      var i :| 0 <= i < |kept| && kept[i] == row;
      assert items[positions[i]] == row;
    }
  }

  // ----- hashed rows -----

  /** Where a relation stores a row of a scope with a hash: one shape per hashed relation. */
  ghost predicate Addresses(place: (int, int) -> RowKey) {
    forall s, h, s', h' :: place(s, h) == place(s', h') ==> s == s' && h == h'
  }

  /** The table rows of the kept rows in memory. */
  ghost function Placed(heap: seq<Slots.Row>, kept: seq<nat>, place: (int, int) -> RowKey): (rows: seq<Row>)
    requires forall i :: 0 <= i < |kept| ==> kept[i] < |heap|
    ensures |rows| == |kept|
    ensures forall i :: 0 <= i < |kept| ==>
              rows[i].Key() == place(heap[kept[i]].scope, heap[kept[i]].hash) && rows[i].identity == heap[kept[i]].identity
  {
    seq(|kept|, i requires 0 <= i < |kept| =>
      var k := place(heap[kept[i]].scope, heap[kept[i]].hash);
      Row(k.root, k.key, heap[kept[i]].identity))
  }

  /**
   * Hashed rows that were deduplicated have their own conflict keys and identities: they are what the
   * reconciliation of a digest relation asks for.
   */
  lemma HashedRowsAreCanonical(
      slot: (Digest, nat) -> int, attempts: nat, entries: set<Slots.Entry>, before: seq<Slots.Row>, after: seq<Slots.Row>,
      kept: seq<nat>, hashes: map<Slots.IdentityKey, int>, digest: Slots.Payload -> Digest, place: (int, int) -> RowKey)
    requires Deduplication.Outcome(slot, attempts, entries) == Some(hashes)
    requires Deduplication.Deduplicated(before, after, kept, hashes, digest) && Addresses(place)
    ensures forall i :: 0 <= i < |kept| ==> kept[i] < |after|
    ensures Canonical(Placed(after, kept, place), true)
  {
    Deduplication.OutcomeIsCorrect(slot, attempts, entries);
    forall i | 0 <= i < |kept|
      ensures kept[i] < |after| && after[kept[i]].identity.Some?
      ensures after[kept[i]].scope == before[kept[i]].scope
      ensures Deduplication.KeyOf(before[kept[i]], digest) in hashes
              && after[kept[i]].hash == hashes[Deduplication.KeyOf(before[kept[i]], digest)]
    {}
    hide Deduplication.Outcome;
    var rows := Placed(after, kept, place);
    forall i, j | 0 <= i < j < |rows|
      ensures rows[i].Key() != rows[j].Key()
    {
      assert Deduplication.KeyOf(before[kept[i]], digest) != Deduplication.KeyOf(before[kept[j]], digest);
    }
  }
}
