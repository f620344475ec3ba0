/**
 * A batch of hashed relation rows, deduplicated in place: rows are referred to by position,
 * as the importer refers to them by pointer, and Go's map iteration order is arbitrary.
 */
module Deduplication {
  import opened Options
  import opened Ordering
  import opened Slots

  function KeyOf(row: Row, digest: Payload -> Digest): IdentityKey {
    IdentityKey(row.scope, digest(row.payload))
  }

  function EntryOf(row: Row, digest: Payload -> Digest): Entry {
    Entry(KeyOf(row, digest), row.hash, row.payload)
  }

  ghost predicate Points(heap: seq<Row>, items: seq<Option<nat>>) {
    forall i :: 0 <= i < |items| && items[i].Some? ==> items[i].value < |heap|
  }

  /** What the batch says, with order and repetition forgotten. */
  ghost function EntriesOf(heap: seq<Row>, items: seq<Option<nat>>, digest: Payload -> Digest): set<Entry>
    requires Points(heap, items)
  {
    set i | 0 <= i < |items| && items[i].Some? :: EntryOf(heap[items[i].value], digest)
  }

  /** Two rows claim one identity with different payloads or legacy hashes. */
  ghost predicate Conflicting(entries: set<Entry>) {
    exists a, b :: a in entries && b in entries && a.key == b.key && a != b
  }

  ghost function Keys(entries: set<Entry>): set<IdentityKey> {
    set e | e in entries :: e.key
  }

  ghost function Scopes(entries: set<Entry>): set<int> {
    set e | e in entries :: e.key.scope
  }

  ghost function LegaciesOf(entries: set<Entry>, scope: int): set<int> {
    set e | e in entries && e.key.scope == scope :: e.legacy
  }

  ghost function DigestsOf(entries: set<Entry>, scope: int, legacy: int): set<Digest> {
    set e | e in entries && e.key.scope == scope && e.legacy == legacy :: e.key.digest
  }

  ghost function ScopeGroups(entries: set<Entry>, scope: int): Groups {
    map h | h in LegaciesOf(entries, scope) :: DigestsOf(entries, scope, h)
  }

  lemma GroupsAreFilled(entries: set<Entry>, scope: int)
    ensures forall h :: h in ScopeGroups(entries, scope) ==> ScopeGroups(entries, scope)[h] != {}
  {
    forall h | h in ScopeGroups(entries, scope)
      ensures ScopeGroups(entries, scope)[h] != {}
    {
      var e :| e in entries && e.key.scope == scope && e.legacy == h;
      assert e.key.digest in DigestsOf(entries, scope, h);
    }
  }

  lemma GroupsAreDisjoint(entries: set<Entry>, scope: int)
    requires !Conflicting(entries)
    ensures GroupsOk(ScopeGroups(entries, scope))
  {
    GroupsAreFilled(entries, scope);
    var groups := ScopeGroups(entries, scope);
    forall g, h, d | g in groups && h in groups && d in groups[g] && d in groups[h]
      ensures g == h
    {
      var a :| a in entries && a.key.scope == scope && a.legacy == g && a.key.digest == d;
      var b :| b in entries && b.key.scope == scope && b.legacy == h && b.key.digest == d;
      assert a.key == b.key;
    }
  }

  ghost function ScopeHashes(slot: (Digest, nat) -> int, attempts: nat, entries: set<Entry>, scope: int): Option<map<Digest, int>> {
    GroupsAreFilled(entries, scope);
    AllocateScope(slot, attempts, ScopeGroups(entries, scope))
  }

  ghost function HashIn(hashes: Option<map<Digest, int>>, d: Digest): int {
    if hashes.Some? && d in hashes.value then hashes.value[d] else 0
  }

  ghost predicate Fails(slot: (Digest, nat) -> int, attempts: nat, entries: set<Entry>) {
    Conflicting(entries) || exists s :: s in Scopes(entries) && ScopeHashes(slot, attempts, entries, s).None?
  }

  /** The hash of every identity of the batch, as a function of the set of entries alone. */
  ghost function Outcome(slot: (Digest, nat) -> int, attempts: nat, entries: set<Entry>): Option<map<IdentityKey, int>> {
    if Fails(slot, attempts, entries) then None
    else Some(map k | k in Keys(entries) :: HashIn(ScopeHashes(slot, attempts, entries, k.scope), k.digest))
  }

  // ----- what the outcome guarantees -----

  lemma ScopeDomain(slot: (Digest, nat) -> int, attempts: nat, entries: set<Entry>, scope: int)
    requires !Conflicting(entries) && ScopeHashes(slot, attempts, entries, scope).Some?
    ensures var hashes := ScopeHashes(slot, attempts, entries, scope).value;
            Injective(hashes) && forall d :: d in hashes <==> IdentityKey(scope, d) in Keys(entries)
  {
    GroupsAreDisjoint(entries, scope);
    var groups := ScopeGroups(entries, scope);
    AllocationIsCorrect(slot, attempts, groups);
    hide AllocateScope, GroupsOk, Least;
    forall d
      ensures d in Members(groups, groups.Keys) <==> IdentityKey(scope, d) in Keys(entries)
    {
      if IdentityKey(scope, d) in Keys(entries) {
        var e :| e in entries && e.key == IdentityKey(scope, d);
        assert e.legacy in groups && d in groups[e.legacy];
      }
    }
  }

  /** The identity of `e` has the least digest among the rows of its scope with its legacy hash. */
  ghost predicate LeastOfItsHash(entries: set<Entry>, e: Entry) {
    e in entries
    && forall x :: x in entries && x.key.scope == e.key.scope && x.legacy == e.legacy ==> e.key.digest <= x.key.digest
  }

  /** On success: one hash per identity, distinct within a scope, and the least digest of each legacy hash keeps it. */
  lemma OutcomeIsCorrect(slot: (Digest, nat) -> int, attempts: nat, entries: set<Entry>)
    ensures var r := Outcome(slot, attempts, entries);
            r.Some? ==>
              && r.value.Keys == Keys(entries)
              && (forall j, k :: j in r.value && k in r.value && j.scope == k.scope && r.value[j] == r.value[k] ==> j == k)
              && (forall e :: LeastOfItsHash(entries, e) ==> r.value[e.key] == e.legacy)
  {
    var r := Outcome(slot, attempts, entries);
    if r.Some? {
      forall j, k | j in r.value && k in r.value && j.scope == k.scope && r.value[j] == r.value[k]
        ensures j == k
      {
        DistinctInScope(slot, attempts, entries, j, k);
      }
      forall e | LeastOfItsHash(entries, e)
        ensures r.value[e.key] == e.legacy
      {
        LeastKeeps(slot, attempts, entries, e);
      }
    }
  }

  lemma DistinctInScope(slot: (Digest, nat) -> int, attempts: nat, entries: set<Entry>, j: IdentityKey, k: IdentityKey)
    requires !Fails(slot, attempts, entries) && j in Keys(entries) && k in Keys(entries) && j.scope == k.scope
    requires HashIn(ScopeHashes(slot, attempts, entries, j.scope), j.digest)
             == HashIn(ScopeHashes(slot, attempts, entries, k.scope), k.digest)
    ensures j == k
  {
    assert j.scope in Scopes(entries);
    hide ScopeHashes;
    ScopeDomain(slot, attempts, entries, j.scope);
    assert IdentityKey(j.scope, j.digest) == j && IdentityKey(k.scope, k.digest) == k;
  }

  lemma LeastKeeps(slot: (Digest, nat) -> int, attempts: nat, entries: set<Entry>, e: Entry)
    requires !Fails(slot, attempts, entries) && LeastOfItsHash(entries, e)
    ensures HashIn(ScopeHashes(slot, attempts, entries, e.key.scope), e.key.digest) == e.legacy
  {
    var groups := ScopeGroups(entries, e.key.scope);
    assert e.key.scope in Scopes(entries);
    GroupsAreDisjoint(entries, e.key.scope);
    AllocationIsCorrect(slot, attempts, groups);
    hide AllocateScope, GroupsOk, Members, Injective;
    assert e.legacy in groups && e.key.digest in groups[e.legacy];
    assert Least(groups[e.legacy]) == e.key.digest by {
      var least := Least(groups[e.legacy]);
      var x :| x in entries && x.key.scope == e.key.scope && x.legacy == e.legacy && x.key.digest == least;
    }
  }

  /** Order and repetition of the rows do not matter. */
  lemma OrderIsIrrelevant(
      slot: (Digest, nat) -> int, attempts: nat, heap: seq<Row>, items: seq<Option<nat>>, heap': seq<Row>,
      items': seq<Option<nat>>, digest: Payload -> Digest)
    requires Points(heap, items) && Points(heap', items')
    requires forall row :: Occurs(heap, items, row) <==> Occurs(heap', items', row)
    ensures EntriesOf(heap, items, digest) == EntriesOf(heap', items', digest)
    ensures Outcome(slot, attempts, EntriesOf(heap, items, digest)) == Outcome(slot, attempts, EntriesOf(heap', items', digest))
  {
    OccurrencesGiveEntries(heap, items, heap', items', digest);
    OccurrencesGiveEntries(heap', items', heap, items, digest);
    hide Outcome;
    assert EntriesOf(heap, items, digest) == EntriesOf(heap', items', digest);
  }

  ghost predicate Occurs(heap: seq<Row>, items: seq<Option<nat>>, row: Row)
    requires Points(heap, items)
  {
    exists i :: 0 <= i < |items| && items[i].Some? && heap[items[i].value] == row
  }

  lemma OccurrencesGiveEntries(
      heap: seq<Row>, items: seq<Option<nat>>, heap': seq<Row>, items': seq<Option<nat>>, digest: Payload -> Digest)
    requires Points(heap, items) && Points(heap', items')
    requires forall row :: Occurs(heap, items, row) ==> Occurs(heap', items', row)
    ensures EntriesOf(heap, items, digest) <= EntriesOf(heap', items', digest)
  {
    forall e | e in EntriesOf(heap, items, digest)
      ensures e in EntriesOf(heap', items', digest)
    {
      var i :| 0 <= i < |items| && items[i].Some? && EntryOf(heap[items[i].value], digest) == e;
      assert Occurs(heap, items, heap[items[i].value]);
      var j :| 0 <= j < |items'| && items'[j].Some? && heap'[items'[j].value] == heap[items[i].value];
    }
  }

  // ----- the batch after a successful deduplication -----

  /** The rows kept, and what was written into them; no other row was touched. */
  ghost predicate Deduplicated(
      before: seq<Row>, after: seq<Row>, kept: seq<nat>, hashes: map<IdentityKey, int>, digest: Payload -> Digest)
  {
    && |after| == |before|
    && (forall i :: 0 <= i < |kept| ==> kept[i] < |before|)
    && (forall i, j :: 0 <= i < j < |kept| ==> KeyOf(before[kept[i]], digest) != KeyOf(before[kept[j]], digest))
    && (forall k :: k in hashes ==> Represented(before, kept, digest, k))
    && (forall i :: 0 <= i < |kept| ==>
          var k := KeyOf(before[kept[i]], digest);
          k in hashes && after[kept[i]] == before[kept[i]].(hash := hashes[k], identity := Some(k.digest)))
    && (forall p: nat :: p < |before| && p !in kept ==> after[p] == before[p])
  }

  ghost predicate Represented(heap: seq<Row>, kept: seq<nat>, digest: Payload -> Digest, k: IdentityKey)
    requires forall i :: 0 <= i < |kept| ==> kept[i] < |heap|
  {
    exists i :: 0 <= i < |kept| && KeyOf(heap[kept[i]], digest) == k
  }

  ghost function Items(kept: seq<nat>): seq<Option<nat>> {
    seq(|kept|, i requires 0 <= i < |kept| => Some(kept[i]))
  }

  lemma KeptRow(
      before: seq<Row>, after: seq<Row>, kept: seq<nat>, hashes: map<IdentityKey, int>, digest: Payload -> Digest, i: int)
    requires Deduplicated(before, after, kept, hashes, digest) && 0 <= i < |kept|
    ensures kept[i] < |after| && kept[i] < |before|
    ensures var e := EntryOf(after[kept[i]], digest);
            && e.key == KeyOf(before[kept[i]], digest)
            && e.key in hashes && e.legacy == hashes[e.key]
  {}

  lemma KeptOnce(
      before: seq<Row>, after: seq<Row>, kept: seq<nat>, hashes: map<IdentityKey, int>, digest: Payload -> Digest, i: int, j: int)
    requires Deduplicated(before, after, kept, hashes, digest) && 0 <= i < |kept| && 0 <= j < |kept|
    requires KeyOf(before[kept[i]], digest) == KeyOf(before[kept[j]], digest)
    ensures i == j
  {}

  lemma KeptEveryIdentity(
      before: seq<Row>, after: seq<Row>, kept: seq<nat>, hashes: map<IdentityKey, int>, digest: Payload -> Digest, k: IdentityKey)
      returns (i: nat)
    requires Deduplicated(before, after, kept, hashes, digest) && k in hashes
    ensures i < |kept| && kept[i] < |before| && KeyOf(before[kept[i]], digest) == k
  {
    assert Represented(before, kept, digest, k);
    i :| 0 <= i < |kept| && KeyOf(before[kept[i]], digest) == k;
  }

  /** The entries of the kept rows are the identities with their new hashes. */
  lemma KeptEntries(
      before: seq<Row>, after: seq<Row>, kept: seq<nat>, hashes: map<IdentityKey, int>, digest: Payload -> Digest)
    requires Deduplicated(before, after, kept, hashes, digest)
    ensures Points(after, Items(kept))
    ensures var entries := EntriesOf(after, Items(kept), digest);
            && Keys(entries) == hashes.Keys
            && (forall e :: e in entries ==> e.key in hashes && e.legacy == hashes[e.key])
            && !Conflicting(entries)
  {
    assert Points(after, Items(kept));
    KeptLegacies(before, after, kept, hashes, digest);
    KeptKeys(before, after, kept, hashes, digest);
    KeptAgree(before, after, kept, hashes, digest);
  }

  lemma KeptLegacies(
      before: seq<Row>, after: seq<Row>, kept: seq<nat>, hashes: map<IdentityKey, int>, digest: Payload -> Digest)
    requires Deduplicated(before, after, kept, hashes, digest) && Points(after, Items(kept))
    ensures forall e :: e in EntriesOf(after, Items(kept), digest) ==> e.key in hashes && e.legacy == hashes[e.key]
  {
    hide Deduplicated;
    forall e | e in EntriesOf(after, Items(kept), digest)
      ensures e.key in hashes && e.legacy == hashes[e.key]
    {
      var i := KeptEntry(after, kept, digest, e);
      KeptRow(before, after, kept, hashes, digest, i);
    }
  }

  lemma KeptEntry(heap: seq<Row>, kept: seq<nat>, digest: Payload -> Digest, e: Entry) returns (i: nat)
    requires Points(heap, Items(kept)) && e in EntriesOf(heap, Items(kept), digest)
    ensures i < |kept| && kept[i] < |heap| && EntryOf(heap[kept[i]], digest) == e
  {
    i :| 0 <= i < |kept| && Items(kept)[i].Some? && EntryOf(heap[Items(kept)[i].value], digest) == e;
  }

  lemma KeptKeys(
      before: seq<Row>, after: seq<Row>, kept: seq<nat>, hashes: map<IdentityKey, int>, digest: Payload -> Digest)
    requires Deduplicated(before, after, kept, hashes, digest) && Points(after, Items(kept))
    ensures Keys(EntriesOf(after, Items(kept), digest)) == hashes.Keys
  {
    KeptLegacies(before, after, kept, hashes, digest);
    hide Deduplicated;
    var entries := EntriesOf(after, Items(kept), digest);
    forall k | k in hashes
      ensures k in Keys(entries)
    {
      var i := KeptEveryIdentity(before, after, kept, hashes, digest, k);
      KeptRow(before, after, kept, hashes, digest, i);
      assert Items(kept)[i] == Some(kept[i]);
      assert EntryOf(after[kept[i]], digest) in entries;
    }
  }

  lemma KeptAgree(
      before: seq<Row>, after: seq<Row>, kept: seq<nat>, hashes: map<IdentityKey, int>, digest: Payload -> Digest)
    requires Deduplicated(before, after, kept, hashes, digest) && Points(after, Items(kept))
    ensures !Conflicting(EntriesOf(after, Items(kept), digest))
  {
    hide Deduplicated;
    var entries := EntriesOf(after, Items(kept), digest);
    forall a, b | a in entries && b in entries && a.key == b.key
      ensures a == b
    {
      var i := KeptEntry(after, kept, digest, a);
      var j := KeptEntry(after, kept, digest, b);
      KeptRow(before, after, kept, hashes, digest, i);
      KeptRow(before, after, kept, hashes, digest, j);
      KeptOnce(before, after, kept, hashes, digest, i, j);
    }
  }

  /** Deduplicating the result again succeeds and gives every identity the hash it already has. */
  lemma DeduplicationIsStable(
      slot: (Digest, nat) -> int, attempts: nat, entries: set<Entry>, before: seq<Row>, after: seq<Row>, kept: seq<nat>,
      hashes: map<IdentityKey, int>, digest: Payload -> Digest)
    requires Outcome(slot, attempts, entries) == Some(hashes)
    requires Deduplicated(before, after, kept, hashes, digest)
    ensures Points(after, Items(kept))
    ensures Outcome(slot, attempts, EntriesOf(after, Items(kept), digest)) == Some(hashes)
  {
    OutcomeIsCorrect(slot, attempts, entries);
    KeptEntries(before, after, kept, hashes, digest);
    hide Outcome, Deduplicated;
    StableEntries(slot, attempts, EntriesOf(after, Items(kept), digest), hashes);
  }

  ghost function InScope(hashes: map<IdentityKey, int>, scope: int): map<Digest, int> {
    map d | d in (set k | k in hashes && k.scope == scope :: k.digest) :: hashes[IdentityKey(scope, d)]
  }

  lemma StableScope(slot: (Digest, nat) -> int, attempts: nat, entries: set<Entry>, hashes: map<IdentityKey, int>, scope: int)
    requires Keys(entries) == hashes.Keys && forall e :: e in entries ==> e.key in hashes && e.legacy == hashes[e.key]
    requires forall j, k :: j in hashes && k in hashes && j.scope == k.scope && hashes[j] == hashes[k] ==> j == k
    ensures ScopeHashes(slot, attempts, entries, scope) == Some(InScope(hashes, scope))
  {
    var local := InScope(hashes, scope);
    forall d, e | d in local && e in local && local[d] == local[e]
      ensures d == e
    {
      assert IdentityKey(scope, d) == IdentityKey(scope, e);
    }
    ScopeRegrouped(entries, hashes, scope);
    AllocationIsStable(slot, attempts, local);
  }

  lemma ScopeRegrouped(entries: set<Entry>, hashes: map<IdentityKey, int>, scope: int)
    requires Keys(entries) == hashes.Keys && forall e :: e in entries ==> e.key in hashes && e.legacy == hashes[e.key]
    ensures ScopeGroups(entries, scope) == Regrouped(InScope(hashes, scope))
  {
    var local := InScope(hashes, scope);
    var groups, regrouped := ScopeGroups(entries, scope), Regrouped(local);
    forall e | e in entries && e.key.scope == scope
      ensures e.key.digest in local && local[e.key.digest] == e.legacy
    {
      assert e.key == IdentityKey(scope, e.key.digest);
    }
    forall d | d in local
      ensures exists e :: e in entries && e.key == IdentityKey(scope, d) && e.legacy == local[d]
    {
      assert IdentityKey(scope, d) in Keys(entries);
      var e :| e in entries && e.key == IdentityKey(scope, d);
    }
    forall h
      ensures h in groups <==> h in regrouped
    {
      if h in regrouped {
        var d :| d in local && local[d] == h;
        var e :| e in entries && e.key == IdentityKey(scope, d) && e.legacy == local[d];
      }
      if h in groups {
        var e :| e in entries && e.key.scope == scope && e.legacy == h;
        assert local[e.key.digest] == h;
      }
    }
    forall h | h in groups
      ensures groups[h] == regrouped[h]
    {
      forall d
        ensures d in groups[h] <==> d in regrouped[h]
      {
        if d in regrouped[h] {
          var e :| e in entries && e.key == IdentityKey(scope, d) && e.legacy == local[d];
        }
      }
    }
  }

  lemma StableEntries(slot: (Digest, nat) -> int, attempts: nat, entries: set<Entry>, hashes: map<IdentityKey, int>)
    requires !Conflicting(entries)
    requires Keys(entries) == hashes.Keys && forall e :: e in entries ==> e.key in hashes && e.legacy == hashes[e.key]
    requires forall j, k :: j in hashes && k in hashes && j.scope == k.scope && hashes[j] == hashes[k] ==> j == k
    ensures Outcome(slot, attempts, entries) == Some(hashes)
  {
    forall s
      ensures ScopeHashes(slot, attempts, entries, s) == Some(InScope(hashes, s))
    {
      StableScope(slot, attempts, entries, hashes, s);
    }
    hide ScopeHashes, Conflicting, InScope, Keys;
    forall k | k in hashes
      ensures HashIn(ScopeHashes(slot, attempts, entries, k.scope), k.digest) == hashes[k]
    {
      HashInScope(hashes, k);
    }
    OutcomeBy(slot, attempts, entries, hashes);
  }

  lemma OutcomeBy(slot: (Digest, nat) -> int, attempts: nat, entries: set<Entry>, hashes: map<IdentityKey, int>)
    requires !Fails(slot, attempts, entries) && Keys(entries) == hashes.Keys
    requires forall k :: k in hashes ==> HashIn(ScopeHashes(slot, attempts, entries, k.scope), k.digest) == hashes[k]
    ensures Outcome(slot, attempts, entries) == Some(hashes)
  {
    hide Fails, ScopeHashes, HashIn, Keys;
    var r := Outcome(slot, attempts, entries);
    assert r.value == hashes;
  }

  lemma HashInScope(hashes: map<IdentityKey, int>, k: IdentityKey)
    requires k in hashes
    ensures HashIn(Some(InScope(hashes, k.scope)), k.digest) == hashes[k]
  {
    assert IdentityKey(k.scope, k.digest) == k;
    assert k.digest in InScope(hashes, k.scope);
  }
}
