/** The importer's own loops over a batch of hashed rows, proved against `Deduplication.Outcome`. */
module RowBatch {
  import opened Options
  import opened Sets
  import opened Ordering
  import opened Slots
  import opened Deduplication

  /** The digests of a scope by legacy hash, in the order in which the rows came. */
  type OrderedGroups = map<int, seq<Digest>>

  ghost function SetsOf(groups: OrderedGroups): Groups {
    map h | h in groups :: Elements(groups[h])
  }

  ghost predicate Distinct(xs: seq<int>) {
    forall i, j :: 0 <= i < j < |xs| ==> xs[i] != xs[j]
  }

  ghost predicate Filled(groups: OrderedGroups) {
    forall h :: h in groups ==> groups[h] != [] && Distinct(groups[h])
  }

  /** `after` is `before` with the given hashes written into the rows of their identities. */
  ghost predicate Wrote(before: seq<Row>, after: seq<Row>, rows: map<IdentityKey, nat>, hashes: map<IdentityKey, int>) {
    && |after| == |before|
    && (forall k :: k in hashes ==>
          && k in rows && rows[k] < |before|
          && after[rows[k]] == before[rows[k]].(hash := hashes[k], identity := Some(k.digest)))
    && (forall p: nat :: p < |before| && (forall k :: k in hashes && k in rows ==> rows[k] != p) ==> after[p] == before[p])
  }

  /** Different identities have different rows. */
  ghost predicate Separate(rows: map<IdentityKey, nat>, length: nat) {
    && (forall k :: k in rows ==> rows[k] < length)
    && (forall j, k :: j in rows && k in rows && rows[j] == rows[k] ==> j == k)
  }

  lemma WroteOne(
      before: seq<Row>, after: seq<Row>, rows: map<IdentityKey, nat>, hashes: map<IdentityKey, int>, k: IdentityKey, hash: int)
    requires Separate(rows, |before|) && k in rows && k !in hashes && Wrote(before, after, rows, hashes)
    ensures var p := rows[k];
            Wrote(before, after[p := after[p].(hash := hash, identity := Some(k.digest))], rows, hashes[k := hash])
  {
    var p := rows[k];
    var after' := after[p := after[p].(hash := hash, identity := Some(k.digest))];
    assert forall j :: j in hashes ==> rows[j] != p;
    assert after[p] == before[p];
    forall q: nat | q < |before| && (forall j :: j in hashes[k := hash] && j in rows ==> rows[j] != q)
      ensures after'[q] == before[q]
    {
      assert k in hashes[k := hash];
      assert forall j :: j in hashes ==> j in hashes[k := hash];
    }
  }

  /** The hashes of one scope, keyed by whole identities. */
  ghost function Tagged(scope: int, hashes: map<Digest, int>): map<IdentityKey, int> {
    map k | k in (set d | d in hashes :: IdentityKey(scope, d)) :: hashes[k.digest]
  }

  lemma TaggedOne(scope: int, hashes: map<Digest, int>, d: Digest, hash: int)
    ensures Tagged(scope, hashes[d := hash]) == Tagged(scope, hashes)[IdentityKey(scope, d) := hash]
    ensures d !in hashes ==> IdentityKey(scope, d) !in Tagged(scope, hashes)
  {}

  /** `setIdentity`. */
  method SetIdentity(heap: array<Row>, p: nat, hash: int, digest: Digest)
    requires p < heap.Length
    modifies heap
    ensures heap[..] == old(heap[..])[p := old(heap[p]).(hash := hash, identity := Some(digest))]
  {
    heap[p] := heap[p].(hash := hash, identity := Some(digest));
  }

  /** Write one hash and account for it. */
  method Assign(
      heap: array<Row>, rows: map<IdentityKey, nat>, scope: int, d: Digest, hash: int,
      ghost before: seq<Row>, ghost hashes: map<Digest, int>)
    requires Separate(rows, heap.Length) && IdentityKey(scope, d) in rows && d !in hashes
    requires |before| == heap.Length && Wrote(before, heap[..], rows, Tagged(scope, hashes))
    modifies heap
    ensures Wrote(before, heap[..], rows, Tagged(scope, hashes[d := hash]))
  {
    TaggedOne(scope, hashes, d, hash);
    WroteOne(before, heap[..], rows, Tagged(scope, hashes), IdentityKey(scope, d), hash);
    SetIdentity(heap, rows[IdentityKey(scope, d)], hash, d);
  }

  /** Try the generated slots in order. */
  method FindSlot(slot: (Digest, nat) -> int, d: Digest, attempts: nat, reserved: set<int>, taken: set<int>)
      returns (candidate: Option<int>)
    ensures candidate == FirstFree(slot, d, 0, attempts, reserved + taken)
  {
    for attempt := 0 to attempts
      invariant FirstFree(slot, d, attempt, attempts, reserved + taken) == FirstFree(slot, d, 0, attempts, reserved + taken)
    {
      var c := slot(d, attempt);
      if c !in reserved && c !in taken {
        return Some(c);
      }
    }
    return None;
  }

  /** One group, already in order: its first row keeps the legacy hash, the others search for a slot. */
  method AssignGroup(
      heap: array<Row>, rows: map<IdentityKey, nat>, scope: int, legacy: int, digests: seq<Digest>, reserved: set<int>,
      taken: set<int>, slot: (Digest, nat) -> int, attempts: nat, ghost before: seq<Row>, ghost a: Allocation)
      returns (ok: bool, taken': set<int>, ghost b: Allocation)
    requires Separate(rows, heap.Length) && digests != [] && Distinct(digests) && taken == a.used
    requires forall i :: 0 <= i < |digests| ==> IdentityKey(scope, digests[i]) in rows && digests[i] !in a.hashes
    requires |before| == heap.Length && Wrote(before, heap[..], rows, Tagged(scope, a.hashes))
    modifies heap
    ensures var r := AllocateCollided(slot, attempts, reserved, digests[1..], Lead(a, legacy, digests[0]));
            ok == r.Some? && (ok ==> r == Some(b))
    ensures ok ==> taken' == b.used && Wrote(before, heap[..], rows, Tagged(scope, b.hashes))
    ensures ok ==> b.hashes.Keys == a.hashes.Keys + Elements(digests)
  {
    hide Wrote, Tagged, FirstFree, Separate;
    b := Lead(a, legacy, digests[0]);
    assert digests[..1] == [digests[0]];
    Assign(heap, rows, scope, digests[0], legacy, before, a.hashes);
    taken' := taken + {legacy};
    for i := 1 to |digests|
      invariant taken' == b.used
      invariant b.hashes.Keys == a.hashes.Keys + Elements(digests[..i])
      invariant Wrote(before, heap[..], rows, Tagged(scope, b.hashes))
      invariant AllocateCollided(slot, attempts, reserved, digests[i..], b)
                == AllocateCollided(slot, attempts, reserved, digests[1..], Lead(a, legacy, digests[0]))
    {
      var d := digests[i];
      assert digests[i..][0] == d && digests[i..][1..] == digests[i + 1..];
      assert digests[..i + 1] == digests[..i] + [d];
      assert d !in Elements(digests[..i]) && d !in b.hashes;
      var candidate := FindSlot(slot, d, attempts, reserved, taken');
      if candidate.None? {
        ok := false;
        return;
      }
      Assign(heap, rows, scope, d, candidate.value, before, b.hashes);
      taken' := taken' + {candidate.value};
      b := Allocation(b.used + {candidate.value}, b.hashes[d := candidate.value]);
    }
    assert digests[..|digests|] == digests && digests[|digests|..] == [];
    ok := true;
  }

  // ----- one scope -----

  method SortedDigests(group: seq<Digest>) returns (digests: seq<Digest>)
    requires Distinct(group)
    ensures digests == InOrder(Elements(group))
    ensures Distinct(digests) && Elements(digests) == Elements(group)
  {
    var sorted := SortDistinct(group);
    AscendingOrders(Elements(group));
    assert Elements<int>(group) == Elements<nat>(group);
    assert forall i :: 0 <= i < |sorted| ==> sorted[i] in sorted;
    digests := sorted;
  }

  /** Sort one group and assign its hashes. */
  method TreatGroup(
      heap: array<Row>, rows: map<IdentityKey, nat>, scope: int, legacy: int, group: seq<Digest>, reserved: set<int>,
      taken: set<int>, slot: (Digest, nat) -> int, attempts: nat, ghost before: seq<Row>, ghost a: Allocation)
      returns (ok: bool, taken': set<int>, ghost b: Allocation)
    requires Separate(rows, heap.Length) && group != [] && Distinct(group) && taken == a.used
    requires forall d :: d in Elements(group) ==> IdentityKey(scope, d) in rows && d !in a.hashes
    requires |before| == heap.Length && Wrote(before, heap[..], rows, Tagged(scope, a.hashes))
    modifies heap
    ensures Elements(group) != {}
    ensures var r := AllocateGroup(slot, attempts, reserved, legacy, Elements(group), a);
            ok == r.Some? && (ok ==> r == Some(b))
    ensures ok ==> taken' == b.used && Wrote(before, heap[..], rows, Tagged(scope, b.hashes))
    ensures ok ==> b.hashes.Keys == a.hashes.Keys + Elements(group)
  {
    SomeElement(group);
    var digests := SortedDigests(group);
    assert forall j :: 0 <= j < |digests| ==> digests[j] in Elements(digests);
    assert digests != [] by { SomeInOrder(Elements(group)); }
    hide Wrote, Tagged, AllocateCollided, Separate, InOrder;
    ok, taken', b := AssignGroup(heap, rows, scope, legacy, digests, reserved, taken, slot, attempts, before, a);
  }

  lemma SomeInOrder(group: set<Digest>)
    requires group != {}
    ensures InOrder(group) != []
  {}

  /** The groups from `i` on hold no digest that already has a hash. */
  ghost predicate Untreated(groups: OrderedGroups, keys: seq<int>, i: nat, hashes: map<Digest, int>) {
    forall j, d :: i <= j < |keys| && keys[j] in groups && d in Elements(groups[keys[j]]) ==> d !in hashes
  }

  ghost predicate HaveRows(groups: OrderedGroups, rows: map<IdentityKey, nat>, scope: int) {
    forall h, d :: h in groups && d in Elements(groups[h]) ==> IdentityKey(scope, d) in rows
  }

  lemma GroupsApart(groups: OrderedGroups, g: int, h: int)
    requires GroupsOk(SetsOf(groups)) && g in groups && h in groups && g != h
    ensures Elements(groups[g]) !! Elements(groups[h])
  {
    SetOfGroup(groups, g);
    SetOfGroup(groups, h);
  }

  lemma GroupTreated(groups: OrderedGroups, keys: seq<int>, i: nat, before: map<Digest, int>, after: map<Digest, int>)
    requires GroupsOk(SetsOf(groups)) && IsAscending(keys) && i < |keys|
    requires forall j :: 0 <= j < |keys| ==> keys[j] in groups
    requires Untreated(groups, keys, i, before) && after.Keys == before.Keys + Elements(groups[keys[i]])
    ensures Untreated(groups, keys, i + 1, after)
  {
    hide Elements;
    forall j, d | i + 1 <= j < |keys| && keys[j] in groups && d in Elements(groups[keys[j]])
      ensures d !in after
    {
      assert keys[i] != keys[j];
      GroupsApart(groups, keys[i], keys[j]);
    }
  }

  lemma TailListed(groups: Groups, keys: seq<int>, i: nat)
    requires Listed(groups, keys) && i <= |keys|
    ensures Listed(groups, keys[i..])
    ensures i < |keys| ==> keys[i..][0] == keys[i] && keys[i..][1..] == keys[i + 1..]
  {}

  lemma NoneTreated(groups: OrderedGroups, keys: seq<int>)
    ensures Untreated(groups, keys, 0, map[])
  {}

  /** The next group has rows, and none of its digests has a hash yet. */
  lemma NextGroup(
      groups: OrderedGroups, keys: seq<int>, rows: map<IdentityKey, nat>, scope: int, i: nat, hashes: map<Digest, int>)
    requires Filled(groups) && HaveRows(groups, rows, scope) && Untreated(groups, keys, i, hashes)
    requires i < |keys| && keys[i] in groups
    ensures groups[keys[i]] != [] && Distinct(groups[keys[i]])
    ensures forall d :: d in Elements(groups[keys[i]]) ==> IdentityKey(scope, d) in rows && d !in hashes
  {
    var h := keys[i];
    assert groups[h] != [] && Distinct(groups[h]);
    forall d | d in Elements(groups[h])
      ensures IdentityKey(scope, d) in rows && d !in hashes
    {}
  }

  /** `assignRelationCompatibilitySlotsWith`. */
  method AssignScope(
      heap: array<Row>, rows: map<IdentityKey, nat>, scope: int, groups: OrderedGroups, slot: (Digest, nat) -> int, attempts: nat)
      returns (ok: bool, ghost hashes: map<Digest, int>)
    requires Separate(rows, heap.Length) && Filled(groups) && GroupsOk(SetsOf(groups)) && HaveRows(groups, rows, scope)
    modifies heap
    ensures var r := AllocateScope(slot, attempts, SetsOf(groups)); ok == r.Some? && (ok ==> r == Some(hashes))
    ensures ok ==> Wrote(old(heap[..]), heap[..], rows, Tagged(scope, hashes))
  {
    hide Wrote, Tagged, SetsOf, GroupsOk, Separate, Untreated, HaveRows, Filled, IsAscending, Listed, AllocateGroup, Legacies, Ascending;
    ghost var before, sets := heap[..], SetsOf(groups);
    var keys := SortedSet(groups.Keys);
    KeysAreListed(groups, keys);
    NothingWritten(before, rows, scope);
    var reserved, taken: set<int> := groups.Keys, {};
    ghost var a := Allocation({}, map[]);
    TailListed(sets, keys, 0);
    NoneTreated(groups, keys);
    assert keys[0..] == keys;
    for i := 0 to |keys|
      invariant taken == a.used && Untreated(groups, keys, i, a.hashes)
      invariant Wrote(before, heap[..], rows, Tagged(scope, a.hashes))
      invariant Listed(sets, keys[i..])
      invariant AllocateGroups(slot, attempts, sets, keys[i..], a)
                == AllocateGroups(slot, attempts, sets, keys, Allocation({}, map[]))
    {
      var legacy := keys[i];
      TailListed(sets, keys, i);
      TailListed(sets, keys, i + 1);
      SetOfGroup(groups, legacy);
      NextGroup(groups, keys, rows, scope, i, a.hashes);
      ghost var treated := a.hashes;
      ok, taken, a := TreatGroup(heap, rows, scope, legacy, groups[legacy], reserved, taken, slot, attempts, before, a);
      if !ok {
        hashes := map[];
        return;
      }
      GroupTreated(groups, keys, i, treated, a.hashes);
    }
    assert keys[|keys|..] == [];
    ok, hashes := true, a.hashes;
  }

  lemma SetOfGroup(groups: OrderedGroups, h: int)
    requires h in groups
    ensures SetsOf(groups).Keys == groups.Keys && SetsOf(groups)[h] == Elements(groups[h])
  {}

  lemma KeysAreListed(groups: OrderedGroups, keys: seq<int>)
    requires Filled(groups) && keys == Ascending(groups.Keys)
    ensures IsAscending(keys) && Listed(SetsOf(groups), keys) && (forall j :: 0 <= j < |keys| ==> keys[j] in groups)
    ensures forall h :: h in SetsOf(groups) ==> SetsOf(groups)[h] != {}
    ensures keys == Legacies(SetsOf(groups))
  {
    AscendingOrders(groups.Keys);
    assert SetsOf(groups).Keys == groups.Keys;
    forall h | h in groups
      ensures SetsOf(groups)[h] != {}
    {
      SomeElement(groups[h]);
    }
    assert forall j :: 0 <= j < |keys| ==> keys[j] in keys;
  }

  lemma NothingWritten(before: seq<Row>, rows: map<IdentityKey, nat>, scope: int)
    ensures Wrote(before, before, rows, Tagged(scope, map[]))
  {
    assert Tagged(scope, map[]) == map[];
  }

  // ----- the whole batch -----

  /** What the collecting loop has found in the entries seen so far. */
  ghost predicate Collected(
      heap: seq<Row>, digest: Payload -> Digest, entries: set<Entry>, rows: map<IdentityKey, nat>,
      scopes: map<int, OrderedGroups>, kept: seq<nat>)
  {
    && !Conflicting(entries)
    && rows.Keys == Keys(entries)
    && (forall k :: k in rows ==> rows[k] < |heap| && EntryOf(heap[rows[k]], digest) in entries && KeyOf(heap[rows[k]], digest) == k)
    && scopes.Keys == Scopes(entries)
    && (forall s :: s in scopes ==> Filled(scopes[s]) && SetsOf(scopes[s]) == ScopeGroups(entries, s))
    && KeptRows(heap, digest, rows, kept)
  }

  /** `kept` lists the row of each identity once. */
  ghost predicate KeptRows(heap: seq<Row>, digest: Payload -> Digest, rows: map<IdentityKey, nat>, kept: seq<nat>) {
    && (forall i :: 0 <= i < |kept| ==> kept[i] < |heap| && KeyOf(heap[kept[i]], digest) in rows
                                        && rows[KeyOf(heap[kept[i]], digest)] == kept[i])
    && (forall i, j :: 0 <= i < j < |kept| ==> kept[i] != kept[j])
    && (forall k :: k in rows ==> rows[k] in kept)
  }

  /** A row of a known identity that repeats its entry adds nothing. */
  lemma Repeated(heap: seq<Row>, digest: Payload -> Digest, entries: set<Entry>, rows: map<IdentityKey, nat>,
      scopes: map<int, OrderedGroups>, kept: seq<nat>, e: Entry)
    requires Collected(heap, digest, entries, rows, scopes, kept) && e.key in rows
    ensures rows[e.key] < |heap|
    ensures EntryOf(heap[rows[e.key]], digest) == e ==> entries + {e} == entries
    ensures EntryOf(heap[rows[e.key]], digest) != e ==> Conflicting(entries + {e})
  {
    var known := EntryOf(heap[rows[e.key]], digest);
    if known != e {
      assert known in entries + {e} && e in entries + {e} && known.key == e.key;
    }
  }

  /** `groups` with `d` appended to the group of `legacy`, which is created when missing. */
  function Appended(groups: OrderedGroups, legacy: int, d: Digest): OrderedGroups {
    groups[legacy := (if legacy in groups then groups[legacy] else []) + [d]]
  }

  function GroupsIn(scopes: map<int, OrderedGroups>, scope: int): OrderedGroups {
    if scope in scopes then scopes[scope] else map[]
  }

  ghost function WithMember(groups: Groups, h: int, d: Digest): Groups {
    groups[h := (if h in groups then groups[h] else {}) + {d}]
  }

  lemma AppendedIs(groups: OrderedGroups, h: int, d: Digest)
    ensures Appended(groups, h, d) == groups[h := (if h in groups then groups[h] else []) + [d]]
  {}

  lemma AppendedMember(groups: OrderedGroups, h: int, d: Digest)
    requires Filled(groups) && (h in groups ==> d !in Elements(groups[h]))
    ensures Filled(Appended(groups, h, d)) && SetsOf(Appended(groups, h, d)) == WithMember(SetsOf(groups), h, d)
  {
    var xs := if h in groups then groups[h] else [];
    assert Elements(xs + [d]) == Elements(xs) + {d};
    assert forall i :: 0 <= i < |xs| ==> xs[i] in Elements(xs);
    assert Distinct(xs + [d]);
    assert h !in groups ==> Elements(xs) == {};
    assert Appended(groups, h, d)[h] == xs + [d];
    hide Distinct, Elements, Appended;
    assert Appended(groups, h, d) == groups[h := xs + [d]] by { AppendedIs(groups, h, d); }
  }

  lemma EntryAddsMember(entries: set<Entry>, e: Entry)
    ensures ScopeGroups(entries + {e}, e.key.scope) == WithMember(ScopeGroups(entries, e.key.scope), e.legacy, e.key.digest)
  {
    var scope, h, d := e.key.scope, e.legacy, e.key.digest;
    var more := entries + {e};
    assert LegaciesOf(more, scope) == LegaciesOf(entries, scope) + {h};
    assert DigestsOf(more, scope, h) == DigestsOf(entries, scope, h) + {d};
    assert forall g :: g != h ==> DigestsOf(more, scope, g) == DigestsOf(entries, scope, g);
    assert h !in LegaciesOf(entries, scope) ==> DigestsOf(entries, scope, h) == {};
    hide LegaciesOf, DigestsOf;
  }

  lemma NewInScope(entries: set<Entry>, e: Entry, groups: OrderedGroups)
    requires e.key !in Keys(entries)
    requires Filled(groups) && SetsOf(groups) == ScopeGroups(entries, e.key.scope)
    ensures var groups' := Appended(groups, e.legacy, e.key.digest);
            Filled(groups') && SetsOf(groups') == ScopeGroups(entries + {e}, e.key.scope)
  {
    EntryAddsMember(entries, e);
    if e.legacy in groups {
      SetOfGroup(groups, e.legacy);
      forall x | x in entries && x.key.scope == e.key.scope && x.legacy == e.legacy
        ensures x.key.digest != e.key.digest
      {
        assert x.key in Keys(entries);
      }
      assert e.key.digest !in ScopeGroups(entries, e.key.scope)[e.legacy];
    }
    hide ScopeGroups, SetsOf, WithMember, Keys;
    AppendedMember(groups, e.legacy, e.key.digest);
  }

  lemma OtherScopes(entries: set<Entry>, e: Entry, s: int)
    requires s != e.key.scope
    ensures ScopeGroups(entries + {e}, s) == ScopeGroups(entries, s)
  {
    assert LegaciesOf(entries + {e}, s) == LegaciesOf(entries, s);
    assert forall h :: DigestsOf(entries + {e}, s, h) == DigestsOf(entries, s, h);
  }

  lemma NewScope(entries: set<Entry>, scope: int)
    requires scope !in Scopes(entries)
    ensures Filled(map[]) && SetsOf(map[]) == ScopeGroups(entries, scope)
  {
    assert LegaciesOf(entries, scope) == {};
  }

  lemma ScopesGrow(entries: set<Entry>, scopes: map<int, OrderedGroups>, e: Entry)
    requires e.key !in Keys(entries) && scopes.Keys == Scopes(entries)
    requires forall s :: s in scopes ==> Filled(scopes[s]) && SetsOf(scopes[s]) == ScopeGroups(entries, s)
    ensures var scopes' := scopes[e.key.scope := Appended(GroupsIn(scopes, e.key.scope), e.legacy, e.key.digest)];
            && scopes'.Keys == Scopes(entries + {e})
            && forall s :: s in scopes' ==> Filled(scopes'[s]) && SetsOf(scopes'[s]) == ScopeGroups(entries + {e}, s)
  {
    var groups := GroupsIn(scopes, e.key.scope);
    if e.key.scope !in scopes {
      NewScope(entries, e.key.scope);
    }
    NewInScope(entries, e, groups);
    forall s | s in scopes && s != e.key.scope
      ensures ScopeGroups(entries + {e}, s) == ScopeGroups(entries, s)
    {
      OtherScopes(entries, e, s);
    }
    assert Scopes(entries + {e}) == Scopes(entries) + {e.key.scope};
  }

  lemma RowsGrow(heap: seq<Row>, digest: Payload -> Digest, rows: map<IdentityKey, nat>, kept: seq<nat>, p: nat)
    requires KeptRows(heap, digest, rows, kept) && p < |heap| && KeyOf(heap[p], digest) !in rows
    requires forall k :: k in rows ==> rows[k] < |heap| && KeyOf(heap[rows[k]], digest) == k
    ensures KeptRows(heap, digest, rows[KeyOf(heap[p], digest) := p], kept + [p])
  {
    var rows', kept' := rows[KeyOf(heap[p], digest) := p], kept + [p];
    assert forall i :: 0 <= i < |kept| ==> kept'[i] == kept[i] && kept[i] != p;
    forall k | k in rows'
      ensures rows'[k] in kept'
    {
      if k != KeyOf(heap[p], digest) { assert rows[k] in kept; }
    }
  }

  lemma StillAgreeing(entries: set<Entry>, e: Entry)
    requires !Conflicting(entries) && e.key !in Keys(entries)
    ensures !Conflicting(entries + {e}) && Keys(entries + {e}) == Keys(entries) + {e.key}
  {
    forall a, b | a in entries + {e} && b in entries + {e} && a.key == b.key
      ensures a == b
    {
      assert a in entries ==> a.key in Keys(entries);
      assert b in entries ==> b.key in Keys(entries);
    }
  }

  /** The first row of an identity is recorded in its scope and kept. */
  lemma Recorded(heap: seq<Row>, digest: Payload -> Digest, entries: set<Entry>, rows: map<IdentityKey, nat>,
      scopes: map<int, OrderedGroups>, kept: seq<nat>, p: nat)
    requires Collected(heap, digest, entries, rows, scopes, kept) && p < |heap| && KeyOf(heap[p], digest) !in rows
    ensures var e := EntryOf(heap[p], digest);
            Collected(heap, digest, entries + {e}, rows[e.key := p],
              scopes[e.key.scope := Appended(GroupsIn(scopes, e.key.scope), e.legacy, e.key.digest)], kept + [p])
  {
    var e := EntryOf(heap[p], digest);
    StillAgreeing(entries, e);
    ScopesGrow(entries, scopes, e);
    RowsGrow(heap, digest, rows, kept, p);
    hide Conflicting, ScopeGroups, SetsOf, Filled, KeptRows, Appended, GroupsIn, Scopes;
  }

  lemma OneMoreItem(heap: seq<Row>, items: seq<Option<nat>>, digest: Payload -> Digest, i: nat)
    requires Points(heap, items) && i < |items| && items[i].Some?
    ensures EntriesOf(heap, items[..i + 1], digest) == EntriesOf(heap, items[..i], digest) + {EntryOf(heap[items[i].value], digest)}
  {
    var more, fewer := items[..i + 1], items[..i];
    assert forall j :: 0 <= j < i ==> more[j] == fewer[j];
    assert more[i] == items[i];
  }

  lemma PrefixEntries(heap: seq<Row>, items: seq<Option<nat>>, digest: Payload -> Digest, i: nat)
    requires Points(heap, items) && i <= |items|
    ensures EntriesOf(heap, items[..i], digest) <= EntriesOf(heap, items, digest)
    ensures Conflicting(EntriesOf(heap, items[..i], digest)) ==> Conflicting(EntriesOf(heap, items, digest))
  {
    assert forall j :: 0 <= j < i ==> items[..i][j] == items[j];
  }

  lemma NothingCollected(heap: seq<Row>, digest: Payload -> Digest)
    ensures EntriesOf(heap, [], digest) == {} && Collected(heap, digest, {}, map[], map[], [])
  {}

  /** The identity of the row at an address. */
  ghost function Identify(heap: seq<Row>, digest: Payload -> Digest): nat -> Option<IdentityKey> {
    (p: nat) => if p < |heap| then Some(KeyOf(heap[p], digest)) else None
  }

  /** The row of item `i` is the first of its identity exactly when the identity has not been met. */
  lemma FirstOfIdentity(heap: seq<Row>, items: seq<Option<nat>>, digest: Payload -> Digest, i: nat)
    requires Points(heap, items) && i < |items| && AllPresent(items[..i]) && items[i].Some?
    ensures AllPresent(items[..i + 1])
    ensures Firsts(Values(items[..i + 1]), Identify(heap, digest))
            == Firsts(Values(items[..i]), Identify(heap, digest))
               + if KeyOf(heap[items[i].value], digest) in Keys(EntriesOf(heap, items[..i], digest)) then [] else [items[i].value]
  {
    var values, key, entries := Values(items[..i + 1]), Identify(heap, digest), EntriesOf(heap, items[..i], digest);
    assert values[..i] == Values(items[..i]);
    assert forall j :: 0 <= j < i ==> values[j] == items[j].value && items[..i][j] == items[j];
    if KeyOf(heap[items[i].value], digest) in Keys(entries) {
      var e :| e in entries && e.key == KeyOf(heap[items[i].value], digest);
      var j :| 0 <= j < |items[..i]| && items[..i][j].Some? && EntryOf(heap[items[..i][j].value], digest) == e;
      assert key(values[j]) == key(values[i]);
    } else {
      forall j | 0 <= j < i
        ensures key(values[j]) != key(values[i])
      {
        assert EntryOf(heap[items[..i][j].value], digest) in entries;
      }
    }
  }

  /** The collecting loop of `deduplicateHashedRowsWithAllocator`. */
  method Collect(heap: array<Row>, items: seq<Option<nat>>, digest: Payload -> Digest)
      returns (r: Result<(map<IdentityKey, nat>, map<int, OrderedGroups>, seq<nat>)>)
    requires Points(heap[..], items)
    ensures r.Err? <==> None in items || Conflicting(EntriesOf(heap[..], items, digest))
    ensures r.Ok? ==> Collected(heap[..], digest, EntriesOf(heap[..], items, digest), r.value.0, r.value.1, r.value.2)
    ensures r.Ok? ==> AllPresent(items) && r.value.2 == Firsts(Values(items), Identify(heap[..], digest))
  {
    ghost var cells := heap[..];
    var rows: map<IdentityKey, nat>, scopes: map<int, OrderedGroups>, kept: seq<nat> := map[], map[], [];
    NothingCollected(cells, digest);
    assert items[..0] == [];
    hide Conflicting, Collected, EntriesOf, Firsts, IsNew, Keys;
    for i := 0 to |items|
      invariant AllPresent(items[..i]) && kept == Firsts(Values(items[..i]), Identify(cells, digest))
      invariant Collected(cells, digest, EntriesOf(cells, items[..i], digest), rows, scopes, kept)
    {
      assert items[..i + 1] == items[..i] + [items[i]];
      if items[i].None? {
        return Err("nil row");
      }
      var row := heap[items[i].value];
      var key := KeyOf(row, digest);
      OneMoreItem(cells, items, digest, i);
      FirstOfIdentity(cells, items, digest, i);
      PrefixEntries(cells, items, digest, i + 1);
      CollectedRows(cells, digest, EntriesOf(cells, items[..i], digest), rows, scopes, kept);
      if key in rows {
        Repeated(cells, digest, EntriesOf(cells, items[..i], digest), rows, scopes, kept, EntryOf(row, digest));
        var previous := heap[rows[key]];
        if previous.payload != row.payload {
          return Err("conflicting payloads");
        }
        if previous.hash != row.hash {
          return Err("conflicting legacy hashes");
        }
      } else {
        Recorded(cells, digest, EntriesOf(cells, items[..i], digest), rows, scopes, kept, items[i].value);
        rows := rows[key := items[i].value];
        scopes := scopes[key.scope := Appended(GroupsIn(scopes, key.scope), row.hash, key.digest)];
        kept := kept + [items[i].value];
      }
    }
    assert items[..|items|] == items;
    NoConflict(cells, digest, EntriesOf(cells, items, digest), rows, scopes, kept);
    r := Ok((rows, scopes, kept));
  }

  lemma CollectedRows(heap: seq<Row>, digest: Payload -> Digest, entries: set<Entry>, rows: map<IdentityKey, nat>,
      scopes: map<int, OrderedGroups>, kept: seq<nat>)
    requires Collected(heap, digest, entries, rows, scopes, kept)
    ensures forall k :: k in rows ==> rows[k] < |heap| && KeyOf(heap[rows[k]], digest) == k
  {}

  lemma NoConflict(heap: seq<Row>, digest: Payload -> Digest, entries: set<Entry>, rows: map<IdentityKey, nat>,
      scopes: map<int, OrderedGroups>, kept: seq<nat>)
    requires Collected(heap, digest, entries, rows, scopes, kept)
    ensures !Conflicting(entries)
  {}

  /** Hashes written so far: those of the scopes in `done`. */
  ghost function HashesOf(slot: (Digest, nat) -> int, attempts: nat, entries: set<Entry>, done: set<int>): map<IdentityKey, int> {
    map k | k in Keys(entries) && k.scope in done :: HashIn(ScopeHashes(slot, attempts, entries, k.scope), k.digest)
  }

  lemma WroteBoth(
      before: seq<Row>, middle: seq<Row>, after: seq<Row>, rows: map<IdentityKey, nat>,
      first: map<IdentityKey, int>, second: map<IdentityKey, int>)
    requires Separate(rows, |before|) && first.Keys !! second.Keys
    requires Wrote(before, middle, rows, first) && Wrote(middle, after, rows, second)
    ensures Wrote(before, after, rows, first + second)
  {
    forall k | k in first
      ensures after[rows[k]] == middle[rows[k]]
    {
      assert forall j :: j in second ==> rows[j] != rows[k];
    }
    forall k | k in second
      ensures middle[rows[k]] == before[rows[k]]
    {
      assert forall j :: j in first ==> rows[j] != rows[k];
    }
    forall p: nat | p < |before| && (forall k :: k in first + second && k in rows ==> rows[k] != p)
      ensures after[p] == before[p]
    {
      assert forall k :: k in first ==> k in first + second;
      assert forall k :: k in second ==> k in first + second;
    }
  }

  lemma TaggedIs(slot: (Digest, nat) -> int, attempts: nat, entries: set<Entry>, s: int, hashes: map<Digest, int>)
    requires !Conflicting(entries) && ScopeHashes(slot, attempts, entries, s) == Some(hashes)
    ensures forall k: IdentityKey :: k in Tagged(s, hashes) <==> k in Keys(entries) && k.scope == s
    ensures forall k: IdentityKey :: k in Tagged(s, hashes) ==>
              Tagged(s, hashes)[k] == HashIn(ScopeHashes(slot, attempts, entries, k.scope), k.digest)
  {
    ScopeDomain(slot, attempts, entries, s);
    hide ScopeHashes, Keys, Conflicting, Injective;
    forall k: IdentityKey
      ensures k in Tagged(s, hashes) <==> k in Keys(entries) && k.scope == s
    {
      assert IdentityKey(k.scope, k.digest) == k;
    }
  }

  lemma ScopeDone(
      slot: (Digest, nat) -> int, attempts: nat, entries: set<Entry>, done: set<int>, s: int, hashes: map<Digest, int>)
    requires !Conflicting(entries) && s !in done && ScopeHashes(slot, attempts, entries, s) == Some(hashes)
    ensures HashesOf(slot, attempts, entries, done).Keys !! Tagged(s, hashes).Keys
    ensures HashesOf(slot, attempts, entries, done + {s}) == HashesOf(slot, attempts, entries, done) + Tagged(s, hashes)
  {
    TaggedIs(slot, attempts, entries, s, hashes);
    hide ScopeHashes, Keys, Conflicting, Tagged, HashIn;
    SplitHashes(slot, attempts, entries, done, s, Tagged(s, hashes));
  }

  lemma SplitHashes(
      slot: (Digest, nat) -> int, attempts: nat, entries: set<Entry>, done: set<int>, s: int, tagged: map<IdentityKey, int>)
    requires s !in done
    requires forall k: IdentityKey :: k in tagged <==> k in Keys(entries) && k.scope == s
    requires forall k: IdentityKey :: k in tagged ==>
               tagged[k] == HashIn(ScopeHashes(slot, attempts, entries, k.scope), k.digest)
    ensures HashesOf(slot, attempts, entries, done).Keys !! tagged.Keys
    ensures HashesOf(slot, attempts, entries, done + {s}) == HashesOf(slot, attempts, entries, done) + tagged
  {
    hide ScopeHashes, Keys, HashIn;
    var more, both := HashesOf(slot, attempts, entries, done + {s}), HashesOf(slot, attempts, entries, done) + tagged;
    forall k: IdentityKey
      ensures k in more <==> k in both
      ensures k in more ==> more[k] == both[k]
    {}
  }

  /** What a scope's groups need to be assigned. */
  lemma ReadyScope(heap: seq<Row>, digest: Payload -> Digest, entries: set<Entry>, rows: map<IdentityKey, nat>,
      scopes: map<int, OrderedGroups>, kept: seq<nat>, s: int)
    requires Collected(heap, digest, entries, rows, scopes, kept) && s in scopes
    ensures Filled(scopes[s]) && GroupsOk(SetsOf(scopes[s])) && HaveRows(scopes[s], rows, s)
    ensures SetsOf(scopes[s]) == ScopeGroups(entries, s)
  {
    GroupsAreDisjoint(entries, s);
    forall h, d | h in scopes[s] && d in Elements(scopes[s][h])
      ensures IdentityKey(s, d) in rows
    {
      SetOfGroup(scopes[s], h);
      assert d in ScopeGroups(entries, s)[h];
      var e :| e in entries && e.key.scope == s && e.legacy == h && e.key.digest == d;
      assert e.key == IdentityKey(s, d);
    }
  }

  lemma RowsAreSeparate(heap: seq<Row>, digest: Payload -> Digest, entries: set<Entry>, rows: map<IdentityKey, nat>,
      scopes: map<int, OrderedGroups>, kept: seq<nat>)
    requires Collected(heap, digest, entries, rows, scopes, kept)
    ensures Separate(rows, |heap|) && rows.Keys == Keys(entries) && scopes.Keys == Scopes(entries)
  {}

  /** With every scope done, the kept rows carry the outcome. */
  lemma BatchDone(
      slot: (Digest, nat) -> int, attempts: nat, before: seq<Row>, after: seq<Row>, digest: Payload -> Digest, entries: set<Entry>,
      rows: map<IdentityKey, nat>, scopes: map<int, OrderedGroups>, kept: seq<nat>, hashes: map<IdentityKey, int>)
    requires Collected(before, digest, entries, rows, scopes, kept)
    requires hashes.Keys == Keys(entries) && Wrote(before, after, rows, hashes)
    ensures Deduplicated(before, after, kept, hashes, digest)
  {
    KeptAreDistinct(before, digest, rows, kept);
    hide Conflicting, ScopeGroups, SetsOf, Filled, Scopes;
    forall k | k in hashes
      ensures Represented(before, kept, digest, k)
    {
      assert rows[k] in kept;
      var i :| 0 <= i < |kept| && kept[i] == rows[k];
    }
    forall p: nat | p < |before| && p !in kept
      ensures after[p] == before[p]
    {
      assert forall k :: k in hashes ==> rows[k] in kept;
    }
  }

  lemma KeptAreDistinct(heap: seq<Row>, digest: Payload -> Digest, rows: map<IdentityKey, nat>, kept: seq<nat>)
    requires KeptRows(heap, digest, rows, kept)
    ensures forall i, j :: 0 <= i < j < |kept| ==> KeyOf(heap[kept[i]], digest) != KeyOf(heap[kept[j]], digest)
  {
    forall i, j | 0 <= i < j < |kept|
      ensures KeyOf(heap[kept[i]], digest) != KeyOf(heap[kept[j]], digest)
    {
      assert kept[i] != kept[j];
    }
  }

  lemma NothingHashed(slot: (Digest, nat) -> int, attempts: nat, before: seq<Row>, entries: set<Entry>, rows: map<IdentityKey, nat>)
    ensures Wrote(before, before, rows, HashesOf(slot, attempts, entries, {}))
  {
    assert HashesOf(slot, attempts, entries, {}) == map[];
  }

  lemma AllHashed(slot: (Digest, nat) -> int, attempts: nat, entries: set<Entry>)
    requires !Conflicting(entries)
    requires forall s :: s in Scopes(entries) ==> ScopeHashes(slot, attempts, entries, s).Some?
    ensures Outcome(slot, attempts, entries) == Some(HashesOf(slot, attempts, entries, Scopes(entries)))
  {
    hide ScopeHashes, Conflicting, HashIn;
    var all := HashesOf(slot, attempts, entries, Scopes(entries));
    assert all.Keys == Keys(entries);
    assert Outcome(slot, attempts, entries).value == all;
  }

  lemma OneFails(slot: (Digest, nat) -> int, attempts: nat, entries: set<Entry>, s: int)
    requires s in Scopes(entries) && ScopeHashes(slot, attempts, entries, s).None?
    ensures Outcome(slot, attempts, entries).None?
  {}

  /** Assign the hashes of one scope on top of those already written. */
  method AssignOne(
      heap: array<Row>, slot: (Digest, nat) -> int, attempts: nat, rows: map<IdentityKey, nat>, scopes: map<int, OrderedGroups>,
      s: int, ghost kept: seq<nat>, ghost digest: Payload -> Digest, ghost entries: set<Entry>, ghost before: seq<Row>,
      ghost done: set<int>)
      returns (ok: bool)
    requires Collected(before, digest, entries, rows, scopes, kept) && s in scopes && s !in done
    requires |before| == heap.Length && Wrote(before, heap[..], rows, HashesOf(slot, attempts, entries, done))
    modifies heap
    ensures ok == ScopeHashes(slot, attempts, entries, s).Some?
    ensures ok ==> Wrote(before, heap[..], rows, HashesOf(slot, attempts, entries, done + {s}))
  {
    hide Conflicting, Collected, Wrote, HashesOf, Separate, ScopeGroups, GroupsOk, SetsOf, Filled, HaveRows, Tagged, Scopes,
      ScopeHashes, Keys, AllocateScope;
    RowsAreSeparate(before, digest, entries, rows, scopes, kept);
    NoConflict(before, digest, entries, rows, scopes, kept);
    SameHashes(slot, attempts, entries, s);
    ReadyScope(before, digest, entries, rows, scopes, kept, s);
    ghost var middle := heap[..];
    ghost var hashes;
    ok, hashes := AssignScope(heap, rows, s, scopes[s], slot, attempts);
    if ok {
      ScopeDone(slot, attempts, entries, done, s, hashes);
      WroteBoth(before, middle, heap[..], rows, HashesOf(slot, attempts, entries, done), Tagged(s, hashes));
    }
  }

  lemma OneMore(all: set<int>, rest: set<int>, s: int)
    requires s in rest && rest <= all
    ensures all - rest + {s} == all - (rest - {s})
    ensures s in all && s !in all - rest && |rest - {s}| < |rest|
  {}

  /** Assign the hashes of every scope, in any order. */
  method AssignScopes(
      heap: array<Row>, slot: (Digest, nat) -> int, attempts: nat, rows: map<IdentityKey, nat>, scopes: map<int, OrderedGroups>,
      ghost kept: seq<nat>, ghost digest: Payload -> Digest, ghost entries: set<Entry>)
      returns (ok: bool)
    requires Collected(heap[..], digest, entries, rows, scopes, kept)
    modifies heap
    ensures ok == Outcome(slot, attempts, entries).Some?
    ensures ok ==> Wrote(old(heap[..]), heap[..], rows, HashesOf(slot, attempts, entries, Scopes(entries)))
    ensures ok ==> Outcome(slot, attempts, entries).value == HashesOf(slot, attempts, entries, Scopes(entries))
  {
    hide Conflicting, Collected, Outcome, Wrote, HashesOf, Separate, Scopes, ScopeHashes, Keys;
    ghost var before := heap[..];
    RowsAreSeparate(before, digest, entries, rows, scopes, kept);
    NoConflict(before, digest, entries, rows, scopes, kept);
    NothingHashed(slot, attempts, before, entries, rows);
    var rest := scopes.Keys;
    ghost var done: set<int> := {};
    while rest != {}
      invariant done == Scopes(entries) - rest && rest <= Scopes(entries)
      invariant Wrote(before, heap[..], rows, HashesOf(slot, attempts, entries, done))
      invariant forall s :: s in done ==> ScopeHashes(slot, attempts, entries, s).Some?
      decreases |rest|
    {
      ghost var some := Pick(rest);
      var s :| s in rest;
      OneMore(Scopes(entries), rest, s);
      ok := AssignOne(heap, slot, attempts, rows, scopes, s, kept, digest, entries, before, done);
      if !ok {
        OneFails(slot, attempts, entries, s);
        return;
      }
      rest := rest - {s};
      done := done + {s};
    }
    assert done == Scopes(entries);
    AllHashed(slot, attempts, entries);
    ok := true;
  }

  /** `ScopeHashes` is the allocation of the scope's groups. */
  lemma SameHashes(slot: (Digest, nat) -> int, attempts: nat, entries: set<Entry>, s: int)
    ensures forall h :: h in ScopeGroups(entries, s) ==> ScopeGroups(entries, s)[h] != {}
    ensures AllocateScope(slot, attempts, ScopeGroups(entries, s)) == ScopeHashes(slot, attempts, entries, s)
  {
    GroupsAreFilled(entries, s);
  }

  /**
   * `deduplicateHashedRowsWithAllocator`: whatever the order of the rows and of Go's maps, the
   * batch fails or succeeds, and every identity gets its hash, as `Outcome` says.
   */
  method DeduplicateHashedRows(
      heap: array<Row>, items: seq<Option<nat>>, digest: Payload -> Digest, slot: (Digest, nat) -> int, attempts: nat)
      returns (r: Result<seq<nat>>)
    requires Points(heap[..], items)
    modifies heap
    ensures var outcome := Outcome(slot, attempts, EntriesOf(old(heap[..]), items, digest));
            && (r.Err? <==> None in items || outcome.None?)
            && (r.Ok? ==> Deduplicated(old(heap[..]), heap[..], r.value, outcome.value, digest))
    ensures r.Ok? ==> AllPresent(items) && r.value == Firsts(Values(items), Identify(old(heap[..]), digest))
  {
    ghost var before := heap[..];
    ghost var entries := EntriesOf(before, items, digest);
    var collected := Collect(heap, items, digest);
    if collected.Err? {
      return Err(collected.error);
    }
    var (rows, scopes, kept) := collected.value;
    hide Collected, EntriesOf, Outcome, Wrote, HashesOf, Deduplicated, Conflicting, Keys, Firsts;
    var ok := AssignScopes(heap, slot, attempts, rows, scopes, kept, digest, entries);
    if !ok {
      return Err("signed 32-bit slot space exhausted");
    }
    OutcomeKeys(slot, attempts, entries);
    BatchDone(slot, attempts, before, heap[..], digest, entries, rows, scopes, kept, HashesOf(slot, attempts, entries, Scopes(entries)));
    r := Ok(kept);
  }

  lemma OutcomeKeys(slot: (Digest, nat) -> int, attempts: nat, entries: set<Entry>)
    ensures HashesOf(slot, attempts, entries, Scopes(entries)).Keys == Keys(entries)
  {}
}
