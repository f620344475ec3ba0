/**
 * Deduplicating the hashed relation rows of a batch by (scope, SHA-256 identity), and giving
 * rows whose legacy hashes collide a compatibility slot of their own.
 */
module Slots {
  import opened Options
  import opened Ordering

  /** The nullable text columns of a row. */
  type Payload = seq<Option<string>>

  /** A row in memory; `identity` is unset until a slot has been assigned. */
  datatype Row = Row(scope: int, payload: Payload, hash: int, identity: Option<Digest>)

  datatype IdentityKey = IdentityKey(scope: int, digest: Digest)

  /** What a row contributes: its identity, its legacy hash and its payload. */
  datatype Entry = Entry(key: IdentityKey, legacy: int, payload: Payload)

  // ----- the allocation, as a function of the groups -----

  /** Hashes in use within a scope, and the hash of each identity treated so far. */
  datatype Allocation = Allocation(used: set<int>, hashes: map<Digest, int>)

  /** The digests of a scope, grouped by legacy hash. */
  type Groups = map<int, set<Digest>>

  ghost function FirstFree(slot: (Digest, nat) -> int, d: Digest, attempt: nat, attempts: nat, taken: set<int>): Option<int>
    decreases attempts - attempt
  {
    if attempt >= attempts then None
    else if slot(d, attempt) !in taken then Some(slot(d, attempt))
    else FirstFree(slot, d, attempt + 1, attempts, taken)
  }

  lemma {:induction false} FirstFreeIsFree(slot: (Digest, nat) -> int, d: Digest, attempt: nat, attempts: nat, taken: set<int>)
    ensures var c := FirstFree(slot, d, attempt, attempts, taken); c.Some? ==> c.value !in taken
    decreases attempts - attempt
  {
    if attempt < attempts && slot(d, attempt) in taken {
      FirstFreeIsFree(slot, d, attempt + 1, attempts, taken);
    }
  }

  /** Each collided digest takes the first slot that is neither reserved nor used. */
  ghost function AllocateCollided(
      slot: (Digest, nat) -> int, attempts: nat, reserved: set<int>, digests: seq<Digest>, a: Allocation): Option<Allocation>
  {
    if digests == [] then Some(a)
    else
      var c := FirstFree(slot, digests[0], 0, attempts, reserved + a.used);
      if c.None? then None
      else
        AllocateCollided(slot, attempts, reserved, digests[1..],
          Allocation(a.used + {c.value}, a.hashes[digests[0] := c.value]))
  }

  /** The least digest of a group keeps the legacy hash. */
  ghost function Lead(a: Allocation, legacy: int, digest: Digest): Allocation {
    Allocation(a.used + {legacy}, a.hashes[digest := legacy])
  }

  /** The digests of a group in order. */
  ghost function InOrder(group: set<Digest>): (digests: seq<Digest>)
    ensures IsAscending(digests) && forall d :: d in digests <==> d in group
    ensures group != {} ==> digests != [] && digests[0] == Least(group)
  {
    AscendingOrders(group);
    var xs := Ascending(group);
    assert forall i :: 0 <= i < |xs| ==> xs[i] in xs;
    xs
  }

  ghost function AllocateGroup(
      slot: (Digest, nat) -> int, attempts: nat, reserved: set<int>, legacy: int, group: set<Digest>, a: Allocation)
    : Option<Allocation>
    requires group != {}
  {
    var digests := InOrder(group);
    AllocateCollided(slot, attempts, reserved, digests[1..], Lead(a, legacy, digests[0]))
  }

  /** Every listed group exists and is not empty. */
  ghost predicate Listed(groups: Groups, legacies: seq<int>) {
    forall i :: 0 <= i < |legacies| ==> legacies[i] in groups && groups[legacies[i]] != {}
  }

  ghost function AllocateGroups(
      slot: (Digest, nat) -> int, attempts: nat, groups: Groups, legacies: seq<int>, a: Allocation): Option<Allocation>
    requires Listed(groups, legacies)
  {
    if legacies == [] then Some(a)
    else
      var b := AllocateGroup(slot, attempts, groups.Keys, legacies[0], groups[legacies[0]], a);
      if b.None? then None else AllocateGroups(slot, attempts, groups, legacies[1..], b.value)
  }

  ghost predicate GroupsOk(groups: Groups) {
    && (forall h :: h in groups ==> groups[h] != {})
    && (forall g, h, d :: g in groups && h in groups && d in groups[g] && d in groups[h] ==> g == h)
  }

  /** The legacy hashes in order. */
  ghost function Legacies(groups: Groups): (legacies: seq<int>)
    requires forall h :: h in groups ==> groups[h] != {}
    ensures Listed(groups, legacies) && IsAscending(legacies)
    ensures forall h :: h in legacies <==> h in groups
  {
    AscendingOrders(groups.Keys);
    var xs := Ascending(groups.Keys);
    assert forall i :: 0 <= i < |xs| ==> xs[i] in xs;
    xs
  }

  ghost function AllocateScope(slot: (Digest, nat) -> int, attempts: nat, groups: Groups): Option<map<Digest, int>>
    requires forall h :: h in groups ==> groups[h] != {}
  {
    var a := AllocateGroups(slot, attempts, groups, Legacies(groups), Allocation({}, map[]));
    if a.None? then None else Some(a.value.hashes)
  }

  // ----- what the allocation guarantees -----

  ghost predicate Injective(hashes: map<Digest, int>) {
    forall d, e :: d in hashes && e in hashes && hashes[d] == hashes[e] ==> d == e
  }

  ghost predicate Sound(a: Allocation) {
    Injective(a.hashes) && forall d :: d in a.hashes ==> a.hashes[d] in a.used
  }

  /** `b` extends `a` by the given digests. */
  ghost predicate Extends(a: Allocation, b: Allocation, digests: set<Digest>) {
    && b.hashes.Keys == a.hashes.Keys + digests
    && forall d :: d in a.hashes ==> b.hashes[d] == a.hashes[d]
  }

  lemma {:induction false} CollidedAreSound(
      slot: (Digest, nat) -> int, attempts: nat, reserved: set<int>, digests: seq<Digest>, a: Allocation)
    requires Sound(a) && IsAscending(digests) && forall d :: d in digests ==> d !in a.hashes
    ensures var b := AllocateCollided(slot, attempts, reserved, digests, a);
            b.Some? ==>
              && Sound(b.value) && Extends(a, b.value, Elements(digests))
              && b.value.used * reserved == a.used * reserved
    decreases |digests|
  {
    if digests != [] {
      var c := FirstFree(slot, digests[0], 0, attempts, reserved + a.used);
      if c.Some? {
        FirstFreeIsFree(slot, digests[0], 0, attempts, reserved + a.used);
        var a' := Allocation(a.used + {c.value}, a.hashes[digests[0] := c.value]);
        assert a'.used * reserved == a.used * reserved;
        CollidedAreSound(slot, attempts, reserved, digests[1..], a');
        assert Elements(digests) == {digests[0]} + Elements(digests[1..]);
      }
    }
  }

  /** The digests of some groups. */
  ghost function Members(groups: Groups, legacies: set<int>): set<Digest> {
    set h, d | h in legacies && h in groups && d in groups[h] :: d
  }

  /** What is known once the groups of `done` have been treated. */
  ghost predicate Progress(groups: Groups, done: set<int>, a: Allocation)
    requires GroupsOk(groups) && done <= groups.Keys
  {
    && Sound(a)
    && a.used * groups.Keys == done
    && a.hashes.Keys == Members(groups, done)
    && (forall h :: h in done ==> Least(groups[h]) in a.hashes && a.hashes[Least(groups[h])] == h)
  }

  /** What treating one group makes of an allocation. */
  ghost predicate Treated(a: Allocation, b: Allocation, reserved: set<int>, h: int, group: set<Digest>)
    requires group != {}
  {
    && Sound(b) && Extends(a, b, group)
    && b.used * reserved == (a.used + {h}) * reserved
    && Least(group) in b.hashes && b.hashes[Least(group)] == h
  }

  lemma OrderedGroup(group: set<Digest>)
    requires group != {}
    ensures var digests := InOrder(group);
            && digests != [] && digests[0] == Least(group) && IsAscending(digests[1..])
            && Elements(digests[1..]) == group - {Least(group)}
  {
    var digests := InOrder(group);
    hide InOrder, Least;
    forall d
      ensures d in digests[1..] <==> d in group && d != digests[0]
    {
      assert d in digests <==> d == digests[0] || d in digests[1..];
      if d in digests[1..] {
        var i :| 0 <= i < |digests| - 1 && digests[1..][i] == d;
        assert digests[i + 1] == d && digests[0] < digests[i + 1];
      }
    }
  }

  lemma LeadIsSound(a: Allocation, h: int, d: Digest)
    requires Sound(a) && h !in a.used && d !in a.hashes
    ensures Sound(Lead(a, h, d)) && Extends(a, Lead(a, h, d), {d})
    ensures Lead(a, h, d).used == a.used + {h} && Lead(a, h, d).hashes[d] == h
  {}

  lemma Composed(a: Allocation, lead: Allocation, b: Allocation, reserved: set<int>, h: int, group: set<Digest>)
    requires group != {} && Sound(b) && h !in a.used
    requires Extends(a, lead, {Least(group)}) && Extends(lead, b, group - {Least(group)})
    requires lead.used == a.used + {h} && b.used * reserved == lead.used * reserved
    requires lead.hashes[Least(group)] == h
    ensures Treated(a, b, reserved, h, group)
  {
    hide Sound, Least;
    assert {Least(group)} + (group - {Least(group)}) == group by { assert Least(group) in group; }
  }

  /** Treating a group of identities that have no hash yet gives them sound hashes; the least one keeps the legacy hash. */
  lemma GroupIsSound(
      slot: (Digest, nat) -> int, attempts: nat, reserved: set<int>, h: int, group: set<Digest>, a: Allocation)
    requires group != {} && Sound(a) && h !in a.used && group !! a.hashes.Keys
    ensures var b := AllocateGroup(slot, attempts, reserved, h, group, a);
            b.Some? ==> Treated(a, b.value, reserved, h, group)
  {
    hide Sound, Extends, Treated, InOrder, Least, Lead, IsAscending, AllocateCollided;
    var digests := InOrder(group);
    OrderedGroup(group);
    var lead := Lead(a, h, digests[0]);
    assert digests[0] in group;
    LeadIsSound(a, h, digests[0]);
    NoHashYet(a, lead, group, digests[1..]);
    CollidedAreSound(slot, attempts, reserved, digests[1..], lead);
    var b := AllocateCollided(slot, attempts, reserved, digests[1..], lead);
    if b.Some? {
      Composed(a, lead, b.value, reserved, h, group);
    }
  }

  lemma NoHashYet(a: Allocation, lead: Allocation, group: set<Digest>, rest: seq<Digest>)
    requires group != {} && group !! a.hashes.Keys && Extends(a, lead, {Least(group)})
    requires Elements(rest) == group - {Least(group)}
    ensures forall d :: d in rest ==> d !in lead.hashes
  {
    hide Least;
    forall d | d in rest
      ensures d !in lead.hashes
    {
      assert d in Elements(rest);
      assert d != Least(group);
    }
  }

  lemma MembersGrow(groups: Groups, done: set<int>, h: int)
    requires GroupsOk(groups) && h in groups && h !in done
    ensures Members(groups, done + {h}) == Members(groups, done) + groups[h]
    ensures groups[h] !! Members(groups, done)
  {}

  lemma TreatedIsProgress(groups: Groups, done: set<int>, h: int, a: Allocation, b: Allocation)
    requires GroupsOk(groups) && done <= groups.Keys && Progress(groups, done, a) && h in groups && h !in done
    requires Treated(a, b, groups.Keys, h, groups[h])
    ensures Progress(groups, done + {h}, b)
  {
    MembersGrow(groups, done, h);
    hide Members, Sound, Least;
    assert (a.used + {h}) * groups.Keys == done + {h};
  }

  lemma GroupProgress(
      slot: (Digest, nat) -> int, attempts: nat, groups: Groups, done: set<int>, h: int, a: Allocation)
    requires GroupsOk(groups) && done <= groups.Keys && Progress(groups, done, a) && h in groups && h !in done
    ensures var b := AllocateGroup(slot, attempts, groups.Keys, h, groups[h], a);
            b.Some? ==> Progress(groups, done + {h}, b.value)
  {
    hide AllocateGroup, Members, Sound, Least, Treated;
    MembersGrow(groups, done, h);
    assert h !in a.used;
    GroupIsSound(slot, attempts, groups.Keys, h, groups[h], a);
    var b := AllocateGroup(slot, attempts, groups.Keys, h, groups[h], a);
    if b.Some? {
      TreatedIsProgress(groups, done, h, a, b.value);
    }
  }

  lemma {:induction false} GroupsProgress(
      slot: (Digest, nat) -> int, attempts: nat, groups: Groups, done: set<int>, legacies: seq<int>, a: Allocation)
    requires GroupsOk(groups) && done <= groups.Keys && Progress(groups, done, a)
    requires IsAscending(legacies) && Listed(groups, legacies) && forall h :: h in legacies ==> h !in done
    ensures done + Elements(legacies) <= groups.Keys
    ensures var b := AllocateGroups(slot, attempts, groups, legacies, a);
            b.Some? ==> Progress(groups, done + Elements(legacies), b.value)
    decreases |legacies|
  {
    hide GroupsOk, Progress, AllocateGroup;
    if legacies == [] {
      assert done + Elements(legacies) == done;
    } else {
      var h, rest := legacies[0], legacies[1..];
      HeadOff(legacies);
      assert done + {h} + Elements(rest) == done + Elements(legacies);
      var b := AllocateGroup(slot, attempts, groups.Keys, h, groups[h], a);
      GroupProgress(slot, attempts, groups, done, h, a);
      if b.Some? {
        GroupsProgress(slot, attempts, groups, done + {h}, rest, b.value);
      }
    }
  }

  lemma HeadOff(xs: seq<int>)
    requires IsAscending(xs) && xs != []
    ensures IsAscending(xs[1..]) && xs[0] !in xs[1..]
    ensures Elements(xs) == {xs[0]} + Elements(xs[1..])
  {
    forall x
      ensures x in xs <==> x == xs[0] || x in xs[1..]
    {}
  }

  /**
   * A successful allocation gives every identity of the scope one hash, distinct identities
   * distinct hashes, and lets the least digest of each legacy hash, hence every identity
   * without a collision, keep its legacy hash.
   */
  lemma AllocationIsCorrect(slot: (Digest, nat) -> int, attempts: nat, groups: Groups)
    requires GroupsOk(groups)
    ensures var r := AllocateScope(slot, attempts, groups);
            r.Some? ==>
              && Injective(r.value)
              && r.value.Keys == Members(groups, groups.Keys)
              && (forall h :: h in groups ==> Least(groups[h]) in r.value && r.value[Least(groups[h])] == h)
  {
    var legacies := Legacies(groups);
    NoMembers(groups);
    hide AllocateGroups, Legacies, Members, Sound, GroupsOk;
    GroupsProgress(slot, attempts, groups, {}, legacies, Allocation({}, map[]));
    assert {} + Elements(legacies) == groups.Keys;
    var r := AllocateScope(slot, attempts, groups);
    if r.Some? {
      assert Progress(groups, groups.Keys, AllocateGroups(slot, attempts, groups, legacies, Allocation({}, map[])).value);
      SoundIsInjective(AllocateGroups(slot, attempts, groups, legacies, Allocation({}, map[])).value);
    }
  }

  lemma SoundIsInjective(a: Allocation)
    requires Sound(a)
    ensures Injective(a.hashes)
  {}

  lemma NoMembers(groups: Groups)
    requires GroupsOk(groups)
    ensures Members(groups, {}) == {} && Progress(groups, {}, Allocation({}, map[]))
  {}

  /** In particular an identity that collides with no other keeps its legacy hash. */
  lemma UncollidedKeepHashes(slot: (Digest, nat) -> int, attempts: nat, groups: Groups, h: int, d: Digest)
    requires GroupsOk(groups) && h in groups && groups[h] == {d}
    ensures var r := AllocateScope(slot, attempts, groups); r.Some? ==> d in r.value && r.value[d] == h
  {
    AllocationIsCorrect(slot, attempts, groups);
    assert Least(groups[h]) == d;
  }

  lemma OneInOrder(group: set<Digest>, d: Digest)
    requires group == {d}
    ensures InOrder(group) == [d]
  {
    OrderedGroup(group);
    var rest := InOrder(group)[1..];
    assert Elements(rest) == {};
    if rest != [] {
      SomeElement(rest);
      assert false;
    }
  }

  /** The hashes that a run over singleton groups adds. */
  ghost predicate Kept(groups: Groups, legacies: seq<int>, before: map<Digest, int>, after: map<Digest, int>)
    requires Listed(groups, legacies)
  {
    && KeptHashes(groups, legacies, after)
    && (forall d :: d in before && Outside(groups, legacies, d) ==> d in after && after[d] == before[d])
    && (forall d :: d in after ==> d in before || d in Members(groups, Elements(legacies)))
  }

  ghost predicate KeptHashes(groups: Groups, legacies: seq<int>, after: map<Digest, int>)
    requires Listed(groups, legacies)
  {
    forall i, d :: 0 <= i < |legacies| && d in groups[legacies[i]] ==> d in after && after[d] == legacies[i]
  }

  ghost predicate Outside(groups: Groups, legacies: seq<int>, d: Digest)
    requires Listed(groups, legacies)
  {
    forall i :: 0 <= i < |legacies| ==> d !in groups[legacies[i]]
  }

  ghost predicate Singletons(groups: Groups) {
    GroupsOk(groups) && forall h :: h in groups ==> groups[h] == {Least(groups[h])}
  }

  /** Without collisions every identity keeps its legacy hash, and the allocation cannot fail. */
  lemma {:induction false} SingletonsKept(
      slot: (Digest, nat) -> int, attempts: nat, groups: Groups, legacies: seq<int>, a: Allocation)
    requires Singletons(groups) && IsAscending(legacies) && Listed(groups, legacies)
    ensures var b := AllocateGroups(slot, attempts, groups, legacies, a);
            b.Some? && Kept(groups, legacies, a.hashes, b.value.hashes)
    decreases |legacies|
  {
    if legacies != [] {
      var h, rest := legacies[0], legacies[1..];
      var d := Least(groups[h]);
      OneInOrder(groups[h], d);
      var lead := Lead(a, h, d);
      assert AllocateGroup(slot, attempts, groups.Keys, h, groups[h], a) == Some(lead);
      SingletonsKept(slot, attempts, groups, rest, lead);
      KeptStep(groups, legacies, a.hashes, AllocateGroups(slot, attempts, groups, rest, lead).value.hashes);
    }
  }

  /** In a sequence of singleton groups only the first one holds its digest. */
  lemma HeadIsApart(groups: Groups, legacies: seq<int>, h: int, d: Digest)
    requires Singletons(groups) && IsAscending(legacies) && Listed(groups, legacies) && legacies != []
    requires h == legacies[0] && d == Least(groups[h])
    ensures Outside(groups, legacies[1..], d) && groups[h] == {d}
    ensures forall x :: Outside(groups, legacies, x) ==> Outside(groups, legacies[1..], x) && x != d
    ensures Elements(legacies) == {h} + Elements(legacies[1..])
  {
    var rest := legacies[1..];
    HeadOff(legacies);
    forall i | 0 <= i < |rest|
      ensures d !in groups[rest[i]]
    {
      Apart(groups, h, rest[i], d);
    }
    hide Least, Singletons, IsAscending, Elements;
    assert forall i :: 0 <= i < |rest| ==> rest[i] == legacies[i + 1];
  }

  lemma KeptStep(groups: Groups, legacies: seq<int>, before: map<Digest, int>, after: map<Digest, int>)
    requires Singletons(groups) && IsAscending(legacies) && Listed(groups, legacies) && legacies != []
    requires Kept(groups, legacies[1..], before[Least(groups[legacies[0]]) := legacies[0]], after)
    ensures Kept(groups, legacies, before, after)
  {
    var h, rest := legacies[0], legacies[1..];
    var d := Least(groups[h]);
    HeadIsApart(groups, legacies, h, d);
    hide Least, Singletons, IsAscending, Members, Elements, Outside, KeptHashes;
    assert d in after && after[d] == h;
    MoreHashes(groups, legacies, after, d);
    MoreMembers(groups, Elements(rest), Elements(legacies), h);
  }

  lemma MoreHashes(groups: Groups, legacies: seq<int>, after: map<Digest, int>, d: Digest)
    requires Listed(groups, legacies) && legacies != [] && groups[legacies[0]] == {d}
    requires KeptHashes(groups, legacies[1..], after) && d in after && after[d] == legacies[0]
    ensures KeptHashes(groups, legacies, after)
  {
    var rest := legacies[1..];
    forall i, x | 0 <= i < |legacies| && x in groups[legacies[i]]
      ensures x in after && after[x] == legacies[i]
    {
      if i > 0 { assert rest[i - 1] == legacies[i]; }
    }
  }

  lemma MoreMembers(groups: Groups, some: set<int>, more: set<int>, h: int)
    requires more == {h} + some && h in groups
    ensures Members(groups, some) <= Members(groups, more) && groups[h] <= Members(groups, more)
  {}

  lemma Apart(groups: Groups, g: int, h: int, d: Digest)
    requires Singletons(groups) && g in groups && h in groups && g != h && d in groups[g]
    ensures d !in groups[h]
  {}

  /** The groups of a scope whose rows carry the allocated hashes. */
  ghost function Regrouped(hashes: map<Digest, int>): Groups {
    map h | h in hashes.Values :: set d | d in hashes && hashes[d] == h
  }

  lemma RegroupedSingletons(hashes: map<Digest, int>)
    requires Injective(hashes)
    ensures Singletons(Regrouped(hashes))
    ensures forall d :: d in hashes ==> hashes[d] in Regrouped(hashes) && d in Regrouped(hashes)[hashes[d]]
  {
    var groups := Regrouped(hashes);
    forall h | h in groups
      ensures groups[h] != {} && groups[h] == {Least(groups[h])}
    {
      var d :| d in hashes && hashes[d] == h;
      assert groups[h] == {d};
    }
  }

  /** Allocating again from the allocated hashes changes nothing. */
  lemma AllocationIsStable(slot: (Digest, nat) -> int, attempts: nat, hashes: map<Digest, int>)
    requires Injective(hashes)
    ensures GroupsOk(Regrouped(hashes))
    ensures AllocateScope(slot, attempts, Regrouped(hashes)) == Some(hashes)
  {
    var groups := Regrouped(hashes);
    RegroupedSingletons(hashes);
    var legacies := Legacies(groups);
    SingletonsKept(slot, attempts, groups, legacies, Allocation({}, map[]));
    var b := AllocateGroups(slot, attempts, groups, legacies, Allocation({}, map[])).value.hashes;
    hide AllocateGroups, Legacies, Singletons;
    KeptIsSame(hashes, groups, legacies, b);
  }

  lemma KeptIsSame(hashes: map<Digest, int>, groups: Groups, legacies: seq<int>, b: map<Digest, int>)
    requires groups == Regrouped(hashes) && Listed(groups, legacies) && forall h :: h in legacies <==> h in groups
    requires Kept(groups, legacies, map[], b)
    ensures b == hashes
  {
    forall d | d in hashes
      ensures d in b && b[d] == hashes[d]
    {
      assert hashes[d] in groups && d in groups[hashes[d]];
      var i :| 0 <= i < |legacies| && legacies[i] == hashes[d];
    }
  }
}
