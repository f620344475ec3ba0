/**
 * The backlink from a master to its main release, repaired by two statements: one clears
 * backlinks that no longer qualify, the other sets the newest qualifying release.
 */
module Backlink {
  import opened Options
  import opened Sets

  /** `lastModified` is a timestamp, of which only the order matters. */
  datatype Release = Release(masterId: Option<int>, isMaster: Option<bool>, lastModified: int)

  type Releases = map<int, Release>
  type Masters = map<int, Option<int>>

  predicate Qualifies(releases: Releases, r: int, master: int) {
    r in releases && releases[r].masterId == Some(master) && releases[r].isMaster == Some(true)
  }

  /** `last_modified_at desc, id desc`. */
  predicate Newer(releases: Releases, a: int, b: int)
    requires a in releases && b in releases
  {
    releases[a].lastModified > releases[b].lastModified
    || (releases[a].lastModified == releases[b].lastModified && a > b)
  }

  /** The qualifying release of a master that is maximal by (last modified, id). */
  ghost predicate IsNewest(releases: Releases, r: int, master: int) {
    Qualifies(releases, r, master)
    && forall other :: Qualifies(releases, other, master) && other != r ==> Newer(releases, r, other)
  }

  lemma NewestIsUnique(releases: Releases, a: int, b: int, master: int)
    requires IsNewest(releases, a, master) && IsNewest(releases, b, master)
    ensures a == b
  {}

  /** What the repair is for: every backlink is the newest qualifying release, or null without one. */
  ghost predicate Repaired(masters: Masters, releases: Releases) {
    forall m :: m in masters ==> Linked(masters[m], releases, m)
  }

  ghost predicate Linked(link: Option<int>, releases: Releases, master: int) {
    match link
    case Some(r) => IsNewest(releases, r, master)
    case None => forall r :: !Qualifies(releases, r, master)
  }

  /** The rows of the `desired` subquery: for each master that has one, its newest qualifying release. */
  ghost predicate IsDesired(desired: map<int, int>, releases: Releases) {
    && (forall m :: m in desired ==> IsNewest(releases, desired[m], m))
    && (forall r, m :: Qualifies(releases, r, m) ==> m in desired)
  }

  /** `order by master_id, last_modified_at desc, id desc`. */
  predicate Before(releases: Releases, a: int, b: int)
    requires a in releases && b in releases
    requires releases[a].masterId.Some? && releases[b].masterId.Some?
  {
    releases[a].masterId.value < releases[b].masterId.value
    || (releases[a].masterId == releases[b].masterId && Newer(releases, a, b))
  }

  /** A row of the `desired` subquery before `distinct on`. */
  predicate Selected(releases: Releases, r: int) {
    r in releases && releases[r].isMaster == Some(true) && releases[r].masterId.Some?
  }

  ghost predicate Ordered(releases: Releases, rows: seq<int>) {
    && (forall i :: 0 <= i < |rows| ==> Selected(releases, rows[i]))
    && (forall i, j :: 0 <= i < j < |rows| ==> Before(releases, rows[i], rows[j]))
  }

  function Stale(link: Option<int>, releases: Releases, master: int): bool {
    link.Some? && !Qualifies(releases, link.value, master)
  }

  function Cleared(masters: Masters, releases: Releases): Masters {
    map m | m in masters :: if Stale(masters[m], releases, m) then None else masters[m]
  }

  predicate Pending(masters: Masters, desired: map<int, int>, m: int) {
    m in masters && m in desired && masters[m] != Some(desired[m])
  }

  function Assigned(masters: Masters, desired: map<int, int>): Masters {
    map m | m in masters :: if Pending(masters, desired, m) then Some(desired[m]) else masters[m]
  }

  /** From any prior state the two statements leave every master repaired. */
  lemma TwoStatementsRepair(masters: Masters, releases: Releases, desired: map<int, int>)
    requires IsDesired(desired, releases)
    ensures Repaired(Assigned(Cleared(masters, releases), desired), releases)
  {
    var cleared := Cleared(masters, releases);
    var after := Assigned(cleared, desired);
    forall m | m in after
      ensures Linked(after[m], releases, m)
    {
      if m in desired {
        assert after[m] == Some(desired[m]);
      } else {
        assert forall r :: !Qualifies(releases, r, m);
        assert cleared[m] == None;
      }
    }
  }

  /** The repaired backlinks are determined by the releases alone. */
  lemma RepairIsDetermined(a: Masters, b: Masters, releases: Releases)
    requires a.Keys == b.Keys && Repaired(a, releases) && Repaired(b, releases)
    ensures a == b
  {
    forall m | m in a
      ensures a[m] == b[m]
    {
      assert Linked(a[m], releases, m) && Linked(b[m], releases, m);
      if a[m].Some? && b[m].Some? {
        NewestIsUnique(releases, a[m].value, b[m].value, m);
      }
    }
  }

  /** Nothing is stale or pending exactly when everything is repaired. */
  lemma NothingToDoIff(masters: Masters, releases: Releases, desired: map<int, int>)
    requires IsDesired(desired, releases)
    ensures Repaired(masters, releases)
            <==> forall m :: m in masters ==> !Stale(masters[m], releases, m) && !Pending(Cleared(masters, releases), desired, m)
  {
    var cleared := Cleared(masters, releases);
    if Repaired(masters, releases) {
      forall m | m in masters
        ensures !Stale(masters[m], releases, m) && !Pending(cleared, desired, m)
      {
        assert Linked(masters[m], releases, m);
        if m in desired && masters[m].Some? {
          NewestIsUnique(releases, desired[m], masters[m].value, m);
        }
      }
    }
    if forall m :: m in masters ==> !Stale(masters[m], releases, m) && !Pending(cleared, desired, m) {
      assert Assigned(cleared, desired) == masters;
      TwoStatementsRepair(masters, releases, desired);
    }
  }

  class MasterTable {
    var masters: Masters
    var releases: Releases

    /** Insert a row where the order wants it. */
    method InsertOrdered(rows: seq<int>, r: int) returns (rows': seq<int>)
      requires Ordered(releases, rows) && Selected(releases, r) && r !in rows
      ensures Ordered(releases, rows') && forall x :: x in rows' <==> x in rows || x == r
    {
      var i := 0;
      while i < |rows| && Before(releases, rows[i], r)
        invariant 0 <= i <= |rows|
        invariant forall j :: 0 <= j < i ==> Before(releases, rows[j], r)
      {
        i := i + 1;
      }
      rows' := rows[..i] + [r] + rows[i..];
      if i < |rows| {
        assert Before(releases, r, rows[i]);
        assert forall j :: i < j < |rows| ==> Before(releases, rows[i], rows[j]);
      }
    }

    /** The qualifying rows, ordered. */
    method OrderedRows() returns (rows: seq<int>)
      ensures Ordered(releases, rows)
      ensures forall r :: Selected(releases, r) <==> r in rows
    {
      var rest := set r | r in releases && Selected(releases, r);
      rows := [];
      while rest != {}
        invariant Ordered(releases, rows)
        invariant forall r :: Selected(releases, r) <==> r in rest || r in rows
        invariant forall r :: r in rest ==> r !in rows
        decreases |rest|
      {
        ghost var some := Pick(rest);
        var r :| r in rest;
        rows := InsertOrdered(rows, r);
        rest := rest - {r};
      }
    }

    /** The `desired` subquery: order the qualifying releases, keep the first one of each master. */
    method Desired() returns (desired: map<int, int>)
      ensures IsDesired(desired, releases)
    {
      var rows := OrderedRows();
      desired := map[];
      for i := 0 to |rows|
        invariant forall j :: 0 <= j < i ==> releases[rows[j]].masterId.value in desired
        invariant forall m :: m in desired ==> FirstOf(rows, i, releases, m, desired[m])
      {
        var master := releases[rows[i]].masterId.value;
        if master !in desired {
          assert FirstOf(rows, i + 1, releases, master, rows[i]);
          desired := desired[master := rows[i]];
        }
      }
      FirstsAreDesired(rows, desired);
    }

    /** `r` is the first of the first `n` rows that belong to `master`. */
    ghost predicate FirstOf(rows: seq<int>, n: nat, releases: Releases, master: int, r: int)
      requires n <= |rows| && Ordered(releases, rows)
    {
      exists i :: 0 <= i < n && rows[i] == r && releases[r].masterId == Some(master)
                  && forall j :: 0 <= j < i ==> releases[rows[j]].masterId != Some(master)
    }

    lemma FirstsAreDesired(rows: seq<int>, desired: map<int, int>)
      requires Ordered(releases, rows) && forall r :: Selected(releases, r) <==> r in rows
      requires forall j :: 0 <= j < |rows| ==> releases[rows[j]].masterId.value in desired
      requires forall m :: m in desired ==> FirstOf(rows, |rows|, releases, m, desired[m])
      ensures IsDesired(desired, releases)
    {
      forall m | m in desired
        ensures IsNewest(releases, desired[m], m)
      {
        var i :| 0 <= i < |rows| && rows[i] == desired[m] && releases[desired[m]].masterId == Some(m)
                 && forall j :: 0 <= j < i ==> releases[rows[j]].masterId != Some(m);
        assert rows[i] in rows;
        forall other | Qualifies(releases, other, m) && other != desired[m]
          ensures Newer(releases, desired[m], other)
        {
          assert Selected(releases, other);
          var j :| 0 <= j < |rows| && rows[j] == other;
          assert i < j;
        }
      }
      forall r, m | Qualifies(releases, r, m)
        ensures m in desired
      {
        assert Selected(releases, r);
        var j :| 0 <= j < |rows| && rows[j] == r;
      }
    }

    /** Clear, then set; the number of updated rows is reported. */
    method ReconcileMasterMainReleases() returns (affected: nat)
      modifies this`masters
      ensures Repaired(masters, releases)
      ensures masters.Keys == old(masters).Keys
      ensures affected == 0 <==> Repaired(old(masters), releases)
      ensures affected == 0 ==> masters == old(masters)
    {
      var desired := Desired();
      TwoStatementsRepair(masters, releases, desired);
      NothingToDoIff(masters, releases, desired);
      var stale := set m | m in masters && Stale(masters[m], releases, m);
      masters := Cleared(masters, releases);
      var pending := set m | m in masters && Pending(masters, desired, m);
      masters := Assigned(masters, desired);
      affected := |stale| + |pending|;
      if affected == 0 {
        assert stale == {} && pending == {};
        assert forall m :: m in old(masters) ==> m !in stale && m !in pending;
      } else {
        assert stale != {} || pending != {};
        ghost var m := if stale != {} then Pick(stale) else Pick(pending);
        assert m in old(masters);
      }
    }
  }
}
