/**
 * The schema migration ledger under repeated attempts: artifacts of different ages, failing
 * migrations, crashes at any point, a stale Liquibase lock, and adoption of a legacy history.
 */
module Migrations {
  import opened Options
  import opened Ordering
  import opened LegacyHistory

  /** Versions ascend, as the sorted file names of an artifact do. */
  ghost predicate IsArtifact(migrations: seq<Migration>) {
    forall i, j :: 0 <= i < j < |migrations| ==> migrations[i].version < migrations[j].version
  }

  type Ledger = map<int, string>

  /** The ledger that records exactly these migrations. */
  ghost function Recording(migrations: seq<Migration>): Ledger {
    if migrations == [] then map[]
    else
      var n := |migrations| - 1;
      Recording(migrations[..n])[migrations[n].version := migrations[n].checksum]
  }

  /** The rows of a ledger that records `migrations`. */
  ghost predicate RowsOf(migrations: seq<Migration>, ledger: Ledger) {
    && |ledger| == |migrations|
    && (forall i :: 0 <= i < |migrations| ==>
          migrations[i].version in ledger && ledger[migrations[i].version] == migrations[i].checksum)
    && (forall v :: v in ledger ==> HasVersion(migrations, v))
  }

  lemma OneMoreRow(before: seq<Migration>, m: Migration, ledger: Ledger)
    requires RowsOf(before, ledger) && IsArtifact(before + [m])
    ensures RowsOf(before + [m], ledger[m.version := m.checksum]) && m.version !in ledger
  {
    var all := before + [m];
    VersionsGrow(before, m);
    assert forall i :: 0 <= i < |before| ==> all[i] == before[i];
    assert all[|before|] == m;
    assert !HasVersion(before, m.version);
    hide HasVersion;
  }

  lemma {:induction false} RecordingIsRows(migrations: seq<Migration>)
    requires IsArtifact(migrations)
    ensures RowsOf(migrations, Recording(migrations))
  {
    if migrations != [] {
      var n := |migrations| - 1;
      RecordingIsRows(migrations[..n]);
      assert migrations[..n] + [migrations[n]] == migrations;
      hide RowsOf, IsArtifact;
      OneMoreRow(migrations[..n], migrations[n], Recording(migrations[..n]));
    }
  }

  lemma RecordingRows(migrations: seq<Migration>)
    requires IsArtifact(migrations)
    ensures |Recording(migrations)| == |migrations|
    ensures forall i :: 0 <= i < |migrations| ==>
              migrations[i].version in Recording(migrations) && Recording(migrations)[migrations[i].version] == migrations[i].checksum
    ensures forall v :: v in Recording(migrations) ==> HasVersion(migrations, v)
  {
    RecordingIsRows(migrations);
    hide Recording;
  }

  ghost predicate HasVersion(migrations: seq<Migration>, v: int) {
    exists i :: 0 <= i < |migrations| && migrations[i].version == v
  }

  lemma VersionsGrow(before: seq<Migration>, m: Migration)
    ensures forall v :: HasVersion(before, v) ==> HasVersion(before + [m], v)
    ensures HasVersion(before + [m], m.version)
  {
    forall v | HasVersion(before, v)
      ensures HasVersion(before + [m], v)
    {
      var i :| 0 <= i < |before| && before[i].version == v;
      assert (before + [m])[i].version == v;
    }
    assert (before + [m])[|before|] == m;
  }

  /** The ledger is a beginning of the artifact, with its checksums. */
  ghost predicate RecordsPrefix(ledger: Ledger, migrations: seq<Migration>) {
    |ledger| <= |migrations| && ledger == Recording(migrations[..|ledger|])
  }

  /** The comparison of the ordered ledger with the artifact, row by row. */
  ghost predicate RowsAgree(ledger: Ledger, versions: seq<int>, migrations: seq<Migration>) {
    && |versions| <= |migrations|
    && forall i :: 0 <= i < |versions| ==>
         versions[i] == migrations[i].version && versions[i] in ledger && ledger[versions[i]] == migrations[i].checksum
  }

  lemma AgreementIsPrefix(ledger: Ledger, versions: seq<int>, migrations: seq<Migration>)
    requires IsArtifact(migrations) && IsAscending(versions) && Elements(versions) == ledger.Keys && |versions| == |ledger|
    ensures RowsAgree(ledger, versions, migrations) <==> RecordsPrefix(ledger, migrations)
  {
    if |ledger| <= |migrations| {
      var prefix := migrations[..|ledger|];
      assert forall i :: 0 <= i < |prefix| ==> prefix[i] == migrations[i];
      if RowsAgree(ledger, versions, migrations) {
        AgreedRows(ledger, versions, prefix);
      }
      if RecordsPrefix(ledger, migrations) {
        VersionsOf(ledger, versions, prefix);
      }
    }
  }

  lemma AgreedRows(ledger: Ledger, versions: seq<int>, prefix: seq<Migration>)
    requires IsArtifact(prefix) && Elements(versions) == ledger.Keys && |versions| == |prefix|
    requires RowsAgree(ledger, versions, prefix)
    ensures ledger == Recording(prefix)
  {
    RecordingRows(prefix);
    hide Recording, IsArtifact;
    forall v
      ensures v in ledger <==> v in Recording(prefix)
      ensures v in ledger ==> ledger[v] == Recording(prefix)[v]
    {
      assert v in ledger <==> v in Elements(versions);
      if v in ledger {
        var i :| 0 <= i < |versions| && versions[i] == v;
        assert prefix[i].version == v;
      }
      if v in Recording(prefix) {
        var i :| 0 <= i < |prefix| && prefix[i].version == v;
        assert versions[i] == v;
      }
    }
  }

  function Versions(migrations: seq<Migration>): seq<int> {
    seq(|migrations|, i requires 0 <= i < |migrations| => migrations[i].version)
  }

  lemma VersionsRecorded(prefix: seq<Migration>)
    requires IsArtifact(prefix)
    ensures IsAscending(Versions(prefix)) && Elements(Versions(prefix)) == Recording(prefix).Keys
  {
    RecordingRows(prefix);
    assert IsAscending(Versions(prefix));
    hide Recording, IsArtifact, IsAscending;
    var listed := Versions(prefix);
    assert |listed| == |prefix| && forall i :: 0 <= i < |prefix| ==> listed[i] == prefix[i].version;
    hide Versions;
    forall v
      ensures v in Elements(listed) <==> v in Recording(prefix)
    {
      if v in Recording(prefix) {
        var i :| 0 <= i < |prefix| && prefix[i].version == v;
        assert listed[i] == v;
      }
    }
  }

  /** Listing a recorded prefix by version lists it in order. */
  lemma VersionsOf(ledger: Ledger, versions: seq<int>, prefix: seq<Migration>)
    requires IsArtifact(prefix) && IsAscending(versions) && Elements(versions) == ledger.Keys && ledger == Recording(prefix)
    ensures versions == Versions(prefix)
    ensures forall i :: 0 <= i < |prefix| ==> versions[i] in ledger && ledger[versions[i]] == prefix[i].checksum
  {
    RecordingRows(prefix);
    VersionsRecorded(prefix);
    hide Recording, IsArtifact;
    forall v
      ensures v in versions <==> v in Versions(prefix)
    {
      assert v in versions <==> v in Elements(versions);
      assert v in Versions(prefix) <==> v in Elements(Versions(prefix));
    }
    hide Versions, Elements, IsAscending;
    AscendingIsUnique(versions, Versions(prefix));
  }

  lemma PrefixOfPrefix(canon: seq<Migration>, n: nat, k: nat)
    requires k <= n <= |canon|
    ensures canon[..n][..k] == canon[..k]
  {}

  lemma NextRecorded(canon: seq<Migration>, k: nat)
    requires IsArtifact(canon) && k < |canon|
    ensures Recording(canon[..k + 1]) == Recording(canon[..k])[canon[k].version := canon[k].checksum]
    ensures |Recording(canon[..k])| == k && |Recording(canon[..k + 1])| == k + 1
    ensures canon[k].version !in Recording(canon[..k])
    ensures forall i :: 0 <= i < k ==> canon[i].version in Recording(canon[..k])
                                       && Recording(canon[..k])[canon[i].version] == canon[i].checksum
  {
    var shorter, longer := canon[..k], canon[..k + 1];
    assert longer[..k] == shorter && longer[k] == canon[k];
    assert forall i :: 0 <= i < k ==> shorter[i] == canon[i];
    RecordingRows(shorter);
    assert !HasVersion(shorter, canon[k].version);
    assert Recording(longer) == Recording(longer[..k])[longer[k].version := longer[k].checksum];
    hide Recording, IsArtifact, HasVersion;
  }

  lemma RecordedBefore(canon: seq<Migration>, k: nat, i: nat)
    requires IsArtifact(canon) && i < k <= |canon|
    ensures canon[i].version in Recording(canon[..k]) && Recording(canon[..k])[canon[i].version] == canon[i].checksum
  {
    RecordingRows(canon[..k]);
    assert canon[..k][i] == canon[i];
  }

  // ----- the database, transaction by transaction -----

  /**
   * `executed` lists the migrations whose statements were run, in order; `adopted` is how many
   * were taken over from Liquibase instead; `locked` is the Liquibase lock row.
   */
  datatype Schema = Schema(ledger: Ledger, executed: seq<Migration>, adopted: nat, legacy: seq<LegacyRow>, locked: bool)

  datatype Environment = Environment(manifest: Manifest, mode: Mode, parameterized: string -> bool)

  function ReserveLiquibase(s: Schema): Option<Schema> {
    if s.locked then None else Some(s.(locked := true))
  }

  /** Adopt a recognized history into an empty ledger; `proofOk` is the outcome of the fingerprint check. */
  ghost function Adopt(s: Schema, e: Environment, artifact: seq<Migration>, proofOk: bool): Option<Schema> {
    if s.legacy == [] then Some(s)
    else if |s.ledger| > 0 then if |s.ledger| < |s.legacy| then None else Some(s)
    else if !Recognized(e.manifest, e.mode, artifact, s.legacy, e.parameterized)
      || (AnyNeedsProof(e.manifest, e.mode, s.legacy) && !proofOk) then None
    else Some(s.(ledger := Recording(artifact[..|s.legacy|]), adopted := |s.legacy|))
  }

  /** One migration: skipped when recorded with its checksum, else executed and recorded in one transaction. */
  function ApplyOne(s: Schema, m: Migration, sqlOk: bool): Option<Schema> {
    if m.version in s.ledger then if s.ledger[m.version] == m.checksum then Some(s) else None
    else if !sqlOk then None
    else Some(s.(ledger := s.ledger[m.version := m.checksum], executed := s.executed + [m]))
  }

  /**
   * On a ledger that records the first migrations of an artifact: a recorded one is skipped and
   * changes nothing, the next one is recorded and executed together or fails, and a version recorded
   * with another checksum is refused whatever its statements would do.
   */
  lemma AppliedOnce(s: Schema, artifact: seq<Migration>, m: Migration, sqlOk: bool)
    requires IsArtifact(artifact) && RecordsPrefix(s.ledger, artifact)
    ensures var r, k := ApplyOne(s, m, sqlOk), |s.ledger|;
            && k <= |artifact|
            && (m in artifact[..k] ==> r == Some(s))
            && (k < |artifact| && m == artifact[k] ==>
                  (r.Some? <==> sqlOk)
                  && (r.Some? ==> r.value == s.(ledger := Recording(artifact[..k + 1]), executed := s.executed + [m])))
            && (m !in artifact[..k] && HasVersion(artifact[..k], m.version) ==> r == None)
  {
    var k := |s.ledger|;
    PrefixIsRecording(s.ledger, artifact);
    RecordingRows(artifact[..k]);
    if k < |artifact| {
      NextRecorded(artifact, k);
    }
    hide Recording, IsArtifact, RecordsPrefix;
    if m in artifact[..k] {
      var i :| 0 <= i < k && artifact[..k][i] == m;
    }
    if m !in artifact[..k] && HasVersion(artifact[..k], m.version) {
      var i :| 0 <= i < k && artifact[..k][i].version == m.version;
      assert artifact[..k][i] != m;
    }
  }

  lemma PrefixIsRecording(ledger: Ledger, artifact: seq<Migration>)
    requires IsArtifact(artifact) && RecordsPrefix(ledger, artifact)
    ensures |ledger| <= |artifact| && ledger == Recording(artifact[..|ledger|]) && IsArtifact(artifact[..|ledger|])
  {}

  class MigrationDatabase {
    var ledger: Ledger
    var executed: seq<Migration>
    var adopted: nat
    var legacy: seq<LegacyRow>
    var locked: bool

    ghost function Value(): Schema
      reads this
    {
      Schema(ledger, executed, adopted, legacy, locked)
    }

    /** Compare the rows, ordered by version, with the artifact. */
    method CompareRows(versions: seq<int>, migrations: seq<Migration>) returns (failure: Option<string>)
      requires forall i :: 0 <= i < |versions| ==> versions[i] in ledger
      ensures failure.None? <==> RowsAgree(ledger, versions, migrations)
    {
      if |versions| > |migrations| {
        return Some("database schema contains migrations newer than this batch artifact");
      }
      for index := 0 to |versions|
        invariant forall i :: 0 <= i < index ==>
                    versions[i] == migrations[i].version && versions[i] in ledger
                    && ledger[versions[i]] == migrations[i].checksum
      {
        if versions[index] != migrations[index].version {
          return Some("database migration history is not a canonical prefix");
        }
        if ledger[versions[index]] != migrations[index].checksum {
          return Some("shared migration checksum changed");
        }
      }
      return None;
    }

    /** Read the ledger by version and compare it with the artifact. */
    method ValidateMigrationLedger(migrations: seq<Migration>) returns (failure: Option<string>)
      requires IsArtifact(migrations)
      ensures failure.None? <==> RecordsPrefix(ledger, migrations)
    {
      var versions := SortedSet(ledger.Keys);
      OrderedKeys(ledger, versions);
      hide RecordsPrefix, Ascending, Elements, IsAscending, IsArtifact, RowsAgree;
      AgreementIsPrefix(ledger, versions, migrations);
      failure := CompareRows(versions, migrations);
    }

    lemma OrderedKeys(ledger: Ledger, versions: seq<int>)
      requires versions == Ascending(ledger.Keys)
      ensures IsAscending(versions) && Elements(versions) == ledger.Keys && |versions| == |ledger|
      ensures forall i :: 0 <= i < |versions| ==> versions[i] in ledger
    {
      AscendingOrders(ledger.Keys);
      AscendingLength(ledger.Keys);
      assert |ledger.Keys| == |ledger|;
      assert forall i :: 0 <= i < |versions| ==> versions[i] in versions;
    }

    method ApplyMigration(m: Migration, sqlOk: bool) returns (ok: bool)
      modifies this`ledger, this`executed
      ensures var r := ApplyOne(old(Value()), m, sqlOk); ok == r.Some? && Value() == if ok then r.value else old(Value())
    {
      if m.version in ledger {
        return ledger[m.version] == m.checksum;
      }
      if !sqlOk {
        return false;
      }
      executed := executed + [m];
      ledger := ledger[m.version := m.checksum];
      return true;
    }

    method AdoptLegacyLiquibaseHistory(e: Environment, canonical: seq<Migration>, proofOk: bool) returns (ok: bool)
      requires ManifestOk(e.manifest)
      modifies this`ledger, this`adopted
      ensures var r := Adopt(old(Value()), e, canonical, proofOk);
              ok == r.Some? && Value() == if ok then r.value else old(Value())
      ensures ok && old(ledger) == map[] && legacy != [] ==>
                && Recognized(e.manifest, e.mode, canonical, legacy, e.parameterized)
                && (AnyNeedsProof(e.manifest, e.mode, legacy) ==> proofOk)
                && ledger == Recording(canonical[..|legacy|]) && adopted == |legacy|
      ensures old(ledger) != map[] || legacy == [] ==>
                ledger == old(ledger) && adopted == old(adopted) && (ok <==> legacy == [] || |legacy| <= |ledger|)
    {
      assert ledger == map[] <==> |ledger| == 0;
      if |legacy| == 0 {
        return true;
      }
      if |ledger| > 0 {
        return |ledger| >= |legacy|;
      }
      var validated := ValidateLegacyLiquibaseRows(e.manifest, e.mode, canonical, legacy, e.parameterized);
      if validated.Err? {
        return false;
      }
      if validated.value.1 && !proofOk {
        return false;
      }
      var rows := validated.value.0;
      assert rows == canonical[..|legacy|];
      for i := 0 to |rows|
        invariant ledger == Recording(rows[..i]) && executed == old(executed) && legacy == old(legacy)
        invariant locked == old(locked) && adopted == old(adopted)
      {
        assert rows[..i + 1][..i] == rows[..i];
        ledger := ledger[rows[i].version := rows[i].checksum];
      }
      assert rows[..|rows|] == rows;
      adopted := |legacy|;
      return true;
    }

    /** Run every migration that the ledger does not record yet; stop at the first that fails. */
    method ApplyAll(migrations: seq<Migration>, sqlOk: int -> bool) returns (ok: bool)
      requires IsArtifact(migrations) && RecordsPrefix(ledger, migrations)
      modifies this`ledger, this`executed
      ensures RecordsPrefix(ledger, migrations) && |old(ledger)| <= |ledger|
      ensures executed == old(executed) + migrations[|old(ledger)|..|ledger|]
      ensures ok ==> ledger == Recording(migrations)
    {
      ghost var start := |ledger|;
      assert migrations[start..start] == [];
      hide RecordsPrefix, IsArtifact, Recording;
      PrefixLength(ledger, migrations);
      for i := 0 to |migrations|
        invariant RecordsPrefix(ledger, migrations) && start <= |ledger| <= |migrations| && i <= |ledger|
        invariant executed == old(executed) + migrations[start..|ledger|]
      {
        ApplyOneExtends(Value(), migrations, i, sqlOk(migrations[i].version), start, old(executed));
        ok := ApplyMigration(migrations[i], sqlOk(migrations[i].version));
        if !ok {
          return;
        }
        PrefixLength(ledger, migrations);
      }
      PrefixLength(ledger, migrations);
      ok := true;
    }

    lemma PrefixLength(ledger: Ledger, migrations: seq<Migration>)
      requires RecordsPrefix(ledger, migrations)
      ensures |ledger| <= |migrations|
      ensures |ledger| == |migrations| ==> ledger == Recording(migrations)
    {
      assert migrations[..|migrations|] == migrations;
    }

    /** Applying migration `i` to a recorded prefix leaves it alone, or extends it and the executed list by one. */
    lemma ApplyOneExtends(s: Schema, migrations: seq<Migration>, i: nat, sqlOk: bool, start: nat, executed: seq<Migration>)
      requires IsArtifact(migrations) && RecordsPrefix(s.ledger, migrations) && i < |migrations| && start <= |s.ledger|
      requires i <= |s.ledger| && s.executed == executed + migrations[start..|s.ledger|]
      ensures var r := ApplyOne(s, migrations[i], sqlOk);
              r.Some? ==>
                && RecordsPrefix(r.value.ledger, migrations) && start <= |r.value.ledger| && i < |r.value.ledger| <= |migrations|
                && r.value.executed == executed + migrations[start..|r.value.ledger|]
    {
      var k := |s.ledger|;
      hide Recording, IsArtifact;
      if i < k {
        RecordedBefore(migrations, k, i);
      } else {
        NextRecorded(migrations, k);
        assert migrations[start..k + 1] == migrations[start..k] + [migrations[k]];
      }
    }

    /** Adopt a legacy history where there is one, then check the ledger against the artifact. */
    method Prepare(migrations: seq<Migration>, e: Environment, proofOk: bool) returns (ok: bool)
      requires IsArtifact(migrations) && ManifestOk(e.manifest)
      modifies this`ledger, this`adopted
      ensures ok ==> RecordsPrefix(ledger, migrations)
      ensures ok ==> |ledger| == if |old(ledger)| == 0 then |legacy| else |old(ledger)|
      ensures !ok ==> ledger == old(ledger)
      ensures |old(ledger)| > |migrations| ==> !ok
    {
      hide AnyNeedsProof, IsArtifact, Recognizes;
      ok := AdoptLegacyLiquibaseHistory(e, migrations, proofOk);
      if !ok {
        return;
      }
      if |old(ledger)| == 0 && |legacy| > 0 {
        AdoptedLength(migrations, |legacy|);
        assert RecordsPrefix(ledger, migrations);
      }
      var failure := ValidateMigrationLedger(migrations);
      ok := failure.None?;
    }

    lemma AdoptedLength(migrations: seq<Migration>, n: nat)
      requires IsArtifact(migrations)
      ensures n <= |migrations| ==> |Recording(migrations[..n])| == n
    {
      if n <= |migrations| {
        RecordingRows(migrations[..n]);
      }
    }

    /** `runDDL` while the import locks are held: reserve, adopt, validate, apply, release. */
    method RunDDL(migrations: seq<Migration>, e: Environment, proofOk: bool, sqlOk: int -> bool) returns (ok: bool)
      requires IsArtifact(migrations) && ManifestOk(e.manifest)
      modifies this
      ensures locked == old(locked) && (old(locked) ==> !ok && Value() == old(Value()))
      ensures ok ==> ledger == Recording(migrations)
      ensures ok ==>
                var start := if |old(ledger)| == 0 then |old(legacy)| else |old(ledger)|;
                start <= |migrations| && executed == old(executed) + migrations[start..]
      ensures !ok ==>
                var start := if |old(ledger)| == 0 then |old(legacy)| else |old(ledger)|;
                || (ledger == old(ledger) && executed == old(executed))
                || (RecordsPrefix(ledger, migrations) && start <= |ledger| <= |migrations|
                    && executed == old(executed) + migrations[start..|ledger|])
      ensures |old(ledger)| > |migrations| ==> !ok && ledger == old(ledger) && executed == old(executed)
    {
      if locked {
        return false;
      }
      locked := true;
      ok := Prepare(migrations, e, proofOk);
      if ok {
        ghost var start := |ledger|;
        PrefixLength(ledger, migrations);
        ok := ApplyAll(migrations, sqlOk);
        PrefixLength(ledger, migrations);
        if ok {
          AdoptedLength(migrations, |migrations|);
          assert migrations[..|migrations|] == migrations;
          assert migrations[start..|migrations|] == migrations[start..];
        }
      }
      locked := false;
    }
  }
}
