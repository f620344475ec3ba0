/** Recognizing a schema history that Liquibase wrote, before it is adopted into the migration ledger. */
module LegacyHistory {
  import opened Options

  /** One migration of an artifact, in the order of its version. */
  datatype Migration = Migration(version: int, checksum: string)

  datatype Mode = PublicSchema | CustomSchema

  /** `exact` is the expected checksum unless the checksum depends on parameters; `policies` says which permitted
      execution types need the schema to be proved. */
  datatype ChangeSet = ChangeSet(
    mode: Mode, id: string, author: string, filename: string, exact: Option<string>, policies: map<string, bool>)

  datatype LegacyMigration = LegacyMigration(canonical: Migration, changeSets: seq<ChangeSet>)

  /** `contracts` maps a supported history length to the number of versions its contract lists. */
  datatype Manifest = Manifest(migrations: seq<LegacyMigration>, contracts: map<nat, nat>)

  datatype LegacyRow = LegacyRow(id: string, author: string, filename: string, executionType: string, checksum: string)

  /** The manifest describes every migration of the histories it supports. */
  predicate ManifestOk(manifest: Manifest) {
    forall n :: n in manifest.contracts ==> n <= |manifest.migrations|
  }

  /** The first change set for the schema mode is the expected one. */
  function Expected(changeSets: seq<ChangeSet>, mode: Mode): Option<ChangeSet> {
    if changeSets == [] then None
    else if changeSets[0].mode == mode then Some(changeSets[0])
    else Expected(changeSets[1..], mode)
  }

  method FindExpected(changeSets: seq<ChangeSet>, mode: Mode) returns (expected: Option<ChangeSet>)
    ensures expected == Expected(changeSets, mode)
  {
    for i := 0 to |changeSets|
      invariant Expected(changeSets[i..], mode) == Expected(changeSets, mode)
    {
      assert changeSets[i..][0] == changeSets[i] && changeSets[i..][1..] == changeSets[i + 1..];
      if changeSets[i].mode == mode {
        return Some(changeSets[i]);
      }
    }
    return None;
  }

  /** One row of the history is the given migration, executed in a permitted way. */
  predicate Trusted(migration: LegacyMigration, mode: Mode, row: LegacyRow, parameterized: string -> bool) {
    var expected := Expected(migration.changeSets, mode);
    && expected.Some?
    && row.id == expected.value.id && row.author == expected.value.author && row.filename == expected.value.filename
    && row.executionType in expected.value.policies
    && (if expected.value.exact.Some? then row.checksum == expected.value.exact.value else parameterized(row.checksum))
  }

  predicate NeedsProof(migration: LegacyMigration, mode: Mode, row: LegacyRow) {
    var expected := Expected(migration.changeSets, mode);
    expected.Some? && row.executionType in expected.value.policies && expected.value.policies[row.executionType]
  }

  /** The first change set of the mode stands at position `i`. */
  ghost predicate FirstFor(changeSets: seq<ChangeSet>, mode: Mode, i: int) {
    0 <= i < |changeSets| && changeSets[i].mode == mode && forall j :: 0 <= j < i ==> changeSets[j].mode != mode
  }

  lemma {:induction false} ExpectedIsFirst(changeSets: seq<ChangeSet>, mode: Mode)
    ensures Expected(changeSets, mode).None? <==> forall i :: 0 <= i < |changeSets| ==> changeSets[i].mode != mode
    ensures forall i :: FirstFor(changeSets, mode, i) ==> Expected(changeSets, mode) == Some(changeSets[i])
  {
    if changeSets != [] && changeSets[0].mode != mode {
      ExpectedIsFirst(changeSets[1..], mode);
      assert forall i :: 0 < i < |changeSets| ==> changeSets[1..][i - 1] == changeSets[i];
      forall i | FirstFor(changeSets, mode, i)
        ensures FirstFor(changeSets[1..], mode, i - 1)
      {}
    }
  }

  /**
   * A row is trusted exactly when it names the first change set of the mode, was executed in a way that this one
   * permits, and has its checksum unless that depends on parameters; the way decides whether proof is needed.
   */
  lemma TrustedIff(migration: LegacyMigration, mode: Mode, row: LegacyRow, parameterized: string -> bool, i: int)
    requires FirstFor(migration.changeSets, mode, i)
    ensures var c := migration.changeSets[i];
            && (Trusted(migration, mode, row, parameterized) <==>
                && row.id == c.id && row.author == c.author && row.filename == c.filename
                && row.executionType in c.policies
                && (c.exact.Some? ==> row.checksum == c.exact.value)
                && (c.exact.None? ==> parameterized(row.checksum)))
            && (Trusted(migration, mode, row, parameterized) ==>
                  (NeedsProof(migration, mode, row) <==> c.policies[row.executionType]))
  {
    ExpectedIsFirst(migration.changeSets, mode);
    hide Expected;
  }

  /** The history is the beginning of both the manifest and the artifact. */
  ghost predicate Recognized(
      manifest: Manifest, mode: Mode, canonical: seq<Migration>, rows: seq<LegacyRow>, parameterized: string -> bool)
  {
    && |rows| in manifest.contracts && manifest.contracts[|rows|] == |rows|
    && |rows| <= |canonical| && |rows| <= |manifest.migrations|
    && forall i :: 0 <= i < |rows| ==> Recognizes(manifest.migrations[i], canonical[i], mode, rows[i], parameterized)
  }

  predicate Recognizes(
      migration: LegacyMigration, canonical: Migration, mode: Mode, row: LegacyRow, parameterized: string -> bool)
  {
    migration.canonical == canonical && Trusted(migration, mode, row, parameterized)
  }

  ghost predicate AnyNeedsProof(manifest: Manifest, mode: Mode, rows: seq<LegacyRow>)
    requires |rows| <= |manifest.migrations|
  {
    NeedsProofBefore(manifest, mode, rows, |rows|)
  }

  ghost predicate NeedsProofBefore(manifest: Manifest, mode: Mode, rows: seq<LegacyRow>, n: nat)
    requires n <= |rows| <= |manifest.migrations|
  {
    exists i :: 0 <= i < n && NeedsProof(manifest.migrations[i], mode, rows[i])
  }

  lemma NeedsProofStep(manifest: Manifest, mode: Mode, rows: seq<LegacyRow>, n: nat)
    requires n < |rows| <= |manifest.migrations|
    ensures NeedsProofBefore(manifest, mode, rows, n + 1)
            <==> NeedsProofBefore(manifest, mode, rows, n) || NeedsProof(manifest.migrations[n], mode, rows[n])
  {
    hide NeedsProof;
  }

  /** Check one row against its migration; on success, say whether it needs the schema to be proved. */
  method CheckRow(
      migration: LegacyMigration, canonical: Migration, mode: Mode, row: LegacyRow, parameterized: string -> bool)
      returns (needsProof: Result<bool>)
    ensures needsProof.Ok? <==> Recognizes(migration, canonical, mode, row, parameterized)
    ensures needsProof.Ok? ==> migration.canonical == canonical
    ensures needsProof.Ok? ==> needsProof.value == NeedsProof(migration, mode, row)
  {
    if migration.canonical != canonical {
      return Err("legacy migration does not match the canonical artifact");
    }
    var expected := FindExpected(migration.changeSets, mode);
    if expected.None? || row.id != expected.value.id || row.author != expected.value.author
       || row.filename != expected.value.filename {
      return Err("untrusted Liquibase identity");
    }
    if row.executionType !in expected.value.policies {
      return Err("unsupported execution type");
    }
    if expected.value.exact.Some? {
      if row.checksum != expected.value.exact.value {
        return Err("Liquibase checksum changed");
      }
    } else if !parameterized(row.checksum) {
      return Err("invalid parameterized checksum");
    }
    return Ok(expected.value.policies[row.executionType]);
  }

  /** Validate the rows one after the other, and say what is to be adopted. */
  method ValidateLegacyLiquibaseRows(
      manifest: Manifest, mode: Mode, canonical: seq<Migration>, rows: seq<LegacyRow>, parameterized: string -> bool)
      returns (r: Result<(seq<Migration>, bool)>)
    requires ManifestOk(manifest)
    ensures r.Ok? <==> Recognized(manifest, mode, canonical, rows, parameterized)
    ensures r.Ok? ==> |rows| <= |canonical| && r.value.0 == canonical[..|rows|]
    ensures r.Ok? ==> (r.value.1 <==> AnyNeedsProof(manifest, mode, rows))
  {
    if |rows| !in manifest.contracts {
      return Err("history length is not a supported release prefix");
    }
    if |rows| > |canonical| || manifest.contracts[|rows|] != |rows| {
      return Err("history is not a canonical artifact prefix");
    }
    assert !NeedsProofBefore(manifest, mode, rows, 0);
    hide Recognizes, Trusted, NeedsProof, Expected, NeedsProofBefore;
    var requiresSchemaProof := false;
    var validated: seq<Migration> := [];
    for index := 0 to |rows|
      invariant forall i :: 0 <= i < index ==> Recognizes(manifest.migrations[i], canonical[i], mode, rows[i], parameterized)
      invariant validated == canonical[..index]
      invariant requiresSchemaProof <==> NeedsProofBefore(manifest, mode, rows, index)
    {
      NeedsProofStep(manifest, mode, rows, index);
      var needsProof := CheckRow(manifest.migrations[index], canonical[index], mode, rows[index], parameterized);
      if needsProof.Err? {
        return Err(needsProof.error);
      }
      if needsProof.value {
        requiresSchemaProof := true;
      }
      validated := validated + [manifest.migrations[index].canonical];
    }
    r := Ok((validated, requiresSchemaProof));
  }
}
