/** Migration attempts as concurrent, crashing processes over one schema. */
module MigrationRuns {
  import opened Options
  import opened LegacyHistory
  import opened Migrations

  /** How far an attempt has come; from `Reserved` to `Applying` it holds the Liquibase lock. */
  datatype Stage = Begun | Locked | Reserved | Ready | Applying(next: nat) | Unlocking(ok: bool) | Leaving(ok: bool)

  /** An attempt runs the artifact made of the first `length` canonical migrations. */
  datatype Attempt = Attempt(length: nat, stage: Stage)

  /** `holder` is the session with the import locks, which end with the session; `outcomes` lists the ended attempts. */
  datatype State = State(schema: Schema, holder: Option<nat>, attempts: map<nat, Attempt>, outcomes: seq<(nat, bool)>)

  datatype Step =
    | Begin(session: nat, length: nat)
    | TakeImportLocks(session: nat)
    | TakeLiquibaseLock(session: nat)
    | AdoptHistory(session: nat, proofOk: bool)
    | Validate(session: nat)
    | ApplyNext(session: nat, sqlOk: bool)
    | DropLiquibaseLock(session: nat)
    | DropImportLocks(session: nat)
    | Crash(session: nat)
      // an operator clears the Liquibase lock by hand
    | Clear

  ghost predicate At(s: State, session: nat, stage: Stage) {
    session in s.attempts && s.attempts[session].stage == stage
  }

  ghost predicate Enabled(s: State, canon: seq<Migration>, step: Step) {
    match step
    case Begin(p, n) => p !in s.attempts && 0 < n <= |canon|
    case TakeImportLocks(p) => At(s, p, Begun)
    case TakeLiquibaseLock(p) => At(s, p, Locked)
    case AdoptHistory(p, _) => At(s, p, Reserved)
    case Validate(p) => At(s, p, Ready)
    case ApplyNext(p, _) => p in s.attempts && s.attempts[p].stage.Applying?
    case DropLiquibaseLock(p) => p in s.attempts && s.attempts[p].stage.Unlocking?
    case DropImportLocks(p) => p in s.attempts && s.attempts[p].stage.Leaving?
    case Crash(p) => p in s.attempts
    case Clear => true
  }

  ghost function Move(s: State, p: nat, stage: Stage): State
    requires p in s.attempts
  {
    s.(attempts := s.attempts[p := s.attempts[p].(stage := stage)])
  }

  ghost function ArtifactOf(s: State, canon: seq<Migration>, p: nat): seq<Migration>
    requires p in s.attempts
  {
    if s.attempts[p].length <= |canon| then canon[..s.attempts[p].length] else canon
  }

  ghost function Apply(s: State, canon: seq<Migration>, e: Environment, step: Step): State
    requires Enabled(s, canon, step)
  {
    match step
    case Begin(p, n) => s.(attempts := s.attempts[p := Attempt(n, Begun)])
    case TakeImportLocks(p) =>
      // another migrator or an importer holds them: the attempt ends
      if s.holder.Some? then s.(attempts := s.attempts - {p}, outcomes := s.outcomes + [(p, false)])
      else Move(s.(holder := Some(p)), p, Locked)
    case TakeLiquibaseLock(p) =>
      var r := ReserveLiquibase(s.schema);
      if r.None? then Move(s, p, Leaving(false)) else Move(s.(schema := r.value), p, Reserved)
    case AdoptHistory(p, proofOk) =>
      var r := Adopt(s.schema, e, ArtifactOf(s, canon, p), proofOk);
      if r.None? then Move(s, p, Unlocking(false)) else Move(s.(schema := r.value), p, Ready)
    case Validate(p) =>
      Move(s, p, if RecordsPrefix(s.schema.ledger, ArtifactOf(s, canon, p)) then Applying(0) else Unlocking(false))
    case ApplyNext(p, sqlOk) => ApplyStep(s, ArtifactOf(s, canon, p), p, sqlOk)
    case DropLiquibaseLock(p) =>
      Move(s.(schema := s.schema.(locked := false)), p, Leaving(s.attempts[p].stage.ok && s.schema.locked))
    case DropImportLocks(p) =>
      s.(holder := None, attempts := s.attempts - {p}, outcomes := s.outcomes + [(p, s.attempts[p].stage.ok)])
    case Crash(p) =>
      s.(holder := if s.holder == Some(p) then None else s.holder, attempts := s.attempts - {p})
    case Clear => s.(schema := s.schema.(locked := false))
  }

  ghost function ApplyStep(s: State, artifact: seq<Migration>, p: nat, sqlOk: bool): State
    requires p in s.attempts && s.attempts[p].stage.Applying?
  {
    var i := s.attempts[p].stage.next;
    if i >= |artifact| then Move(s, p, Unlocking(true))
    else
      var r := ApplyOne(s.schema, artifact[i], sqlOk);
      if r.None? then Move(s, p, Unlocking(false)) else Move(s.(schema := r.value), p, Applying(i + 1))
  }

  // ----- what every attempt keeps -----

  /**
   * The ledger records a beginning of the canonical sequence with its checksums, and exactly the
   * recorded migrations that were not adopted were executed, once each and in order.
   */
  ghost predicate SchemaOk(s: Schema, canon: seq<Migration>) {
    && s.adopted <= |s.ledger|
    && RecordsPrefix(s.ledger, canon)
    && s.executed == canon[s.adopted..|s.ledger|]
  }

  /** Only the session with the import locks is past taking them, and its position fits the ledger. */
  ghost predicate AttemptsOk(s: State, canon: seq<Migration>) {
    && (forall p :: p in s.attempts ==>
          && s.attempts[p].length <= |canon|
          && (s.attempts[p].stage != Begun <==> s.holder == Some(p)))
    && (s.holder.Some? ==> s.holder.value in s.attempts)
    && (forall p :: p in s.attempts && s.attempts[p].stage.Applying? ==>
          s.attempts[p].stage.next <= |s.schema.ledger| <= s.attempts[p].length)
    && (forall p :: p in s.attempts && (s.attempts[p].stage == Unlocking(true) || s.attempts[p].stage == Leaving(true)) ==>
          |s.schema.ledger| == s.attempts[p].length)
  }

  ghost predicate Inv(s: State, canon: seq<Migration>) {
    SchemaOk(s.schema, canon) && AttemptsOk(s, canon)
  }

  /** Within one canonical sequence, the ledger fits an artifact exactly when it is no longer than it. */
  lemma FitsIffShorter(ledger: Ledger, canon: seq<Migration>, n: nat)
    requires RecordsPrefix(ledger, canon) && n <= |canon|
    ensures RecordsPrefix(ledger, canon[..n]) <==> |ledger| <= n
  {
    if |ledger| <= n {
      PrefixOfPrefix(canon, n, |ledger|);
    }
  }

  /** Applying the `i`-th migration skips what is recorded and otherwise extends the prefix by one. */
  lemma ApplyKeepsSchema(s: Schema, canon: seq<Migration>, i: nat, sqlOk: bool)
    requires IsArtifact(canon) && SchemaOk(s, canon) && i <= |s.ledger| && i < |canon|
    ensures var r := ApplyOne(s, canon[i], sqlOk);
            r.Some? ==> SchemaOk(r.value, canon) && i + 1 <= |r.value.ledger|
                        && |r.value.ledger| == if i < |s.ledger| then |s.ledger| else |s.ledger| + 1
  {
    var k := |s.ledger|;
    if i < k {
      RecordedBefore(canon, k, i);
    } else {
      NextRecorded(canon, k);
      hide Recording, IsArtifact;
      assert canon[s.adopted..k + 1] == canon[s.adopted..k] + [canon[k]];
    }
  }

  /** Adoption fills an empty ledger with a beginning of the artifact, hence of the canonical sequence. */
  lemma AdoptKeepsSchema(s: Schema, canon: seq<Migration>, e: Environment, n: nat, proofOk: bool)
    requires IsArtifact(canon) && SchemaOk(s, canon) && n <= |canon|
    ensures var r := Adopt(s, e, canon[..n], proofOk); r.Some? ==> SchemaOk(r.value, canon)
  {
    var r := Adopt(s, e, canon[..n], proofOk);
    if r.Some? && r.value != s {
      PrefixOfPrefix(canon, n, |s.legacy|);
      assert IsArtifact(canon[..|s.legacy|]);
      RecordingRows(canon[..|s.legacy|]);
      assert s.executed == [];
    }
  }

  /** A step of the holder changes only its own stage and the schema. */
  lemma HolderMoves(s: State, canon: seq<Migration>, p: nat, schema: Schema, stage: Stage)
    requires AttemptsOk(s, canon) && s.holder == Some(p) && stage != Begun
    requires stage.Applying? ==> stage.next <= |schema.ledger| <= s.attempts[p].length
    requires stage == Unlocking(true) || stage == Leaving(true) ==> |schema.ledger| == s.attempts[p].length
    ensures p in s.attempts && AttemptsOk(Move(s.(schema := schema), p, stage), canon)
  {}

  lemma ApplyStepKeepsInv(s: State, canon: seq<Migration>, p: nat, sqlOk: bool)
    requires Inv(s, canon) && IsArtifact(canon) && p in s.attempts && s.attempts[p].stage.Applying?
    ensures Inv(ApplyStep(s, ArtifactOf(s, canon, p), p, sqlOk), canon)
  {
    var i, n := s.attempts[p].stage.next, s.attempts[p].length;
    var artifact := ArtifactOf(s, canon, p);
    assert artifact == canon[..n];
    if i >= n {
      HolderMoves(s, canon, p, s.schema, Unlocking(true));
    } else {
      assert artifact[i] == canon[i];
      ApplyKeepsSchema(s.schema, canon, i, sqlOk);
      hide SchemaOk, AttemptsOk, ApplyOne, IsArtifact;
      var r := ApplyOne(s.schema, canon[i], sqlOk);
      FromAttempts(s, canon, p);
      HolderMoves(s, canon, p, if r.Some? then r.value else s.schema, if r.Some? then Applying(i + 1) else Unlocking(false));
    }
  }

  lemma FromAttempts(s: State, canon: seq<Migration>, p: nat)
    requires AttemptsOk(s, canon) && p in s.attempts && s.attempts[p].stage != Begun
    ensures s.holder == Some(p) && s.attempts[p].length <= |canon|
    ensures s.attempts[p].stage.Applying? ==> s.attempts[p].stage.next <= |s.schema.ledger| <= s.attempts[p].length
  {}

  lemma ValidateKeepsInv(s: State, canon: seq<Migration>, p: nat)
    requires Inv(s, canon) && At(s, p, Ready)
    ensures Inv(Move(s, p, if RecordsPrefix(s.schema.ledger, ArtifactOf(s, canon, p)) then Applying(0) else Unlocking(false)), canon)
  {
    FitsIffShorter(s.schema.ledger, canon, s.attempts[p].length);
    hide RecordsPrefix;
    HolderMoves(s, canon, p, s.schema,
      if RecordsPrefix(s.schema.ledger, ArtifactOf(s, canon, p)) then Applying(0) else Unlocking(false));
  }

  lemma AdoptStepKeepsInv(s: State, canon: seq<Migration>, e: Environment, p: nat, proofOk: bool)
    requires Inv(s, canon) && IsArtifact(canon) && At(s, p, Reserved)
    ensures Inv(Apply(s, canon, e, AdoptHistory(p, proofOk)), canon)
  {
    AdoptKeepsSchema(s.schema, canon, e, s.attempts[p].length, proofOk);
    FromAttempts(s, canon, p);
    hide SchemaOk, AttemptsOk, Adopt, IsArtifact;
    var r := Adopt(s.schema, e, ArtifactOf(s, canon, p), proofOk);
    HolderMoves(s, canon, p, if r.Some? then r.value else s.schema, if r.Some? then Ready else Unlocking(false));
  }

  lemma BeginKeepsInv(s: State, canon: seq<Migration>, p: nat, n: nat)
    requires AttemptsOk(s, canon) && p !in s.attempts && n <= |canon|
    ensures AttemptsOk(s.(attempts := s.attempts[p := Attempt(n, Begun)]), canon)
  {}

  lemma TakeKeepsInv(s: State, canon: seq<Migration>, p: nat)
    requires AttemptsOk(s, canon) && At(s, p, Begun) && s.holder == None
    ensures AttemptsOk(Move(s.(holder := Some(p)), p, Locked), canon)
  {}

  /** The attempt ends, and the import locks of its session with it. */
  lemma EndKeepsInv(s: State, canon: seq<Migration>, p: nat, outcomes: seq<(nat, bool)>)
    requires AttemptsOk(s, canon) && p in s.attempts
    ensures AttemptsOk(
              s.(holder := if s.holder == Some(p) then None else s.holder, attempts := s.attempts - {p}, outcomes := outcomes), canon)
  {}

  lemma LockRowKeepsInv(s: State, canon: seq<Migration>, locked: bool)
    requires Inv(s, canon)
    ensures Inv(s.(schema := s.schema.(locked := locked)), canon)
  {
    hide RecordsPrefix;
  }

  lemma LiquibaseStepsKeepInv(s: State, canon: seq<Migration>, e: Environment, p: nat, step: Step)
    requires Inv(s, canon) && Enabled(s, canon, step)
    requires step == TakeLiquibaseLock(p) || step == DropLiquibaseLock(p)
    ensures Inv(Apply(s, canon, e, step), canon)
  {
    FromAttempts(s, canon, p);
    assert s.attempts[p].stage == Unlocking(true) ==> |s.schema.ledger| == s.attempts[p].length;
    LockRowKeepsInv(s, canon, true);
    LockRowKeepsInv(s, canon, false);
    hide RecordsPrefix, AttemptsOk;
    var s' := Apply(s, canon, e, step);
    HolderMoves(s, canon, p, s'.schema, s'.attempts[p].stage);
  }

  lemma StepKeepsInv(s: State, canon: seq<Migration>, e: Environment, step: Step)
    requires Inv(s, canon) && IsArtifact(canon) && Enabled(s, canon, step)
    ensures Inv(Apply(s, canon, e, step), canon)
  {
    hide Adopt, ApplyOne, RecordsPrefix, IsArtifact, AttemptsOk, SchemaOk;
    match step
    case ApplyNext(p, sqlOk) => ApplyStepKeepsInv(s, canon, p, sqlOk);
    case Validate(p) => ValidateKeepsInv(s, canon, p);
    case AdoptHistory(p, proofOk) => AdoptStepKeepsInv(s, canon, e, p, proofOk);
    case TakeLiquibaseLock(p) => LiquibaseStepsKeepInv(s, canon, e, p, step);
    case DropLiquibaseLock(p) => LiquibaseStepsKeepInv(s, canon, e, p, step);
    case Begin(p, n) => BeginKeepsInv(s, canon, p, n);
    case TakeImportLocks(p) =>
      if s.holder.Some? {
        OthersHold(s, canon, p);
        EndKeepsInv(s, canon, p, s.outcomes + [(p, false)]);
      } else {
        TakeKeepsInv(s, canon, p);
      }
    case DropImportLocks(p) =>
      FromAttempts(s, canon, p);
      EndKeepsInv(s, canon, p, s.outcomes + [(p, s.attempts[p].stage.ok)]);
    case Crash(p) => EndKeepsInv(s, canon, p, s.outcomes);
    case Clear => LockRowKeepsInv(s, canon, false);
  }

  lemma OthersHold(s: State, canon: seq<Migration>, p: nat)
    requires AttemptsOk(s, canon) && At(s, p, Begun)
    ensures s.holder != Some(p)
  {}

  ghost predicate Possible(s: State, canon: seq<Migration>, e: Environment, steps: seq<Step>)
    decreases |steps|
  {
    steps == [] || (Enabled(s, canon, steps[0]) && Possible(Apply(s, canon, e, steps[0]), canon, e, steps[1..]))
  }

  ghost function After(s: State, canon: seq<Migration>, e: Environment, steps: seq<Step>): State
    requires Possible(s, canon, e, steps)
    decreases |steps|
  {
    if steps == [] then s else After(Apply(s, canon, e, steps[0]), canon, e, steps[1..])
  }

  /** A schema nobody has migrated yet, possibly with a Liquibase history. */
  ghost predicate Init(s: State) {
    && s.schema.ledger == map[] && s.schema.executed == [] && s.schema.adopted == 0 && !s.schema.locked
    && s.holder == None && s.attempts == map[] && s.outcomes == []
  }

  lemma {:induction false} HistoriesKeepInv(s: State, canon: seq<Migration>, e: Environment, steps: seq<Step>)
    requires Inv(s, canon) && IsArtifact(canon) && Possible(s, canon, e, steps)
    ensures Inv(After(s, canon, e, steps), canon)
    decreases |steps|
  {
    if steps != [] {
      StepKeepsInv(s, canon, e, steps[0]);
      HistoriesKeepInv(Apply(s, canon, e, steps[0]), canon, e, steps[1..]);
    }
  }

  lemma InitInv(s: State, canon: seq<Migration>)
    requires Init(s)
    ensures Inv(s, canon)
  {
    assert Recording(canon[..0]) == map[];
    assert canon[0..0] == [];
  }

  /**
   * Over any history of attempts by older and newer artifacts, failures, crashes and cleared
   * locks: the ledger is a canonical prefix, and each migration that was not adopted took effect
   * exactly once and in order.
   */
  lemma LedgerStaysCanonical(s: State, canon: seq<Migration>, e: Environment, steps: seq<Step>)
    requires Init(s) && IsArtifact(canon) && Possible(s, canon, e, steps)
    ensures SchemaOk(After(s, canon, e, steps).schema, canon)
  {
    InitInv(s, canon);
    HistoriesKeepInv(s, canon, e, steps);
  }

  /** An artifact older than the ledger is refused, and changes nothing. */
  lemma OlderArtifactIsRefused(s: State, canon: seq<Migration>, e: Environment, p: nat)
    requires Inv(s, canon) && At(s, p, Ready)
    ensures var s' := Apply(s, canon, e, Validate(p));
            && s'.schema == s.schema
            && (At(s', p, Unlocking(false)) <==> s.attempts[p].length < |s.schema.ledger|)
  {
    FitsIffShorter(s.schema.ledger, canon, s.attempts[p].length);
  }

  /** An attempt that ends well leaves the ledger recording exactly its artifact. */
  lemma SuccessMeansComplete(s: State, canon: seq<Migration>, p: nat)
    requires Inv(s, canon) && At(s, p, Leaving(true))
    ensures s.schema.ledger == Recording(canon[..s.attempts[p].length])
  {}

  // ----- a crash while the Liquibase lock is held -----

  ghost predicate NobodyReserved(s: State) {
    forall p :: p in s.attempts ==> s.attempts[p].stage == Begun || s.attempts[p].stage == Locked || s.attempts[p].stage.Leaving?
  }

  /** The lock row outlives its holder. */
  lemma CrashLeavesLock(s: State, canon: seq<Migration>, e: Environment, p: nat)
    requires Inv(s, canon) && p in s.attempts && s.holder == Some(p) && s.schema.locked
    ensures var s' := Apply(s, canon, e, Crash(p)); s'.schema.locked && NobodyReserved(s') && s'.holder == None
  {}

  lemma StaleStep(s: State, canon: seq<Migration>, e: Environment, step: Step)
    requires s.schema.locked && NobodyReserved(s) && Enabled(s, canon, step) && step != Clear
    ensures var s' := Apply(s, canon, e, step); s'.schema == s.schema && NobodyReserved(s')
  {}

  /** Until an operator clears it, a stale lock keeps every later attempt from touching the schema. */
  lemma {:induction false} StaleLockBlocks(s: State, canon: seq<Migration>, e: Environment, steps: seq<Step>)
    requires s.schema.locked && NobodyReserved(s) && Possible(s, canon, e, steps)
    requires Clear !in steps
    ensures After(s, canon, e, steps).schema == s.schema
    decreases |steps|
  {
    if steps != [] {
      assert steps[0] in steps;
      StaleStep(s, canon, e, steps[0]);
      assert Clear !in steps[1..];
      StaleLockBlocks(Apply(s, canon, e, steps[0]), canon, e, steps[1..]);
    }
  }
}
