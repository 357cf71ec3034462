/**
 The lifecycle of an upgrade job: its transition table, the shortest governed path to an
 observed state, the evidence demanded at each production boundary, and the rule that
 releases the deployment lock.
 */
module Lifecycle {
  import opened Wrappers
  import opened Evidence
  import opened ShortestPath

  datatype State =
    | Requested
    | Accepted
    | Preflight
    | Backup
    | ValidatingArtifact
    | Deploying
    | Verifying
    | Completed
    | CancelRequested
    | Canceled
    | Failed
    | RollbackRequested
    | RollingBack
    | RolledBack

  const ALL_STATES: set<State> := {
    Requested, Accepted, Preflight, Backup, ValidatingArtifact, Deploying, Verifying, Completed,
    CancelRequested, Canceled, Failed, RollbackRequested, RollingBack, RolledBack }

  predicate Terminal(s: State) {
    s in {Completed, Canceled, Failed, RolledBack}
  }

  function AllowedTransitions(from: State): seq<State> {
    match from
    case Requested => [Accepted, CancelRequested, Failed]
    case Accepted => [Preflight, CancelRequested, Failed]
    case Preflight => [Backup, CancelRequested, Failed]
    case Backup => [ValidatingArtifact, Failed]
    case ValidatingArtifact => [Deploying, Failed]
    case Deploying => [Verifying, Failed, RollbackRequested]
    case Verifying => [Completed, Failed, RollbackRequested]
    case Completed => [RollbackRequested]
    case CancelRequested => [Canceled, Accepted, Failed]
    case Canceled => []
    case Failed => [RollbackRequested]
    case RollbackRequested => [RollingBack, Failed]
    case RollingBack => [RolledBack, Failed]
    case RolledBack => []
  }

  predicate CanTransition(from: State, to: State) {
    to in AllowedTransitions(from)
  }

  /** The forward states in which nothing has been done yet that a cancellation would have to undo. */
  predicate BeforeBackup(s: State) {
    s == Requested || s == Accepted || s == Preflight
  }

  /**
   A job goes on along the chain, one state at a time; it may fail until it has come to an end; it may be
   cancelled before its backup, which the controller grants or refuses; and it may be rolled back from its
   deployment on, even after it has come to a completion or a failure.
   */
  predicate IsAllowed(from: State, to: State) {
    || (from == Requested && to == Accepted)
    || (exists i | 0 < i < |CHAIN| :: from == CHAIN[i - 1] && to == CHAIN[i])
    || (to == Failed && from !in {Completed, Canceled, Failed, RolledBack})
    || (to == CancelRequested && BeforeBackup(from))
    || (from == CancelRequested && (to == Canceled || to == Accepted))
    || (to == RollbackRequested && from in {Deploying, Verifying, Completed, Failed})
    || (from == RollbackRequested && to == RollingBack)
    || (from == RollingBack && to == RolledBack)
  }

  lemma ChainSteps(from: State, to: State)
    ensures (exists i | 0 < i < |CHAIN| :: from == CHAIN[i - 1] && to == CHAIN[i])
       <==> from in {Accepted, Preflight, Backup, ValidatingArtifact, Deploying, Verifying}
            && to == match from
                     case Accepted => Preflight
                     case Preflight => Backup
                     case Backup => ValidatingArtifact
                     case ValidatingArtifact => Deploying
                     case Deploying => Verifying
                     case _ => Completed
  {
    assert CHAIN[0] == Accepted && CHAIN[1] == Preflight && CHAIN[2] == Backup && CHAIN[3] == ValidatingArtifact;
    assert CHAIN[4] == Deploying && CHAIN[5] == Verifying && CHAIN[6] == Completed;
  }

  lemma TableMeans(from: State, to: State)
    ensures CanTransition(from, to) <==> IsAllowed(from, to)
    ensures Terminal(from) <==> from == Completed || from == Canceled || from == Failed || from == RolledBack
  {
    ChainSteps(from, to);
  }

  // ---- Governed paths -----------------------------------------------------------

  ghost predicate IsGovernedPath(from: State, to: State, path: seq<State>) {
    IsSearchResult(AllowedTransitions, from, to, path)
  }

  method UpgradeJobTransitionPath(from: State, to: State) returns (path: seq<State>)
    ensures IsGovernedPath(from, to, path)
  {
    path := Search(AllowedTransitions, from, to, ALL_STATES);
  }

  lemma GovernedIsWalk(from: State, to: State, path: seq<State>)
    requires IsGovernedPath(from, to, path)
    ensures IsWalk(AllowedTransitions, from, path)
  {
    hide Ranks, NotAfter, AllowedTransitions;
  }

  lemma NoSelfTransition(s: State)
    ensures !CanTransition(s, s)
  {
  }

  /** A transition that is allowed outright is its own governed path. */
  lemma DirectTransitionIsGovernedPath(from: State, to: State)
    requires CanTransition(from, to)
    ensures IsGovernedPath(from, to, [to])
  {
    NoSelfTransition(from);
    assert from != to;
    var path := [to];
    OneStep(AllowedTransitions, from, to);
    forall walk | Leads(AllowedTransitions, from, to, walk)
      ensures NotAfter(Ranks(AllowedTransitions, from, path), Ranks(AllowedTransitions, from, walk))
    {
      assert walk != [];
      if |walk| == 1 {
        assert walk == path;
      }
    }
  }

  // ---- Evidence gates -------------------------------------------------------------

  datatype Safeguard =
    | VerifiedBackup
    | RestoredMigrationValidation
    | ArtifactChecksum
    | ArtifactProvenance
    | ArtifactSignature
    | ContainerAvailability
    | RollbackTarget
    | HealthyTrafficTransition
    | ApplicationHealth
    | SchemaHealth
    | RollbackRestored
    | RollbackHealth

  /** The states that may be entered only once a safeguard is proved. */
  predicate Guards(g: Safeguard, next: State) {
    match g
    case VerifiedBackup | RestoredMigrationValidation =>
      next in {ValidatingArtifact, Deploying, Verifying, Completed}
    case ArtifactChecksum | ArtifactProvenance | ArtifactSignature | ContainerAvailability | RollbackTarget =>
      next in {Deploying, Verifying, Completed}
    case HealthyTrafficTransition | ApplicationHealth | SchemaHealth => next == Completed
    case RollbackRestored | RollbackHealth => next == RolledBack
  }

  predicate Holds(evidence: Sections, section: string, name: string) {
    Truthy(Get(Lookup(evidence, section), name))
  }

  predicate Equals(evidence: Sections, section: string, name: string, value: Json) {
    Get(Lookup(evidence, section), name) == Some(value)
  }

  predicate Provides(evidence: Sections, targetDigest: string, safeguard: Safeguard) {
    match safeguard
    case VerifiedBackup => Holds(evidence, "backup", "verified") && Holds(evidence, "backup", "id")
    case RestoredMigrationValidation =>
      Holds(evidence, "migrationValidation", "verified") && Holds(evidence, "migrationValidation", "restoredDatabaseId")
    case ArtifactChecksum =>
      Holds(evidence, "artifact", "checksumVerified") && Equals(evidence, "artifact", "digest", Str(targetDigest))
    case ArtifactProvenance => Holds(evidence, "artifact", "provenanceVerified")
    case ArtifactSignature => Holds(evidence, "artifact", "signatureVerified")
    case ContainerAvailability => Holds(evidence, "artifact", "imageAvailable")
    case RollbackTarget =>
      && Holds(evidence, "rollback", "available") && Holds(evidence, "rollback", "revision")
      && Holds(evidence, "rollback", "imageDigest")
    case HealthyTrafficTransition =>
      && Holds(evidence, "deployment", "revision") && Equals(evidence, "deployment", "imageDigest", Str(targetDigest))
      && Equals(evidence, "deployment", "trafficPercent", Num(100.0))
    case ApplicationHealth => Holds(evidence, "health", "application")
    case SchemaHealth => Holds(evidence, "health", "schema")
    case RollbackRestored => Holds(evidence, "rollback", "restored")
    case RollbackHealth => Holds(evidence, "rollback", "healthVerified")
  }

  ghost predicate GatePasses(next: State, evidence: Sections, targetDigest: string) {
    forall g | Guards(g, next) :: Provides(evidence, targetDigest, g)
  }

  /** A list of missing safeguards, with one more if the state demands it and the evidence lacks it. */
  ghost function Listed(
      missing: seq<Safeguard>, next: State, evidence: Sections, targetDigest: string, g: Safeguard): seq<Safeguard>
  {
    if Guards(g, next) && !Provides(evidence, targetDigest, g) then missing + [g] else missing
  }

  /** The order in which missing safeguards are named. */
  function Place(g: Safeguard): nat {
    match g
    case VerifiedBackup => 0
    case RestoredMigrationValidation => 1
    case ArtifactChecksum => 2
    case ArtifactProvenance => 3
    case ArtifactSignature => 4
    case ContainerAvailability => 5
    case RollbackTarget => 6
    case HealthyTrafficTransition => 7
    case ApplicationHealth => 8
    case SchemaHealth => 9
    case RollbackRestored => 10
    case RollbackHealth => 11
  }

  const SAFEGUARDS: seq<Safeguard> := [
    VerifiedBackup, RestoredMigrationValidation, ArtifactChecksum, ArtifactProvenance, ArtifactSignature,
    ContainerAvailability, RollbackTarget, HealthyTrafficTransition, ApplicationHealth, SchemaHealth,
    RollbackRestored, RollbackHealth]

  lemma InPlace(g: Safeguard)
    ensures Place(g) < |SAFEGUARDS| && SAFEGUARDS[Place(g)] == g
  {
  }

  /** The first n safeguards, as far as the state demands them and the evidence lacks them. */
  ghost function Missing(next: State, evidence: Sections, targetDigest: string, n: nat): seq<Safeguard>
    requires n <= |SAFEGUARDS|
  {
    if n == 0 then []
    else Listed(Missing(next, evidence, targetDigest, n - 1), next, evidence, targetDigest, SAFEGUARDS[n - 1])
  }

  method Demand(missing: seq<Safeguard>, ghost next: State, evidence: Sections, targetDigest: string, g: Safeguard)
    returns (r: seq<Safeguard>)
    requires Guards(g, next) && Place(g) < |SAFEGUARDS|
    requires missing == Missing(next, evidence, targetDigest, Place(g))
    ensures Place(g) + 1 <= |SAFEGUARDS| && r == Missing(next, evidence, targetDigest, Place(g) + 1)
  {
    InPlace(g);
    r := missing;
    if !Provides(evidence, targetDigest, g) {
      r := r + [g];
    }
  }

  /** Safeguards the state does not demand are not named. */
  lemma {:induction false} NotDemanded(next: State, evidence: Sections, targetDigest: string, m: nat, n: nat)
    requires m <= n <= |SAFEGUARDS| && forall i | m <= i < n :: !Guards(SAFEGUARDS[i], next)
    ensures Missing(next, evidence, targetDigest, n) == Missing(next, evidence, targetDigest, m)
    decreases n
  {
    hide Guards, Provides;
    if m < n {
      NotDemanded(next, evidence, targetDigest, m, n - 1);
    }
  }

  lemma NotDemandedGroups(next: State, evidence: Sections, targetDigest: string)
    ensures Missing(next, evidence, targetDigest, 0) == []
    ensures next !in {ValidatingArtifact, Deploying, Verifying, Completed} ==>
              Missing(next, evidence, targetDigest, 2) == Missing(next, evidence, targetDigest, 0)
    ensures next !in {Deploying, Verifying, Completed} ==>
              Missing(next, evidence, targetDigest, 7) == Missing(next, evidence, targetDigest, 2)
    ensures next != Completed ==>
              Missing(next, evidence, targetDigest, 10) == Missing(next, evidence, targetDigest, 7)
    ensures next != RolledBack ==>
              Missing(next, evidence, targetDigest, 12) == Missing(next, evidence, targetDigest, 10)
  {
    if next !in {ValidatingArtifact, Deploying, Verifying, Completed} {
      NotDemanded(next, evidence, targetDigest, 0, 2);
    }
    if next !in {Deploying, Verifying, Completed} {
      NotDemanded(next, evidence, targetDigest, 2, 7);
    }
    if next != Completed {
      NotDemanded(next, evidence, targetDigest, 7, 10);
    }
    if next != RolledBack {
      NotDemanded(next, evidence, targetDigest, 10, 12);
    }
  }

  lemma {:induction false} MissingHas(next: State, evidence: Sections, targetDigest: string, n: nat, g: Safeguard)
    requires n <= |SAFEGUARDS|
    ensures g in Missing(next, evidence, targetDigest, n)
       <==> g in SAFEGUARDS[..n] && Guards(g, next) && !Provides(evidence, targetDigest, g)
    decreases n
  {
    hide Guards, Provides;
    if n > 0 {
      MissingHas(next, evidence, targetDigest, n - 1, g);
      assert SAFEGUARDS[..n] == SAFEGUARDS[..n - 1] + [SAFEGUARDS[n - 1]];
    }
  }

  lemma AllAreListed(g: Safeguard)
    ensures g in SAFEGUARDS[..|SAFEGUARDS|]
  {
    assert SAFEGUARDS[..|SAFEGUARDS|] == SAFEGUARDS;
    assert SAFEGUARDS[0] == VerifiedBackup && SAFEGUARDS[1] == RestoredMigrationValidation;
  }

  lemma NothingMissing(next: State, evidence: Sections, targetDigest: string, missing: seq<Safeguard>)
    requires forall g :: g in missing <==> Guards(g, next) && !Provides(evidence, targetDigest, g)
    ensures missing == [] <==> GatePasses(next, evidence, targetDigest)
  {
    assert missing != [] ==> missing[0] in missing;
  }

  lemma MissingIsExact(next: State, evidence: Sections, targetDigest: string)
    ensures var missing := Missing(next, evidence, targetDigest, |SAFEGUARDS|);
            && (forall g :: g in missing <==> Guards(g, next) && !Provides(evidence, targetDigest, g))
            && (missing == [] <==> GatePasses(next, evidence, targetDigest))
            && (missing == [] <==> Proven(next, evidence, targetDigest))
  {
    hide Provides, GatePasses, Proven, Missing, Guards;
    var missing := Missing(next, evidence, targetDigest, |SAFEGUARDS|);
    forall g ensures g in missing <==> Guards(g, next) && !Provides(evidence, targetDigest, g) {
      MissingHas(next, evidence, targetDigest, |SAFEGUARDS|, g);
      AllAreListed(g);
    }
    NothingMissing(next, evidence, targetDigest, missing);
    GateMeans(next, evidence, targetDigest);
  }

  method MissingUpgradeSafetyEvidence(next: State, evidence: Sections, targetDigest: string)
    returns (missing: seq<Safeguard>)
    ensures missing == Missing(next, evidence, targetDigest, |SAFEGUARDS|)
    ensures forall g :: g in missing <==> Guards(g, next) && !Provides(evidence, targetDigest, g)
    ensures missing == [] <==> GatePasses(next, evidence, targetDigest)
    ensures missing == [] <==> Proven(next, evidence, targetDigest)
  {
    hide Provides, GatePasses, Proven, Missing;
    missing := [];
    NotDemandedGroups(next, evidence, targetDigest);
    if next in {ValidatingArtifact, Deploying, Verifying, Completed} {
      missing := Demand(missing, next, evidence, targetDigest, VerifiedBackup);
      missing := Demand(missing, next, evidence, targetDigest, RestoredMigrationValidation);
    }
    if next in {Deploying, Verifying, Completed} {
      missing := Demand(missing, next, evidence, targetDigest, ArtifactChecksum);
      missing := Demand(missing, next, evidence, targetDigest, ArtifactProvenance);
      missing := Demand(missing, next, evidence, targetDigest, ArtifactSignature);
      missing := Demand(missing, next, evidence, targetDigest, ContainerAvailability);
      missing := Demand(missing, next, evidence, targetDigest, RollbackTarget);
    }
    if next == Completed {
      missing := Demand(missing, next, evidence, targetDigest, HealthyTrafficTransition);
      missing := Demand(missing, next, evidence, targetDigest, ApplicationHealth);
      missing := Demand(missing, next, evidence, targetDigest, SchemaHealth);
    }
    if next == RolledBack {
      missing := Demand(missing, next, evidence, targetDigest, RollbackRestored);
      missing := Demand(missing, next, evidence, targetDigest, RollbackHealth);
    }
    MissingIsExact(next, evidence, targetDigest);
  }

  /** A failed job releases its deployment lock only with affirmative safety evidence. */
  predicate CanReleaseLock(state: State, evidence: Sections) {
    || state in {Completed, Canceled, RolledBack}
    || (state == Failed && Equals(evidence, "failure", "productionPreserved", Bool(true))
        && Holds(evidence, "failure", "verifiedAt"))
  }

  // ---- What the gates and the lock demand, field by field -------------------------------

  /** Neither missing nor one of the values that count as missing. */
  predicate Given(value: Option<Json>) {
    value.Some? && value.value !in {Null, Bool(false), Num(0.0), Str("")}
  }

  function FieldsOf(evidence: Sections, section: string): seq<Field> {
    match Lookup(evidence, section)
    case Some(Obj(fields)) => fields
    case _ => []
  }

  predicate BackupProven(evidence: Sections) {
    var backup, validation := FieldsOf(evidence, "backup"), FieldsOf(evidence, "migrationValidation");
    && Given(Lookup(backup, "verified")) && Given(Lookup(backup, "id"))
    && Given(Lookup(validation, "verified")) && Given(Lookup(validation, "restoredDatabaseId"))
  }

  predicate ArtifactProven(evidence: Sections, digest: string) {
    var artifact, rollback := FieldsOf(evidence, "artifact"), FieldsOf(evidence, "rollback");
    && Lookup(artifact, "digest") == Some(Str(digest)) && Given(Lookup(artifact, "checksumVerified"))
    && Given(Lookup(artifact, "provenanceVerified")) && Given(Lookup(artifact, "signatureVerified"))
    && Given(Lookup(artifact, "imageAvailable"))
    && Given(Lookup(rollback, "available")) && Given(Lookup(rollback, "revision"))
    && Given(Lookup(rollback, "imageDigest"))
  }

  predicate TrafficMoved(evidence: Sections, digest: string) {
    var deployment, health := FieldsOf(evidence, "deployment"), FieldsOf(evidence, "health");
    && Given(Lookup(deployment, "revision")) && Lookup(deployment, "imageDigest") == Some(Str(digest))
    && Lookup(deployment, "trafficPercent") == Some(Num(100.0))
    && Given(Lookup(health, "application")) && Given(Lookup(health, "schema"))
  }

  predicate RollbackProven(evidence: Sections) {
    var rollback := FieldsOf(evidence, "rollback");
    Given(Lookup(rollback, "restored")) && Given(Lookup(rollback, "healthVerified"))
  }

  predicate Proven(next: State, evidence: Sections, digest: string) {
    match next
    case ValidatingArtifact => BackupProven(evidence)
    case Deploying | Verifying => BackupProven(evidence) && ArtifactProven(evidence, digest)
    case Completed => BackupProven(evidence) && ArtifactProven(evidence, digest) && TrafficMoved(evidence, digest)
    case RolledBack => RollbackProven(evidence)
    case _ => true
  }

  lemma HoldsExactly(evidence: Sections, section: string, name: string)
    ensures Holds(evidence, section, name) <==> Given(Lookup(FieldsOf(evidence, section), name))
  {
  }

  lemma EqualsExactly(evidence: Sections, section: string, name: string, value: Json)
    ensures Equals(evidence, section, name, value) <==> Lookup(FieldsOf(evidence, section), name) == Some(value)
  {
  }

  ghost predicate Passes(g: Safeguard, next: State, evidence: Sections, digest: string) {
    Guards(g, next) ==> Provides(evidence, digest, g)
  }

  ghost predicate AllPass(next: State, evidence: Sections, digest: string) {
    && Passes(VerifiedBackup, next, evidence, digest) && Passes(RestoredMigrationValidation, next, evidence, digest)
    && Passes(ArtifactChecksum, next, evidence, digest) && Passes(ArtifactProvenance, next, evidence, digest)
    && Passes(ArtifactSignature, next, evidence, digest) && Passes(ContainerAvailability, next, evidence, digest)
    && Passes(RollbackTarget, next, evidence, digest) && Passes(HealthyTrafficTransition, next, evidence, digest)
    && Passes(ApplicationHealth, next, evidence, digest) && Passes(SchemaHealth, next, evidence, digest)
    && Passes(RollbackRestored, next, evidence, digest) && Passes(RollbackHealth, next, evidence, digest)
  }

  lemma OneByOne(next: State, evidence: Sections, digest: string)
    ensures GatePasses(next, evidence, digest) <==> AllPass(next, evidence, digest)
  {
    hide Guards, Provides;
    if AllPass(next, evidence, digest) {
      forall g | Guards(g, next) ensures Provides(evidence, digest, g) {
        match g
        case VerifiedBackup | RestoredMigrationValidation | ArtifactChecksum | ArtifactProvenance =>
        case ArtifactSignature | ContainerAvailability | RollbackTarget | HealthyTrafficTransition =>
        case ApplicationHealth | SchemaHealth | RollbackRestored | RollbackHealth =>
      }
    }
  }

  lemma BackupMeans(evidence: Sections, digest: string)
    ensures BackupProven(evidence)
       <==> Provides(evidence, digest, VerifiedBackup) && Provides(evidence, digest, RestoredMigrationValidation)
  {
    HoldsExactly(evidence, "backup", "verified");
    HoldsExactly(evidence, "backup", "id");
    HoldsExactly(evidence, "migrationValidation", "verified");
    HoldsExactly(evidence, "migrationValidation", "restoredDatabaseId");
    hide Holds, Given, Lookup, FieldsOf;
  }

  lemma ArtifactMeans(evidence: Sections, digest: string)
    ensures ArtifactProven(evidence, digest)
       <==> Provides(evidence, digest, ArtifactChecksum) && Provides(evidence, digest, ArtifactProvenance)
            && Provides(evidence, digest, ArtifactSignature) && Provides(evidence, digest, ContainerAvailability)
            && Provides(evidence, digest, RollbackTarget)
  {
    EqualsExactly(evidence, "artifact", "digest", Str(digest));
    HoldsExactly(evidence, "artifact", "checksumVerified");
    HoldsExactly(evidence, "artifact", "provenanceVerified");
    HoldsExactly(evidence, "artifact", "signatureVerified");
    HoldsExactly(evidence, "artifact", "imageAvailable");
    HoldsExactly(evidence, "rollback", "available");
    HoldsExactly(evidence, "rollback", "revision");
    HoldsExactly(evidence, "rollback", "imageDigest");
    hide Holds, Equals, Given, Lookup, FieldsOf;
  }

  lemma TrafficMeans(evidence: Sections, digest: string)
    ensures TrafficMoved(evidence, digest)
       <==> Provides(evidence, digest, HealthyTrafficTransition) && Provides(evidence, digest, ApplicationHealth)
            && Provides(evidence, digest, SchemaHealth)
  {
    HoldsExactly(evidence, "deployment", "revision");
    EqualsExactly(evidence, "deployment", "imageDigest", Str(digest));
    EqualsExactly(evidence, "deployment", "trafficPercent", Num(100.0));
    HoldsExactly(evidence, "health", "application");
    HoldsExactly(evidence, "health", "schema");
    hide Holds, Equals, Given, Lookup, FieldsOf;
  }

  lemma RollbackMeans(evidence: Sections, digest: string)
    ensures RollbackProven(evidence)
       <==> Provides(evidence, digest, RollbackRestored) && Provides(evidence, digest, RollbackHealth)
  {
    HoldsExactly(evidence, "rollback", "restored");
    HoldsExactly(evidence, "rollback", "healthVerified");
    hide Holds, Given, Lookup, FieldsOf;
  }

  /** A gate passes if and only if the evidence has, in its sections, what the state demands. */
  lemma GateMeans(next: State, evidence: Sections, digest: string)
    ensures GatePasses(next, evidence, digest) <==> Proven(next, evidence, digest)
  {
    hide GatePasses, Provides, BackupProven, ArtifactProven, TrafficMoved, RollbackProven;
    OneByOne(next, evidence, digest);
    BackupMeans(evidence, digest);
    ArtifactMeans(evidence, digest);
    TrafficMeans(evidence, digest);
    RollbackMeans(evidence, digest);
  }

  /** The production is known to be as it was. */
  predicate HarmlessFailure(evidence: Sections) {
    var failure := FieldsOf(evidence, "failure");
    Lookup(failure, "productionPreserved") == Some(Bool(true)) && Given(Lookup(failure, "verifiedAt"))
  }

  /** The deployment lock is let go at a good end, or at a failure proven harmless. */
  predicate LetsGo(state: State, evidence: Sections) {
    state in {Completed, Canceled, RolledBack} || (state == Failed && HarmlessFailure(evidence))
  }

  lemma ReleaseMeans(state: State, evidence: Sections)
    ensures CanReleaseLock(state, evidence) <==> LetsGo(state, evidence)
  {
    EqualsExactly(evidence, "failure", "productionPreserved", Bool(true));
    HoldsExactly(evidence, "failure", "verifiedAt");
  }

  // ---- What the table promises --------------------------------------------------------

  /** The states in which a job may still move forward; they hold the deployment lock. */
  predicate Forward(s: State) {
    s in {Requested, Accepted, Preflight, Backup, ValidatingArtifact, Deploying, Verifying, CancelRequested}
  }

  /** The states on the way to `Completed`, in order. */
  const CHAIN: seq<State> := [Accepted, Preflight, Backup, ValidatingArtifact, Deploying, Verifying, Completed]

  /** How far a job has come; no transition goes back. */
  ghost function Phase(s: State): nat {
    match s
    case Requested | Accepted | Preflight | CancelRequested => 0
    case Backup => 1
    case ValidatingArtifact => 2
    case Deploying => 3
    case Verifying => 4
    case Completed => 5
    case Canceled | Failed | RollbackRequested | RollingBack | RolledBack => 6
  }

  lemma TransitionsKeepPhase(from: State, to: State)
    requires CanTransition(from, to)
    ensures Phase(from) <= Phase(to)
    ensures Forward(to) ==> Forward(from)
    ensures Phase(to) <= 5 ==> forall g | Guards(g, from) :: Guards(g, to)
  {
  }

  ghost predicate IsHistory(h: seq<State>) {
    && h != [] && h[0] == Requested
    && forall i | 0 <= i < |h| - 1 :: CanTransition(h[i], h[i + 1])
  }

  lemma {:induction false} PhaseGrows(h: seq<State>, i: nat, j: nat)
    requires IsHistory(h) && i <= j < |h|
    ensures Phase(h[i]) <= Phase(h[j])
    decreases j
  {
    if i < j {
      PhaseGrows(h, i, j - 1);
      TransitionsKeepPhase(h[j - 1], h[j]);
    }
  }

  /** Once a backup has begun, a job is never cancelled, whatever happened before. */
  lemma NoCancelAfterBackup(h: seq<State>, i: nat, j: nat)
    requires IsHistory(h) && i < j < |h| && h[i] == Backup
    ensures h[j] !in {Requested, Accepted, Preflight, Backup, CancelRequested, Canceled}
  {
    PhaseGrows(h, i, j - 1);
    TransitionsKeepPhase(h[j - 1], h[j]);
    assert CanTransition(h[j - 1], h[j]);
  }

  /**
   However often a job looped through cancellation, it is completed only by running the
   whole chain once, without a detour, from the request or from a refused cancellation.
   */
  lemma CompletedRanTheChain(h: seq<State>)
    requires IsHistory(h) && h[|h| - 1] == Completed
    ensures |h| >= 8 && h[|h| - 7..] == CHAIN
    ensures h[|h| - 8] in {Requested, CancelRequested}
  {
    var n := |h|;
    assert n >= 2 && CanTransition(h[n - 2], h[n - 1]);
    assert n >= 3 && CanTransition(h[n - 3], h[n - 2]);
    assert n >= 4 && CanTransition(h[n - 4], h[n - 3]);
    assert n >= 5 && CanTransition(h[n - 5], h[n - 4]);
    assert n >= 6 && CanTransition(h[n - 6], h[n - 5]);
    assert n >= 7 && CanTransition(h[n - 7], h[n - 6]);
    assert n >= 8 && CanTransition(h[n - 8], h[n - 7]);
  }

  /** On the way to a state of the chain no boundary asks for more than that state does. */
  lemma {:induction false} GatesOnTheWay(from: State, to: State, path: seq<State>, s: State)
    requires Leads(AllowedTransitions, from, to, path) && s in path && Phase(to) <= 5
    ensures forall g | Guards(g, s) :: Guards(g, to)
    decreases |path|
  {
    if s != Last(path) {
      var before := End(from, Init(path));
      assert s in Init(path);
      TransitionsKeepPhase(before, to);
      GatesOnTheWay(from, before, Init(path), s);
    }
  }
}
