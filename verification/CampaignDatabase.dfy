/** The durable records of src/kuairand_agent/campaign/store.py that the candidate journal and the restart
    reconciliation read and write. Digests and free text that are only compared stand for themselves. */
module CampaignDatabase {
  import opened Results
  import opened Budgets

  datatype Action = Train | Predict

  /** An execution request: `sources` are the four digests that name the reservation, `rest` everything else
      that a retry has to repeat exactly. */
  datatype Spec = Spec(id: string, action: Action, sources: nat, seed: nat, rest: nat)

  /** `qualification-01` .. `qualification-06`, and `<execution>-launch`. */
  datatype LaunchId = Qualification(number: nat) | CandidateLaunch(execution: string)

  /** The reservation keys; that of the research loop stands together with the source digest in its metadata, which
      a retry has to repeat as well. */
  datatype Key =
    | QualificationKey(number: nat)
    | CandidateKey(action: Action, execution: string, sources: nat)
    | ResearchKey(execution: string, sources: nat)

  datatype StoredCategory = QualificationImport | Of(category: Category)

  datatype Terms = Terms(purpose: string, experiment: Option<string>, iteration: Option<nat>, seed: nat)

  datatype LaunchState = Reserved | Started | StartUncertain | Finished | NotStarted

  datatype Launch = Launch(number: nat, key: Key, category: StoredCategory, original: StoredCategory, terms: Terms,
                           state: LaunchState, charged: bool, receipt: Option<nat>)

  datatype Status = Starting | Running | Succeeded | Failed | Interrupted

  /** The runner's result: what it reports about success and release, the process it supervised, the two retained
      logs, and everything else it says. */
  datatype Verdict = Verdict(succeeded: bool, released: bool, process: Option<nat>, stdout: nat, stderr: nat, rest: nat)

  /** The roles in which artifacts are kept; any other name is `Other`. */
  datatype Role =
    | ExecutionManifest | Stdout | Stderr
    | CandidateResult | Checkpoint | Prediction | PredictionResult
    | FailureDiagnostic | WorkspaceCleanup
    | Other(name: string)

  datatype Kind = ManifestKind | LogKind | CheckpointKind | PredictionKind

  /** What an artifact holds: the canonical manifest of a result, or bytes known by their digest. */
  datatype Content = ResultOf(result: Verdict) | Bytes(digest: nat)

  datatype Artifact = Artifact(kind: Kind, content: Content)

  type Artifacts = map<Role, Artifact>

  datatype Execution = Execution(spec: Spec, launch: Option<LaunchId>, status: Status, receipt: Option<nat>,
                                 result: Option<Verdict>, artifacts: Artifacts)

  datatype Database = Database(maxLaunches: nat, transfers: seq<Transfer>,
                               launches: map<LaunchId, Launch>, launchOrder: seq<LaunchId>,
                               executions: map<string, Execution>, executionOrder: seq<string>,
                               iterations: nat, incumbent: Option<string>)

  /** `_LAUNCH_TRANSITIONS` */
  predicate LegalMove(from: LaunchState, to: LaunchState) {
    match from
    case Reserved => to == Started || to == NotStarted || to == StartUncertain
    case Started => to == Finished || to == StartUncertain
    case StartUncertain => to == Finished
    case Finished => false
    case NotStarted => false
  }

  predicate Unfinished(s: Status) { s == Starting || s == Running }

  predicate Settled(s: LaunchState) { s == Finished || s == NotStarted }

  function LaunchIdOf(spec: Spec): Option<LaunchId> {
    if spec.action == Train then Some(CandidateLaunch(spec.id)) else None
  }

  function KeyOf(spec: Spec): Key { CandidateKey(spec.action, spec.id, spec.sources) }

  // ---------------------------------------------------------------- the artifacts of a terminal execution

  function KindOf(role: Role): Kind {
    match role
    case Stdout => LogKind
    case Stderr => LogKind
    case FailureDiagnostic => LogKind
    case Checkpoint => CheckpointKind
    case Prediction => PredictionKind
    case _ => ManifestKind
  }

  const BASE_ROLES: set<Role> := {ExecutionManifest, Stdout, Stderr}
  const OPTIONAL_ROLES: set<Role> := {FailureDiagnostic, WorkspaceCleanup}

  function OutputRoles(action: Action): set<Role> {
    if action == Train then {CandidateResult, Checkpoint} else {Prediction, PredictionResult}
  }

  /** The frozen closure of roles: the base ones, the outputs of a validated run, and the optional ones, where a
      validated run keeps no failure diagnostic. */
  predicate RolesOk(action: Action, validated: bool, roles: set<Role>) {
    && !(validated && FailureDiagnostic in roles)
    && roles == BASE_ROLES + (if validated then OutputRoles(action) else {}) + roles * OPTIONAL_ROLES
  }

  /** `_validate_runner_artifacts` */
  predicate Evidence(action: Action, validated: bool, v: Verdict, artifacts: Artifacts) {
    && RolesOk(action, validated, artifacts.Keys)
    && (forall role | role in artifacts :: artifacts[role].kind == KindOf(role))
    && Holds(artifacts, ExecutionManifest, ResultOf(v))
    && Holds(artifacts, Stdout, Bytes(v.stdout)) && Holds(artifacts, Stderr, Bytes(v.stderr))
  }

  predicate Holds(artifacts: Artifacts, role: Role, content: Content) {
    role in artifacts && artifacts[role].content == content
  }

  /** The closure role by role: the manifest and both logs of this very result, the outputs of the action exactly if
      they were validated, a diagnostic only if they were not, perhaps the receipt of the workspace's removal, and
      nothing else. */
  lemma EvidenceExactly(action: Action, validated: bool, v: Verdict, artifacts: Artifacts)
    ensures Evidence(action, validated, v, artifacts) <==>
            && ExecutionManifest in artifacts && artifacts[ExecutionManifest] == Artifact(ManifestKind, ResultOf(v))
            && Stdout in artifacts && artifacts[Stdout] == Artifact(LogKind, Bytes(v.stdout))
            && Stderr in artifacts && artifacts[Stderr] == Artifact(LogKind, Bytes(v.stderr))
            && (Checkpoint in artifacts <==> validated && action == Train)
            && (CandidateResult in artifacts <==> validated && action == Train)
            && (Prediction in artifacts <==> validated && action == Predict)
            && (PredictionResult in artifacts <==> validated && action == Predict)
            && (FailureDiagnostic in artifacts ==> !validated)
            && (forall role | role in artifacts :: !role.Other?)
            && (Checkpoint in artifacts ==> artifacts[Checkpoint].kind == CheckpointKind)
            && (CandidateResult in artifacts ==> artifacts[CandidateResult].kind == ManifestKind)
            && (Prediction in artifacts ==> artifacts[Prediction].kind == PredictionKind)
            && (PredictionResult in artifacts ==> artifacts[PredictionResult].kind == ManifestKind)
            && (FailureDiagnostic in artifacts ==> artifacts[FailureDiagnostic].kind == LogKind)
            && (WorkspaceCleanup in artifacts ==> artifacts[WorkspaceCleanup].kind == ManifestKind)
  {
    RolesExactly(action, validated, artifacts.Keys);
    hide RolesOk;
    forall role | role in artifacts && !role.Other?
      ensures role in {ExecutionManifest, Stdout, Stderr, Checkpoint, CandidateResult, Prediction, PredictionResult,
                       FailureDiagnostic, WorkspaceCleanup}
    {
    }
  }

  lemma RolesExactly(action: Action, validated: bool, roles: set<Role>)
    ensures RolesOk(action, validated, roles) <==>
            && ExecutionManifest in roles && Stdout in roles && Stderr in roles
            && (Checkpoint in roles <==> validated && action == Train)
            && (CandidateResult in roles <==> validated && action == Train)
            && (Prediction in roles <==> validated && action == Predict)
            && (PredictionResult in roles <==> validated && action == Predict)
            && (FailureDiagnostic in roles ==> !validated)
            && (forall role | role in roles :: !role.Other?)
  {
    var closure := BASE_ROLES + (if validated then OutputRoles(action) else {}) + roles * OPTIONAL_ROLES;
    forall role
      ensures role in closure <==>
              || role in {ExecutionManifest, Stdout, Stderr}
              || (validated && action == Train && role in {Checkpoint, CandidateResult})
              || (validated && action == Predict && role in {Prediction, PredictionResult})
              || (role in roles && role in {FailureDiagnostic, WorkspaceCleanup})
    {
    }
  }

  /** A launch moves forward through RESERVED, STARTED and START_UNCERTAIN to FINISHED, where a reserved one does not
      skip to the end, or from RESERVED to NOT_STARTED. */
  lemma MovesExactly(from: LaunchState, to: LaunchState)
    ensures LegalMove(from, to) <==>
            || (from == Reserved && to in {Started, StartUncertain, NotStarted})
            || (from == Started && to in {StartUncertain, Finished})
            || (from == StartUncertain && to == Finished)
  {
  }

  // ---------------------------------------------------------------- writes

  /** The first event of a launch. */
  function WithLaunch(db: Database, lid: LaunchId, key: Key, category: Category, original: Category,
                      terms: Terms): Database {
    var l := Launch(|db.launchOrder| + 1, key, Of(category), Of(original), terms, Reserved, true, None);
    db.(launches := db.launches[lid := l], launchOrder := db.launchOrder + [lid])
  }

  /** A later event: only NOT_STARTED releases the charge, and a receipt once given stays. */
  function WithState(db: Database, lid: LaunchId, to: LaunchState, receipt: Option<nat>): Database
    requires lid in db.launches
  {
    var l := db.launches[lid];
    var kept := if receipt.Some? then receipt else l.receipt;
    db.(launches := db.launches[lid := l.(state := to, charged := to != NotStarted, receipt := kept)])
  }

  function FreshExecution(spec: Spec): Execution { Execution(spec, LaunchIdOf(spec), Starting, None, None, map[]) }

  function WithExecution(db: Database, spec: Spec): Database {
    var x := FreshExecution(spec);
    db.(executions := db.executions[spec.id := x], executionOrder := db.executionOrder + [spec.id])
  }

  function WithReceipt(db: Database, id: string, process: nat): Database
    requires id in db.executions
  {
    db.(executions := db.executions[id := db.executions[id].(status := Running, receipt := Some(process))])
  }

  function WithEnd(db: Database, id: string, status: Status, result: Option<Verdict>, artifacts: Artifacts): Database
    requires id in db.executions
  {
    db.(executions :=
      db.executions[id := db.executions[id].(status := status, result := result, artifacts := artifacts)])
  }

  // ---------------------------------------------------------------- the fresh campaign

  function ImportedLaunch(n: nat, terms: Terms): Launch {
    Launch(n, QualificationKey(n), QualificationImport, QualificationImport, terms, Finished, true, None)
  }

  const QUALIFICATION_ORDER: seq<LaunchId> :=
    [Qualification(1), Qualification(2), Qualification(3), Qualification(4), Qualification(5), Qualification(6)]

  function ImportedTerms(n: nat): Terms {
    if 1 <= n < 6 then Terms("official_fm_training", None, None, n - 1)
    else Terms("clean_source_retrain", None, None, 0)
  }

  /** A created campaign: the six qualification launches imported, an incumbent recorded, nothing else. */
  function Created(maxLaunches: nat, transfers: seq<Transfer>, incumbent: string): Database {
    var launches := map n: nat | 1 <= n <= 6 :: Qualification(n) := ImportedLaunch(n, ImportedTerms(n));
    Database(maxLaunches, transfers, launches, QUALIFICATION_ORDER, map[], [], 0, Some(incumbent))
  }

  /** A created campaign in full: nothing is run or closed, and launches 1 to 6 are the charged and finished imports of
      the five official seeds and the clean retrain. */
  lemma CreatedExactly(maxLaunches: nat, transfers: seq<Transfer>, incumbent: string, lid: LaunchId)
    ensures var db := Created(maxLaunches, transfers, incumbent);
            && db.maxLaunches == maxLaunches && db.transfers == transfers && db.iterations == 0
            && db.incumbent == Some(incumbent) && db.executions == map[] && db.executionOrder == []
            && |db.launchOrder| == 6 && (forall i | 0 <= i < 6 :: db.launchOrder[i] == Qualification(i + 1))
            && (lid in db.launches <==> lid.Qualification? && 1 <= lid.number <= 6)
            && (lid in db.launches ==>
                  var l := db.launches[lid];
                  && l.number == lid.number && l.key == QualificationKey(lid.number) && l.state == Finished && l.charged
                  && l.category == QualificationImport && l.original == QualificationImport && l.receipt == None
                  && l.terms == if lid.number <= 5 then Terms("official_fm_training", None, None, lid.number - 1)
                                else Terms("clean_source_retrain", None, None, 0))
  {
  }
}
