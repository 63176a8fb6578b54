/** The crash-safe launch protocol as a transition system. One step is one durable write, one move of the live
    controller, or the death of its process; `released` records which candidates really started. */
module CampaignProtocol {
  import opened Results
  import opened Budgets
  import opened CampaignDatabase
  import opened LedgerRebuild

  /** One reconciliation report on disk. */
  datatype Report = Report(sequence: nat, execution: Option<string>, launch: Option<LaunchId>,
                           launchState: Option<LaunchState>)

  /** Where the live process is. None of this survives a crash. `Repairing` is a restart that has begun to repair
      an execution, or a launch that no execution owns, and has not reported it yet. */
  datatype Controller =
    | Down
    | Restarting
    | Repairing(execution: Option<string>, launch: Option<LaunchId>)
    | Idle
    | Prepared(id: string)
    | Receipted(id: string)
    | Committed(id: string)
    | Supervising(id: string)
    | Ended(id: string, verdict: Verdict)

  datatype World = World(db: Database, reports: seq<Report>, released: set<string>, controller: Controller)

  datatype Event =
    | Reserve(spec: Spec, request: Request, remaining: real, reserve: real, terms: Terms)
    | ReserveUnadmitted(id: string, sources: nat, terms: Terms)
    | Create(spec: Spec)
    | Receipt(process: nat)
    | Begin
    | CommitReturns
    | Release
    | Stop(verdict: Verdict)
    | EndExecution(validated: bool, artifacts: Artifacts)
    | EndLaunch
    | Leave
    | Rehydrate(id: string)
    | Crash
    | Reopen
    | Restart
    | Interrupt(id: string)
    | Doubt(launch: LaunchId)
    | Close(launch: LaunchId)
    | File
    | Resume
    | Research(iterations: nat, incumbent: string)

  /** The launch state that `finish` and `rehydrate_terminal` settle on. */
  function Desired(released: bool, state: LaunchState): LaunchState {
    if released || state == Started || state == StartUncertain || state == Finished then Finished else NotStarted
  }

  /** Whether some execution row owns the launch. */
  predicate Owned(db: Database, lid: LaunchId) {
    lid.CandidateLaunch? && lid.execution in db.executions && db.executions[lid.execution].launch == Some(lid)
  }

  /** Launches that a restart may close: no active execution owns them. */
  predicate Closable(db: Database, lid: LaunchId) {
    lid.CandidateLaunch? && (Owned(db, lid) ==> !Unfinished(db.executions[lid.execution].status))
  }

  /** The execution that owns the launch, if any. */
  function Owner(db: Database, lid: LaunchId): Option<string> {
    if Owned(db, lid) then Some(lid.execution) else None
  }

  predicate InRestart(c: Controller) { c.Restarting? || c.Repairing? }

  predicate Working(c: Controller) { !c.Down? && !InRestart(c) && !c.Idle? }

  /** The restart may write to this launch: it turns to it now, or is repairing it already. */
  predicate Turned(w: World, lid: LaunchId) {
    w.controller == Restarting || w.controller == Repairing(Owner(w.db, lid), Some(lid))
  }

  /** The repair under way has made its last write to the store, so that only its report is missing. */
  predicate Repaired(w: World) {
    && w.controller.Repairing?
    && (w.controller.launch.Some? ==>
          w.controller.launch.value in w.db.launches && Settled(w.db.launches[w.controller.launch.value].state))
  }

  /** The report that the repair under way ends with. */
  function DueReport(w: World): Report
    requires Repaired(w)
  {
    var lid := w.controller.launch;
    Report(|w.reports| + 1, w.controller.execution, lid,
           if lid.Some? then Some(w.db.launches[lid.value].state) else None)
  }

  /** The active execution of a working controller. */
  predicate HasActive(w: World) { Working(w.controller) && w.controller.id in w.db.executions }

  function Active(w: World): Execution
    requires HasActive(w)
  {
    w.db.executions[w.controller.id]
  }

  /** The launch of a terminal execution still waits to be settled. */
  predicate Awaits(db: Database, id: string) {
    && id in db.executions
    && (db.executions[id].status == Succeeded || db.executions[id].status == Failed)
    && db.executions[id].result.Some?
    && db.executions[id].launch.Some? && db.executions[id].launch.value in db.launches
    && var v, state := db.executions[id].result.value, db.launches[db.executions[id].launch.value].state;
       state != Desired(v.released, state) && LegalMove(state, Desired(v.released, state))
  }

  /** Every launch that the campaign may charge is charged. */
  predicate LimitReached(db: Database) {
    Known(db.launches, db.launchOrder) && |ChargesOf(db.launches, db.launchOrder)| >= db.maxLaunches
  }

  const RESEARCH_PURPOSE: string := "autonomous generated candidate execution"

  /** A launch as `begin_execution` of the research loop reserves it. */
  function WithResearchLaunch(db: Database, id: string, sources: nat, terms: Terms): Database {
    WithLaunch(db, CandidateLaunch(id), ResearchKey(id, sources), DiverseInnerScreen, DiverseInnerScreen, terms)
  }

  predicate Enabled(w: World, e: Event) {
    var db, c := w.db, w.controller;
    match e
    case Reserve(spec, q, remaining, reserve, terms) =>
      && c == Idle && spec.action == Train && spec.id !in db.executions && CandidateLaunch(spec.id) !in db.launches
      && ValidRequest(q) && q.Trains() && q.execution == spec.id && q.family == terms.purpose
      && Known(db.launches, db.launchOrder) && Rebuild(db).Success?
      && Admit(Rebuild(db).value, q, remaining, reserve).Allowed()
    case ReserveUnadmitted(id, _, terms) =>
      && c == Idle && Identifier(id) && CandidateLaunch(id) !in db.launches && terms.purpose == RESEARCH_PURPOSE
      && !LimitReached(db)
    case Create(spec) =>
      && c == Idle && spec.id !in db.executions
      && (spec.action == Train ==>
            CandidateLaunch(spec.id) in db.launches && db.launches[CandidateLaunch(spec.id)].state == Reserved)
    case Receipt(_) => c.Prepared? && HasActive(w) && Active(w).status == Starting
    case Begin =>
      && c.Receipted? && HasActive(w) && Active(w).receipt.Some? && Active(w).launch.Some?
      && Active(w).launch.value in db.launches && db.launches[Active(w).launch.value].state == Reserved
    case CommitReturns => c.Receipted? && HasActive(w) && Active(w).launch == None
    case Release => c.Committed?
    case Stop(v) =>
      && Working(c) && !c.Ended? && HasActive(w)
      && (v.released ==> c.id in w.released) && (v.succeeded ==> v.released)
      && (Active(w).receipt.Some? ==> v.process == Active(w).receipt)
    case EndExecution(validated, artifacts) =>
      && c.Ended? && HasActive(w) && Unfinished(Active(w).status) && (validated ==> c.verdict.succeeded)
      && Evidence(Active(w).spec.action, validated, c.verdict, artifacts)
    case EndLaunch => c.Ended? && Awaits(db, c.id) && Active(w).result == Some(c.verdict)
    case Leave => Working(c) || InRestart(c)
    case Rehydrate(id) => c == Idle && Awaits(db, id)
    case Crash => true
    case Reopen => c == Down
    case Restart => c == Down || c == Idle
    case Interrupt(id) => c == Restarting && id in db.executions && Unfinished(db.executions[id].status)
    case Doubt(lid) =>
      Turned(w, lid) && lid in db.launches && db.launches[lid].state == Reserved && Closable(db, lid)
    case Close(lid) =>
      && Turned(w, lid) && lid in db.launches && Closable(db, lid)
      && (db.launches[lid].state == Started || db.launches[lid].state == StartUncertain)
    case File => Repaired(w)
    case Resume => c == Restarting
    case Research(iterations, _) => c == Idle
  }

  function Settle(db: Database, id: string): Database
    requires Awaits(db, id)
  {
    var lid := db.executions[id].launch.value;
    WithState(db, lid, Desired(db.executions[id].result.value.released, db.launches[lid].state), None)
  }

  function Next(w: World, e: Event): World
    requires Enabled(w, e)
  {
    var db := w.db;
    match e
    case Reserve(spec, q, _, _, terms) =>
      w.(db := WithLaunch(db, CandidateLaunch(spec.id), KeyOf(spec), q.category.value, OriginalOf(q), terms))
    case ReserveUnadmitted(id, sources, terms) => w.(db := WithResearchLaunch(db, id, sources, terms))
    case Create(spec) => w.(db := WithExecution(db, spec), controller := Prepared(spec.id))
    case Receipt(process) =>
      w.(db := WithReceipt(db, w.controller.id, process), controller := Receipted(w.controller.id))
    case Begin =>
      w.(db := WithState(db, Active(w).launch.value, Started, Active(w).receipt),
         controller := Committed(w.controller.id))
    case CommitReturns => w.(controller := Committed(w.controller.id))
    case Release => w.(released := w.released + {w.controller.id}, controller := Supervising(w.controller.id))
    case Stop(v) => w.(controller := Ended(w.controller.id, v))
    case EndExecution(validated, artifacts) =>
      w.(db := WithEnd(db, w.controller.id, if validated then Succeeded else Failed, Some(w.controller.verdict),
                       artifacts))
    case EndLaunch => w.(db := Settle(db, w.controller.id))
    case Leave => w.(controller := Idle)
    case Rehydrate(id) => w.(db := Settle(db, id))
    case Crash => w.(controller := Down)
    case Reopen => w.(controller := Idle)
    case Restart => w.(controller := Restarting)
    case Interrupt(id) =>
      w.(db := WithEnd(db, id, Interrupted, None, map[]), controller := Repairing(Some(id), db.executions[id].launch))
    case Doubt(lid) =>
      w.(db := WithState(db, lid, StartUncertain, None), controller := Repairing(Owner(db, lid), Some(lid)))
    case Close(lid) =>
      w.(db := WithState(db, lid, Finished, None), controller := Repairing(Owner(db, lid), Some(lid)))
    case File => w.(reports := w.reports + [DueReport(w)], controller := Restarting)
    case Resume => w.(controller := Idle)
    case Research(iterations, incumbent) => w.(db := db.(iterations := iterations, incumbent := Some(incumbent)))
  }

  ghost predicate Step(w: World, w': World) { exists e :: Enabled(w, e) && w' == Next(w, e) }

  predicate Initial(w: World) {
    && w.controller == Idle && w.released == {} && w.reports == []
    && QUALIFICATION_LAUNCHES <= w.db.maxLaunches <= MAX_TRAINING_LAUNCHES
    && w.db.incumbent.Some?
    && (forall t | t in w.db.transfers :: ValidTransfer(t)) && NeverOverdrawn(w.db.transfers)
    && Limit(w.db.transfers, BaselineQualificationReplay) >= QUALIFICATION_LAUNCHES
    && w.db == Created(w.db.maxLaunches, w.db.transfers, w.db.incumbent.value)
  }

  /** A run: any number of steps from a created campaign. */
  ghost predicate IsRun(ws: seq<World>) {
    ws != [] && forall i | 0 <= i < |ws| :: Arises(ws, i)
  }

  ghost predicate Arises(ws: seq<World>, i: nat)
    requires i < |ws|
  {
    if i == 0 then Initial(ws[0]) else Step(ws[i-1], ws[i])
  }

  // ---------------------------------------------------------------- the invariant

  predicate LaunchOk(db: Database, released: set<string>, lid: LaunchId)
    requires lid in db.launches
  {
    var l := db.launches[lid];
    && l.charged == (l.state != NotStarted)
    && (l.state == Started ==> l.receipt.Some?)
    && Identifier(l.terms.purpose)
    && match lid {
         case Qualification(n) =>
           && 1 <= n <= 6 && l.key == QualificationKey(n) && l.state == Finished
           && l.category == QualificationImport && l.original == QualificationImport
         case CandidateLaunch(id) =>
           && Identifier(id) && !l.key.QualificationKey? && l.key.execution == id
           && l.category.Of? && l.original.Of? && Attributed(l)
           && (!Owned(db, lid) ==> l.state == Reserved || l.state == StartUncertain || l.state == Finished)
           && (Owned(db, lid) && id in released ==> l.state != Reserved && l.state != NotStarted)
           && (Owned(db, lid) && l.state == NotStarted ==> db.executions[id].status == Failed)
       }
  }

  predicate ExecutionOk(db: Database, released: set<string>, id: string)
    requires id in db.executions
  {
    var x := db.executions[id];
    && x.spec.id == id && x.launch == LaunchIdOf(x.spec)
    && (x.launch.Some? ==> x.launch.value in db.launches)
    && (x.status == Starting ==> x.receipt == None)
    && (x.status == Running ==> x.receipt.Some?)
    && (x.result.Some? <==> x.status == Succeeded || x.status == Failed)
    && (x.result.Some? ==> VerdictOk(released, id, x.result.value))
    && (x.status == Succeeded ==> x.result.value.succeeded)
    && (id in released ==> x.receipt.Some?)
  }

  /** A reported release did happen. (The converse can fail: the report may be cut short.) */
  predicate VerdictOk(released: set<string>, id: string, v: Verdict) {
    (v.released ==> id in released) && (v.succeeded ==> v.released)
  }

  predicate ActiveLaunchIn(w: World, state: LaunchState)
    requires HasActive(w)
  {
    Active(w).launch.Some? ==>
      Active(w).launch.value in w.db.launches && w.db.launches[Active(w).launch.value].state == state
  }

  predicate ControllerOk(w: World) {
    var c := w.controller;
    Working(c) ==>
      && HasActive(w)
      && match c {
           case Prepared(id) => Active(w).status == Starting && ActiveLaunchIn(w, Reserved)
           case Receipted(id) => Active(w).status == Running && id !in w.released && ActiveLaunchIn(w, Reserved)
           case Committed(id) => Active(w).status == Running && id !in w.released && ActiveLaunchIn(w, Started)
           case Supervising(id) => Active(w).status == Running && id in w.released && ActiveLaunchIn(w, Started)
           case Ended(id, v) =>
             && VerdictOk(w.released, id, v)
             && (Active(w).receipt.Some? ==> v.process == Active(w).receipt)
             && Active(w).status != Interrupted
             && (Active(w).result.Some? ==> Active(w).result == Some(v))
             && (Unfinished(Active(w).status) ==> ActiveLaunchIn(w, Reserved) || ActiveLaunchIn(w, Started))
           case _ => true
         }
  }

  predicate OrderOk(db: Database) {
    && Known(db.launches, db.launchOrder)
    && NoRepeats(db.launchOrder)
    && (forall lid | lid in db.launches :: lid in db.launchOrder)
    && QUALIFICATION_ORDER <= db.launchOrder
    && (forall k | 0 <= k < |db.launchOrder| :: db.launches[db.launchOrder[k]].number == k + 1)
  }

  predicate ExecutionOrderOk(db: Database) {
    && (forall id | id in db.executionOrder :: id in db.executions)
    && (forall id | id in db.executions :: id in db.executionOrder)
    && (forall i, j | 0 <= i < j < |db.executionOrder| :: db.executionOrder[i] != db.executionOrder[j])
  }

  /** The research loop, which asks for no admission, has reserved a launch. */
  predicate ResearchLaunched(db: Database) { exists lid | lid in db.launches :: db.launches[lid].key.ResearchKey? }

  /** Usage stays within every ceiling, but for the category of the research loop once that has launched. */
  predicate CeilingsKept(charges: seq<Charge>, transfers: seq<Transfer>, research: bool) {
    forall c: Category :: Used(charges, c) <= Limit(transfers, c) || (research && c == DiverseInnerScreen)
  }

  predicate BudgetOk(db: Database)
    requires Known(db.launches, db.launchOrder)
  {
    && QUALIFICATION_LAUNCHES <= db.maxLaunches <= MAX_TRAINING_LAUNCHES
    && (forall t | t in db.transfers :: ValidTransfer(t)) && NeverOverdrawn(db.transfers)
    && |ChargesOf(db.launches, db.launchOrder)| <= db.maxLaunches
    && CeilingsKept(ChargesOf(db.launches, db.launchOrder), db.transfers, ResearchLaunched(db))
  }

  predicate ReportsOk(reports: seq<Report>) { forall i | 0 <= i < |reports| :: reports[i].sequence == i + 1 }

  predicate AllLaunchesOk(db: Database, released: set<string>) {
    forall lid | lid in db.launches :: LaunchOk(db, released, lid)
  }

  predicate AllExecutionsOk(db: Database, released: set<string>) {
    forall id | id in db.executions :: ExecutionOk(db, released, id)
  }

  predicate Inv(w: World) {
    && OrderOk(w.db) && ExecutionOrderOk(w.db) && BudgetOk(w.db)
    && AllLaunchesOk(w.db, w.released) && AllExecutionsOk(w.db, w.released)
    && (forall id | id in w.released :: id in w.db.executions)
    && ControllerOk(w) && ReportsOk(w.reports) && w.db.incumbent.Some?
  }
}
