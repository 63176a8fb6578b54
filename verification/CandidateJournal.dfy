/** `CampaignStoreCandidateJournal` of src/kuairand_agent/campaign/candidate_journal.py, and the order in which
    src/kuairand_agent/execution/candidate_executor.py and execution/runner.py drive it. Every write may fail or
    be the last one of its process. */
module CandidateJournal {
  import opened Results
  import opened Budgets
  import opened CampaignDatabase
  import opened LedgerRebuild
  import opened CampaignProtocol
  import opened CampaignInvariant
  import opened CampaignSafety
  import opened CampaignStore

  datatype Policy = Policy(family: string, phase: WorkPhase, p95: real, cleanup: real, category: Option<Category>,
                           original: Option<Category>, repairChild: bool, experiment: Option<string>,
                           iteration: Option<nat>)

  /** `_request` */
  function RequestOf(policy: Policy, spec: Spec): Request {
    Request(spec.id, policy.family, if spec.action == Train then FullTrainEvaluate else CheckpointInferenceReplay,
            policy.phase, policy.p95, policy.cleanup, policy.category, policy.original, policy.repairChild)
  }

  function TermsOf(policy: Policy, spec: Spec): Terms {
    Terms(policy.family, policy.experiment, policy.iteration, spec.seed)
  }

  function ReserveEvent(policy: Policy, spec: Spec, remaining: real, reserve: real): Event {
    Reserve(spec, RequestOf(policy, spec), remaining, reserve, TermsOf(policy, spec))
  }

  /** How a call ended. `Raised` is a refused call or a failed write, `Inconsistent` the discovery that the durable
      records contradict each other; after `Dead` there is no process any more. */
  datatype Outcome = Done | Raised | Inconsistent | Dead

  datatype Preparation =
    | Ready
    | AlreadyTerminal(verdict: Verdict)
    | AlreadyActive
    | NotAdmitted(reason: Reason)
    | PrepareRaised
    | PrepareDead

  // ---------------------------------------------------------------- what a candidate leaves alone

  /** Only this candidate's own execution and launch may differ. */
  ghost predicate OnlyOf(db: Database, db': Database, id: string): (only: bool)
    ensures only
       <==> && db'.maxLaunches == db.maxLaunches && db'.transfers == db.transfers
            && db'.iterations == db.iterations && db'.incumbent == db.incumbent
            && (forall x | x != id && (x in db.executions || x in db'.executions) ::
                  x in db.executions && x in db'.executions && db'.executions[x] == db.executions[x])
            && (forall l | l != CandidateLaunch(id) && (l in db.launches || l in db'.launches) ::
                  l in db.launches && l in db'.launches && db'.launches[l] == db.launches[l])
  {
    && db'.maxLaunches == db.maxLaunches && db'.transfers == db.transfers
    && db'.iterations == db.iterations && db'.incumbent == db.incumbent
    && (forall x | x != id && (x in db.executions || x in db'.executions) ::
          x in db.executions && x in db'.executions && db'.executions[x] == db.executions[x])
    && (forall l | l != CandidateLaunch(id) && (l in db.launches || l in db'.launches) ::
          l in db.launches && l in db'.launches && db'.launches[l] == db.launches[l])
  }

  lemma OnlyItself(db: Database, id: string)
    ensures OnlyOf(db, db, id)
  {
  }

  lemma OnlyOfBoth(a: Database, b: Database, c: Database, id: string)
    requires OnlyOf(a, b, id) && OnlyOf(b, c, id)
    ensures OnlyOf(a, c, id)
  {
  }

  lemma LaunchOnly(db: Database, id: string, key: Key, category: Category, original: Category, terms: Terms)
    ensures OnlyOf(db, WithLaunch(db, CandidateLaunch(id), key, category, original, terms), id)
  {
  }

  lemma StateOnly(db: Database, id: string, to: LaunchState, receipt: Option<nat>)
    requires CandidateLaunch(id) in db.launches
    ensures OnlyOf(db, WithState(db, CandidateLaunch(id), to, receipt), id)
  {
  }

  lemma ExecutionOnly(db: Database, spec: Spec)
    ensures OnlyOf(db, WithExecution(db, spec), spec.id)
  {
  }

  lemma ReceiptOnly(db: Database, id: string, process: nat)
    requires id in db.executions
    ensures OnlyOf(db, WithReceipt(db, id, process), id)
  {
  }

  lemma EndOnly(db: Database, id: string, to: Status, result: Option<Verdict>, artifacts: Artifacts)
    requires id in db.executions
    ensures OnlyOf(db, WithEnd(db, id, to, result, artifacts), id)
  {
  }

  /** A transaction leaves the old database or the one it was to write. */
  lemma WroteOnly(w: World, w': World, e: Event, ack: Ack, next: Database, id: string)
    requires Wrote(w, w', e, ack) && Writes(w, e, next) && OnlyOf(w.db, next, id)
    ensures OnlyOf(w.db, w'.db, id) && w'.reports == w.reports
  {
    hide OnlyOf;
    OnlyItself(w.db, id);
  }

  /** How many launches the store has charged. */
  function Charged(db: Database): nat
    requires Known(db.launches, db.launchOrder)
  {
    |ChargesOf(db.launches, db.launchOrder)|
  }

  /** No more than n charges were added. */
  ghost predicate ChargesAtMost(w: World, w': World, n: nat) {
    && Known(w.db.launches, w.db.launchOrder) && Known(w'.db.launches, w'.db.launchOrder)
    && Charged(w'.db) <= Charged(w.db) + n
  }

  lemma SettleChargesNoMore(w: World, id: string)
    requires Inv(w) && Awaits(w.db, id)
    ensures Known(Settle(w.db, id).launches, w.db.launchOrder) && Charged(Settle(w.db, id)) <= Charged(w.db)
  {
    var db' := Settle(w.db, id);
    var lid := w.db.executions[id].launch.value;
    assert LaunchOk(w.db, w.released, lid);
    ChargesShrink(w.db.launches, db'.launches, w.db.launchOrder, RecoveryReserve);
  }

  /** A terminal training execution either has its launch settled or may settle it in one legal move. */
  lemma TerminalMaySettle(w: World, id: string)
    requires Inv(w) && id in w.db.executions && w.db.executions[id].spec.action == Train
    requires w.db.executions[id].status == Succeeded || w.db.executions[id].status == Failed
    ensures Trained(w, id) && w.db.executions[id].result.Some? && w.db.executions[id].launch == Some(CandidateLaunch(id))
    ensures var state := w.db.launches[CandidateLaunch(id)].state;
            var to := Desired(w.db.executions[id].result.value.released, state);
            && (state == to || Awaits(w.db, id))
            && (w.db.executions[id].result.value.released ==> state != Reserved && state != NotStarted)
  {
    assert ExecutionOk(w.db, w.released, id);
    assert LaunchOk(w.db, w.released, CandidateLaunch(id));
  }

  /** The launch of a finished candidate is FINISHED, or NOT_STARTED and then the candidate never ran. */
  predicate LaunchSettled(w: World, id: string) {
    Trained(w, id) ==> Settled(w.db.launches[CandidateLaunch(id)].state)
  }

  lemma LaunchOfExecution(w: World, id: string)
    requires Inv(w) && id in w.db.executions && w.db.executions[id].launch.Some?
    ensures w.db.executions[id].launch == Some(CandidateLaunch(id))
  {
    assert ExecutionOk(w.db, w.released, id);
  }

  /** The step by which a caller settles the launch of a terminal execution. */
  predicate SettleEvent(w: World, id: string, e: Event) {
    || (e == Rehydrate(id) && w.controller == Idle)
    || (e == EndLaunch && w.controller.Ended? && w.controller.id == id && id in w.db.executions
        && w.db.executions[id].result == Some(w.controller.verdict))
  }

  lemma SettleWrites(w: World, id: string, e: Event)
    requires Awaits(w.db, id) && SettleEvent(w, id, e)
    ensures Writes(w, e, Settle(w.db, id)) && Next(w, e) == w.(db := Settle(w.db, id))
  {
  }

  /** What settling may have changed: the state of that one launch, and the life of the process. */
  lemma SettleWrote(w: World, w': World, id: string, e: Event, ack: Ack)
    requires Inv(w) && Awaits(w.db, id) && SettleEvent(w, id, e) && Wrote(w, w', e, ack)
    ensures SameButLaunch(w, w', id)
    ensures w'.controller == if ack == Died then Down else w.controller
    ensures ack == Landed ==> LaunchSettled(w', id)
  {
    hide Inv, Enabled, Next, SettleEvent, SameButLaunch;
    SettleWrites(w, id, e);
    SettleSpares(w, id);
  }

  lemma SettleSpares(w: World, id: string)
    requires Inv(w) && Awaits(w.db, id)
    ensures var w' := w.(db := Settle(w.db, id));
            && SameButLaunch(w, w', id) && LaunchSettled(w', id)
            && SameButLaunch(w, w'.(controller := Down), id)
            && SameButLaunch(w, w, id) && SameButLaunch(w, w.(controller := Down), id)
  {
    hide Inv, OnlyOf, Charged, ChargesOf;
    SettleChargesNoMore(w, id);
    LaunchOfExecution(w, id);
    SettleOnly(w, id);
    OnlyItself(w.db, id);
    KnownLaunches(w);
  }

  lemma KnownLaunches(w: World)
    requires Inv(w)
    ensures Known(w.db.launches, w.db.launchOrder)
  {
  }

  lemma SettleOnly(w: World, id: string)
    requires Inv(w) && Awaits(w.db, id)
    ensures OnlyOf(w.db, Settle(w.db, id), id)
    ensures Trained(w.(db := Settle(w.db, id)), id) ==> Settled(Settle(w.db, id).launches[CandidateLaunch(id)].state)
  {
    hide OnlyOf;
    LaunchOfExecution(w, id);
    StateOnly(w.db, id, Desired(w.db.executions[id].result.value.released, w.db.launches[CandidateLaunch(id)].state), None);
  }

  /** Nothing but the state and charge of one launch differs, and no charge is added. */
  ghost predicate SameButLaunch(w: World, w': World, id: string) {
    && w'.db.executions == w.db.executions && w'.db.executionOrder == w.db.executionOrder
    && w'.db.launchOrder == w.db.launchOrder && w'.db.launches.Keys == w.db.launches.Keys
    && ChargesAtMost(w, w', 0)
    && (forall other | other in w.db.launches && other != CandidateLaunch(id) ::
          w'.db.launches[other] == w.db.launches[other])
    && w'.released == w.released && w'.reports == w.reports && w'.db.incumbent == w.db.incumbent
    && OnlyOf(w.db, w'.db, id)
  }

  // ---------------------------------------------------------------- the steps of prepare

  lemma ReserveWrites(w: World, policy: Policy, spec: Spec, remaining: real, reserve: real)
    requires Inv(w) && w.controller == Idle && spec.action == Train && spec.id !in w.db.executions
    requires CandidateLaunch(spec.id) !in w.db.launches && ValidRequest(RequestOf(policy, spec))
    requires Rebuild(w.db).Success? && Admit(Rebuild(w.db).value, RequestOf(policy, spec), remaining, reserve).Allowed()
    ensures var q := RequestOf(policy, spec);
            var next := WithLaunch(w.db, CandidateLaunch(spec.id), KeyOf(spec), q.category.value, OriginalOf(q),
                                   TermsOf(policy, spec));
            && Writes(w, ReserveEvent(policy, spec, remaining, reserve), next)
            && Next(w, ReserveEvent(policy, spec, remaining, reserve)) == w.(db := next)
  {
  }

  /** The ledger rebuilt from the store admits the request now. */
  ghost predicate Admissible(w: World, policy: Policy, spec: Spec, remaining: real, reserve: real) {
    && Known(w.db.launches, w.db.launchOrder) && Rebuild(w.db).Success?
    && Admit(Rebuild(w.db).value, RequestOf(policy, spec), remaining, reserve).Allowed()
  }

  /** The reason for which it does not. */
  ghost predicate RefusedFor(w: World, policy: Policy, spec: Spec, remaining: real, reserve: real, reason: Reason) {
    && Known(w.db.launches, w.db.launchOrder) && Rebuild(w.db).Success? && reason != Reason.Allowed
    && Admit(Rebuild(w.db).value, RequestOf(policy, spec), remaining, reserve).reason == reason
  }

  /** What admission asks of the policy's own times, and what its refusals say of them. */
  lemma AdmissionTimes(w: World, policy: Policy, spec: Spec, remaining: real, reserve: real)
    ensures Admissible(w, policy, spec, remaining, reserve) ==>
              && 0.0 < remaining && policy.p95 + policy.cleanup <= remaining
              && (policy.phase == WorkPhase.Research ==> reserve < remaining && policy.p95 + policy.cleanup + reserve <= remaining)
    ensures forall reason | RefusedFor(w, policy, spec, remaining, reserve, reason) ::
              && (reason == HardDeadline <==> remaining <= 0.0 || policy.p95 + policy.cleanup > remaining)
              && (reason == FinalizationReserve <==>
                    && 0.0 < remaining && policy.p95 + policy.cleanup <= remaining && policy.phase == WorkPhase.Research
                    && (remaining <= reserve || policy.p95 + policy.cleanup + reserve > remaining))
  {
  }

  ghost predicate Refusable(w: World, policy: Policy, spec: Spec, remaining: real, reserve: real) {
    && Known(w.db.launches, w.db.launchOrder) && Rebuild(w.db).Success?
    && !Admissible(w, policy, spec, remaining, reserve)
  }

  /** The candidate can be prepared: it is new, its request is well formed, and its launch either is reserved for just
      this request or need not or may be reserved now. */
  ghost predicate Startable(w: World, policy: Policy, spec: Spec, remaining: real, reserve: real) {
    && spec.id !in w.db.executions && ValidRequest(RequestOf(policy, spec))
    && if spec.action == Train && CandidateLaunch(spec.id) in w.db.launches then Reservable(w, policy, spec)
       else Admissible(w, policy, spec, remaining, reserve)
  }

  /** Everything but the launches is as it was, and nothing was charged beyond the one new launch. */
  ghost predicate OnlyReserved(w: World, w': World, spec: Spec) {
    && ChargesAtMost(w, w', if CandidateLaunch(spec.id) in w.db.launches then 0 else 1)
    && w'.db.executions == w.db.executions && w'.db.executionOrder == w.db.executionOrder
    && w'.released == w.released && w'.reports == w.reports && w'.db.incumbent == w.db.incumbent
    && (forall other | other in w.db.launches :: other in w'.db.launches && w'.db.launches[other] == w.db.launches[other])
    && OnlyOf(w.db, w'.db, spec.id)
  }

  lemma NothingReserved(w: World, spec: Spec)
    requires Inv(w)
    ensures OnlyReserved(w, w, spec)
  {
  }

  lemma AdmittedBelowLimit(w: World, policy: Policy, spec: Spec, remaining: real, reserve: real)
    requires spec.action == Train && ValidRequest(RequestOf(policy, spec))
    requires Admissible(w, policy, spec, remaining, reserve)
    ensures !LimitReached(w.db)
  {
  }

  lemma ReserveWrote(w: World, w': World, policy: Policy, spec: Spec, remaining: real, reserve: real, ack: Ack)
    requires Inv(w) && w.controller == Idle && spec.action == Train && spec.id !in w.db.executions
    requires CandidateLaunch(spec.id) !in w.db.launches && ValidRequest(RequestOf(policy, spec))
    requires Rebuild(w.db).Success? && Admit(Rebuild(w.db).value, RequestOf(policy, spec), remaining, reserve).Allowed()
    requires Wrote(w, w', ReserveEvent(policy, spec, remaining, reserve), ack)
    ensures OnlyReserved(w, w', spec)
    ensures w'.controller == if ack == Died then Down else Idle
    ensures ack == Landed ==> Reservable(w', policy, spec)
  {
    ReserveWrites(w, policy, spec, remaining, reserve);
    var q := RequestOf(policy, spec);
    LaunchAddsCharge(w.db, CandidateLaunch(spec.id), KeyOf(spec), q.category.value, OriginalOf(q), TermsOf(policy, spec));
    LaunchOnly(w.db, spec.id, KeyOf(spec), q.category.value, OriginalOf(q), TermsOf(policy, spec));
    OnlyItself(w.db, spec.id);
  }

  /** The stored launch is exactly the one this request would reserve, and still RESERVED. */
  predicate Reservable(w: World, policy: Policy, spec: Spec) {
    && CandidateLaunch(spec.id) in w.db.launches
    && policy.category.Some?
    && var l := w.db.launches[CandidateLaunch(spec.id)];
       && l.key == KeyOf(spec) && l.category == Of(policy.category.value)
       && l.original == Of(OriginalOf(RequestOf(policy, spec))) && l.terms == TermsOf(policy, spec)
       && l.state == Reserved && l.charged
  }

  /** It carries the policy's category and origin, its terms, and the seed and key of this request. */
  lemma ReservedTerms(w: World, policy: Policy, spec: Spec)
    requires Reservable(w, policy, spec) && spec.action == Train
    ensures CandidateLaunch(spec.id) in w.db.launches && policy.category.Some?
    ensures var l := w.db.launches[CandidateLaunch(spec.id)];
            && l.state == Reserved && l.charged && l.key == CandidateKey(Train, spec.id, spec.sources)
            && l.category == Of(policy.category.value)
            && l.original == Of(if policy.original.Some? then policy.original.value else policy.category.value)
            && l.terms.purpose == policy.family && l.terms.experiment == policy.experiment
            && l.terms.iteration == policy.iteration && l.terms.seed == spec.seed
  {
  }

  lemma CreateWrites(w: World, spec: Spec)
    requires w.controller == Idle && spec.id !in w.db.executions
    requires spec.action == Train ==>
               CandidateLaunch(spec.id) in w.db.launches && w.db.launches[CandidateLaunch(spec.id)].state == Reserved
    ensures Writes(w, Create(spec), WithExecution(w.db, spec))
    ensures Next(w, Create(spec)) == w.(db := WithExecution(w.db, spec), controller := Prepared(spec.id))
  {
  }

  /** A fresh STARTING execution that this process supervises, on a reserved and charged launch. */
  ghost predicate IsPrepared(w: World, w': World, spec: Spec) {
    && spec.id !in w.db.executions
    && w'.db.executions == w.db.executions[spec.id := FreshExecution(spec)]
    && w'.controller == Prepared(spec.id) && w'.released == w.released
    && (spec.action == Train ==>
          && CandidateLaunch(spec.id) in w'.db.launches
          && w'.db.launches[CandidateLaunch(spec.id)].key == KeyOf(spec)
          && w'.db.launches[CandidateLaunch(spec.id)].state == Reserved
          && w'.db.launches[CandidateLaunch(spec.id)].charged)
  }

  // ---------------------------------------------------------------- the steps of commit and finish

  lemma PreparedIsStarting(w: World, id: string)
    requires ControllerOk(w) && w.controller == Prepared(id)
    ensures HasActive(w) && w.db.executions[id].status == Starting
  {
  }

  lemma StartingHasNoReceipt(w: World, id: string)
    requires Inv(w) && id in w.db.executions && w.db.executions[id].status == Starting
    ensures w.db.executions[id].receipt == None
  {
    assert ExecutionOk(w.db, w.released, id);
  }

  lemma ReceiptWrites(w: World, id: string, process: nat)
    requires Inv(w) && w.controller == Prepared(id)
    ensures id in w.db.executions && w.db.executions[id].status == Starting
    ensures Writes(w, Receipt(process), WithReceipt(w.db, id, process))
    ensures Next(w, Receipt(process)) == w.(db := WithReceipt(w.db, id, process), controller := Receipted(id))
  {
    PreparedIsStarting(w, id) by {
      InvParts(w);
    }
    hide Inv;
  }

  lemma ReceiptedHasExecution(w: World, id: string)
    requires Inv(w) && w.controller == Receipted(id)
    ensures id in w.db.executions
  {
  }

  lemma NothingToBegin(w: World, id: string)
    requires Inv(w) && w.controller == Receipted(id) && id in w.db.executions && w.db.executions[id].launch == None
    ensures Enabled(w, CommitReturns) && Next(w, CommitReturns) == w.(controller := Committed(id))
  {
  }

  lemma BeginWrites(w: World, id: string)
    requires Inv(w) && w.controller == Receipted(id) && w.db.executions[id].launch.Some?
    ensures var x := w.db.executions[id];
            && x.launch.value in w.db.launches && w.db.launches[x.launch.value].state == Reserved && x.receipt.Some?
            && Writes(w, Begin, WithState(w.db, x.launch.value, Started, x.receipt))
            && Next(w, Begin)
               == w.(db := WithState(w.db, x.launch.value, Started, x.receipt), controller := Committed(id))
  {
    assert ExecutionOk(w.db, w.released, id);
  }

  /** Supervising the process so far: the record carries its receipt or none yet, and nothing is released. */
  ghost predicate Underway(w: World, w': World, id: string, process: nat) {
    && id in w'.db.executions && w'.released == w.released && Unfinished(w'.db.executions[id].status)
    && (w'.db.executions[id].receipt == None || w'.db.executions[id].receipt == Some(process))
    && id in w.db.executions && w'.db.executions[id].spec == w.db.executions[id].spec
  }

  lemma StopMoves(w: World, id: string, v: Verdict)
    requires Inv(w) && Working(w.controller) && !w.controller.Ended? && w.controller.id == id
    requires id in w.db.executions && VerdictOk(w.released, id, v)
    requires w.db.executions[id].receipt.Some? ==> v.process == w.db.executions[id].receipt
    ensures Enabled(w, Stop(v)) && Next(w, Stop(v)) == w.(controller := Ended(id, v))
  {
  }

  lemma ReleaseMoves(w: World, id: string)
    requires w.controller == Committed(id)
    ensures Enabled(w, Release)
    ensures Next(w, Release) == w.(released := w.released + {id}, controller := Supervising(id))
  {
  }

  lemma EndWrites(w: World, id: string, v: Verdict, validated: bool, artifacts: Artifacts)
    requires Inv(w) && w.controller == Ended(id, v) && Unfinished(w.db.executions[id].status)
    requires (validated ==> v.succeeded) && Evidence(w.db.executions[id].spec.action, validated, v, artifacts)
    ensures var next := WithEnd(w.db, id, if validated then Succeeded else Failed, Some(v), artifacts);
            && Writes(w, EndExecution(validated, artifacts), next)
            && Next(w, EndExecution(validated, artifacts)) == w.(db := next)
  {
    EndExecutionIs(w, EndExecution(validated, artifacts));
  }

  /** The runner's verdict agrees with the records, so none of the integrity checks of `finish` can fire. */
  lemma EndedConsistent(w: World, id: string, v: Verdict)
    requires Inv(w) && w.controller == Ended(id, v)
    ensures id in w.db.executions && w.db.executions[id].status != Interrupted
    ensures v.succeeded ==> v.released
    ensures v.released ==> w.db.executions[id].receipt.Some?
    ensures w.db.executions[id].receipt.Some? ==> v.process == w.db.executions[id].receipt
    ensures w.db.executions[id].launch == LaunchIdOf(w.db.executions[id].spec)
    ensures !Unfinished(w.db.executions[id].status) ==> w.db.executions[id].result == Some(v)
  {
    assert ExecutionOk(w.db, w.released, id);
  }

  /** A terminal execution with everything that `finish` stored about it. */
  predicate Restored(db: Database, id: string) {
    && id in db.executions && db.executions[id].result.Some?
    && Evidence(db.executions[id].spec.action, db.executions[id].status == Succeeded, db.executions[id].result.value,
                db.executions[id].artifacts)
  }

  /** Whatever happened since, a terminal record still holds the artifacts it was ended with. */
  lemma TerminalIsEvident(store: CampaignStore, id: string)
    requires store.Valid() && id in store.db.executions
    requires store.db.executions[id].status == Succeeded || store.db.executions[id].status == Failed
    ensures Restored(store.db, id)
    ensures store.db.executions[id].status == Succeeded ==> store.db.executions[id].result.value.succeeded
    ensures store.db.executions[id].launch == LaunchIdOf(store.db.executions[id].spec)
  {
    store.Reachable();
    assert ExecutionOk(store.db, store.released, id);
    RunsKeepEvidence(store.trace, |store.trace| - 1, id);
  }

  /** Only a training execution has a launch to settle. */
  lemma PredictionIsSettled(store: CampaignStore, id: string)
    requires store.Valid() && id in store.db.executions && store.db.executions[id].spec.action == Predict
    ensures LaunchSettled(store.Now(), id)
  {
    store.Reachable();
    assert ExecutionOk(store.db, store.released, id);
  }

  class CandidateJournal {
    const store: CampaignStore
    const policy: Policy
    const remaining: real
    const reserve: real
    var prepared: Option<string>

    constructor (store: CampaignStore, policy: Policy, remaining: real, reserve: real)
      ensures this.store == store && this.policy == policy && this.remaining == remaining && this.reserve == reserve
      ensures prepared == None
    {
      this.store, this.policy, this.remaining, this.reserve := store, policy, remaining, reserve;
      prepared := None;
    }

    /** The last part of `rehydrate_terminal` and of `finish`: one launch move at most, and never an
        inconsistency to report. */
    method SettleLaunch(id: string, ghost e: Event) returns (r: Outcome)
      requires store.Valid() && id in store.db.executions && store.db.executions[id].spec.action == Train
      requires store.db.executions[id].status == Succeeded || store.db.executions[id].status == Failed
      requires SettleEvent(store.Now(), id, e)
      modifies store
      ensures store.Valid() && old(store.trace) <= store.trace
      ensures SameButLaunch(old(store.Now()), store.Now(), id)
      ensures store.controller == if r == Dead then Down else old(store.controller)
      ensures r == Done ==> LaunchSettled(store.Now(), id) && CandidateLaunch(id) in old(store.db.launches)
      ensures r == Done ==>
                store.db.launches[CandidateLaunch(id)].state
                == if old(store.db.launches)[CandidateLaunch(id)].state in {Reserved, NotStarted} then NotStarted
                   else Finished
      ensures old(LaunchSettled(store.Now(), id)) ==> r == Done && store.Now() == old(store.Now())
      ensures r != Inconsistent
      ensures store.faults == old(store.faults) + if r == Done then 0 else 1
    {
      store.Reachable();
      TerminalMaySettle(store.Now(), id);
      var lid := CandidateLaunch(id);
      var state := store.db.launches[lid].state;
      var released := store.db.executions[id].result.value.released;
      if released && (state == Reserved || state == NotStarted) {
        return Inconsistent;
      }
      var to := Desired(released, state);
      if state == to {
        return Done;
      }
      SettleWrites(store.Now(), id, e);
      ghost var before := store.Now();
      var ack := store.TransitionLaunch(lid, to, None, true, e);
      SettleWrote(before, store.Now(), id, e, ack);
      r := if ack == Landed then Done else if ack == Died then Dead else Raised;
    }

    /** `rehydrate_terminal`: restore a terminal execution with its artifacts and settle the launch that an earlier
        crash or failed write left open. It can only fail on an absent or active execution, on an artifact that no
        longer verifies (`intact`), or on the write itself; none of its integrity checks fires. */
    method RehydrateTerminal(id: string, intact: bool) returns (r: Outcome)
      requires store.Valid() && store.controller == Idle
      modifies store
      ensures store.Valid() && old(store.trace) <= store.trace
      ensures SameButLaunch(old(store.Now()), store.Now(), id)
      ensures store.controller == if r == Dead then Down else Idle
      ensures r == Done ==> Restored(store.db, id) && LaunchSettled(store.Now(), id)
      ensures r != Inconsistent && (!intact ==> r == Raised && store.Now() == old(store.Now()))
      ensures store.faults >= old(store.faults)
      ensures store.faults == old(store.faults) ==>
                r == if id in old(store.db.executions) && old(store.db.executions)[id].status in {Succeeded, Failed} && intact
                     then Done else Raised
    {
      store.Reachable();
      if id !in store.db.executions {
        return Raised;
      }
      var record := store.db.executions[id];
      if record.status != Succeeded && record.status != Failed {
        return Raised;
      }
      if !intact {
        return Raised;
      }
      TerminalIsEvident(store, id);
      if !RolesOk(record.spec.action, record.status == Succeeded, record.artifacts.Keys) {
        return Inconsistent;
      }
      var manifest := record.artifacts[ExecutionManifest].content;
      if !manifest.ResultOf? || Some(manifest.result) != record.result
         || (record.status == Succeeded && !manifest.result.succeeded) {
        return Inconsistent;
      }
      if record.spec.action == Predict {
        if record.launch.Some? {
          return Inconsistent;
        }
        return Done;
      }
      r := SettleLaunch(id, Rehydrate(id));
    }

    /** A reservation is made only after the rebuilt ledger admits the request. */
    method ReserveNew(spec: Spec) returns (r: Preparation)
      requires store.Valid() && store.controller == Idle && spec.action == Train && spec.id !in store.db.executions
      requires ValidRequest(RequestOf(policy, spec)) && CandidateLaunch(spec.id) !in store.db.launches
      modifies store
      ensures store.Valid() && old(store.trace) <= store.trace
      ensures OnlyReserved(old(store.Now()), store.Now(), spec)
      ensures store.controller == if r == PrepareDead then Down else Idle
      ensures r == Ready ==>
                && Reservable(store.Now(), policy, spec)
                && Admissible(old(store.Now()), policy, spec, remaining, reserve)
      ensures r == Ready || r == PrepareDead || r == PrepareRaised || r.NotAdmitted?
      ensures r.NotAdmitted? ==>
                store.Now() == old(store.Now()) && RefusedFor(store.Now(), policy, spec, remaining, reserve, r.reason)
      ensures r.NotAdmitted? <==> Refusable(old(store.Now()), policy, spec, remaining, reserve)
      ensures store.faults >= old(store.faults) && (r == PrepareDead ==> store.faults > old(store.faults))
      ensures store.faults == old(store.faults) ==>
                (r == Ready <==> Admissible(old(store.Now()), policy, spec, remaining, reserve))
    {
      hide IsRun, Enabled, Next, ChargesOf, Wrote, Logged, OnlyReserved;
      store.Reachable();
      var q := RequestOf(policy, spec);
      ghost var before := store.Now();
      NothingReserved(before, spec);
      var ledger := Reconstruct(store.db);
      if ledger.Failure? {
        return PrepareRaised;
      }
      var admission := Admit(ledger.value, q, remaining, reserve);
      if !admission.Allowed() {
        return NotAdmitted(admission.reason);
      }
      ReserveWrites(before, policy, spec, remaining, reserve);
      AdmittedBelowLimit(before, policy, spec, remaining, reserve);
      var ack := store.ReserveLaunch(spec.id, KeyOf(spec), q.category.value, OriginalOf(q), TermsOf(policy, spec),
                                     ReserveEvent(policy, spec, remaining, reserve));
      ReserveWrote(before, store.Now(), policy, spec, remaining, reserve, ack);
      r := if ack == Landed then Ready else if ack == Died then PrepareDead else PrepareRaised;
    }

    /** The reservation half of `prepare` for a training candidate. */
    method ReserveFor(spec: Spec) returns (r: Preparation)
      requires store.Valid() && store.controller == Idle && spec.action == Train && spec.id !in store.db.executions
      requires ValidRequest(RequestOf(policy, spec))
      modifies store
      ensures store.Valid() && old(store.trace) <= store.trace
      ensures OnlyReserved(old(store.Now()), store.Now(), spec)
      ensures store.controller == if r == PrepareDead then Down else Idle
      ensures r == Ready ==> Reservable(store.Now(), policy, spec)
      ensures r == Ready || r == PrepareDead || r == PrepareRaised || r.NotAdmitted?
      ensures r == Ready && old(CandidateLaunch(spec.id) !in store.db.launches) ==>
                Admissible(old(store.Now()), policy, spec, remaining, reserve)
      ensures r == Ready && old(CandidateLaunch(spec.id) in store.db.launches) ==>
                Reservable(old(store.Now()), policy, spec)
      ensures r.NotAdmitted? ==>
                store.Now() == old(store.Now()) && RefusedFor(store.Now(), policy, spec, remaining, reserve, r.reason)
      ensures r.NotAdmitted? <==>
                && old(CandidateLaunch(spec.id) !in store.db.launches)
                && Refusable(old(store.Now()), policy, spec, remaining, reserve)
      ensures store.faults >= old(store.faults) && (r == PrepareDead ==> store.faults > old(store.faults))
      ensures store.faults == old(store.faults) ==>
                (r == Ready <==> if old(CandidateLaunch(spec.id) in store.db.launches)
                                 then Reservable(old(store.Now()), policy, spec)
                                 else Admissible(old(store.Now()), policy, spec, remaining, reserve))
    {
      hide IsRun, Enabled, Next, ChargesOf, Admissible, Refusable, RefusedFor, OnlyReserved;
      if CandidateLaunch(spec.id) !in store.db.launches {
        r := ReserveNew(spec);
      } else {
        store.Reachable();
        NothingReserved(store.Now(), spec);
        var q := RequestOf(policy, spec);
        var stored := store.db.launches[CandidateLaunch(spec.id)];
        if stored.key != KeyOf(spec) || stored.category != Of(q.category.value) || stored.original != Of(OriginalOf(q))
           || stored.terms != TermsOf(policy, spec) {
          return PrepareRaised;
        }
        if stored.state != Reserved || !stored.charged {
          return PrepareRaised;
        }
        var ack := store.ReserveLaunch(spec.id, KeyOf(spec), q.category.value, OriginalOf(q), TermsOf(policy, spec),
                                       Crash);
        r := if ack == Landed then Ready else PrepareRaised;
      }
    }

    /** `create_execution` for a reserved (or launch-free) request. */
    method CreateFor(spec: Spec) returns (r: Preparation)
      requires store.Valid() && store.controller == Idle && spec.id !in store.db.executions
      requires spec.action == Train ==> Reservable(store.Now(), policy, spec)
      modifies this, store
      ensures store.Valid() && old(store.trace) <= store.trace
      ensures r == Ready || r == PrepareDead || r == PrepareRaised
      ensures store.db.launches == old(store.db.launches) && store.db.launchOrder == old(store.db.launchOrder)
      ensures ChargesAtMost(old(store.Now()), store.Now(), 0)
      ensures store.released == old(store.released)
      ensures r == Ready ==> IsPrepared(old(store.Now()), store.Now(), spec) && prepared == Some(spec.id)
      ensures r != Ready ==> prepared == old(prepared) && store.controller == if r == PrepareDead then Down else Idle
      ensures store.db.executions == old(store.db.executions)
           || store.db.executions
              == old(store.db.executions)[spec.id := FreshExecution(spec)]
      ensures store.faults == old(store.faults) + if r == Ready then 0 else 1
      ensures OnlyOf(old(store.db), store.db, spec.id) && store.reports == old(store.reports)
    {
      hide IsRun, ChargesOf, OnlyOf;
      store.Reachable();
      CreateWrites(store.Now(), spec);
      ExecutionOnly(store.db, spec);
      ghost var before := store.Now();
      var ack := store.CreateExecution(spec, Create(spec));
      WroteOnly(before, store.Now(), Create(spec), ack, WithExecution(before.db, spec), spec.id);
      if ack == Landed {
        prepared := Some(spec.id);
        return Ready;
      }
      if ack == Died {
        return PrepareDead;
      }
      if ack == Lost {
        store.Move(Leave);
      }
      return PrepareRaised;
    }

    /** `prepare` for an execution id that already has a row: never a new charge. */
    method PrepareAgain(spec: Spec, intact: bool) returns (r: Preparation)
      requires store.Valid() && store.controller == Idle && spec.id in store.db.executions
      modifies store
      ensures store.Valid() && old(store.trace) <= store.trace
      ensures SameButLaunch(old(store.Now()), store.Now(), spec.id)
      ensures store.controller == if r == PrepareDead then Down else Idle
      ensures r.AlreadyTerminal? || r == AlreadyActive || r == PrepareRaised || r == PrepareDead
      ensures r == AlreadyActive ==> store.Now() == old(store.Now())
      ensures r.AlreadyTerminal? ==>
                && old(store.db.executions)[spec.id].spec == spec
                && old(store.db.executions)[spec.id].result == Some(r.verdict) && LaunchSettled(store.Now(), spec.id)
      ensures r == AlreadyActive <==>
                && old(store.db.executions)[spec.id].spec == spec
                && old(store.db.executions)[spec.id].status !in {Succeeded, Failed}
      ensures store.faults >= old(store.faults)
      ensures store.faults == old(store.faults) ==> r != PrepareDead
      ensures store.faults == old(store.faults) ==>
                (r.AlreadyTerminal? <==>
                   && old(store.db.executions)[spec.id].spec == spec && intact
                   && old(store.db.executions)[spec.id].status in {Succeeded, Failed})
    {
      store.Reachable();
      assert ExecutionOk(store.db, store.released, spec.id);
      var record := store.db.executions[spec.id];
      if record.spec != spec || record.launch != LaunchIdOf(spec) {
        return PrepareRaised;
      }
      if record.status == Succeeded || record.status == Failed {
        TerminalIsEvident(store, spec.id);
        var done := RehydrateTerminal(spec.id, intact);
        r := if done == Done then AlreadyTerminal(record.result.value)
             else if done == Dead then PrepareDead else PrepareRaised;
        return;
      }
      return AlreadyActive;
    }

    /** The admission of a prediction, which reserves nothing. */
    method AdmitPrediction(spec: Spec) returns (r: Preparation)
      requires store.Valid()
      ensures r == Ready || r == PrepareRaised || r.NotAdmitted?
      ensures r.NotAdmitted? ==> RefusedFor(store.Now(), policy, spec, remaining, reserve, r.reason)
      ensures r == Ready <==> Admissible(store.Now(), policy, spec, remaining, reserve)
      ensures r.NotAdmitted? <==> Refusable(store.Now(), policy, spec, remaining, reserve)
    {
      store.Reachable();
      var ledger := Reconstruct(store.db);
      if ledger.Failure? {
        return PrepareRaised;
      }
      var admission := Admit(ledger.value, RequestOf(policy, spec), remaining, reserve);
      r := if admission.Allowed() then Ready else NotAdmitted(admission.reason);
    }

    /** `prepare`. However often it is called, and wherever its process dies, it charges a launch at most once per
        execution: a retry that finds the reservation of an earlier attempt charges nothing. */
    method Prepare(spec: Spec, intact: bool) returns (r: Preparation)
      requires store.Valid() && store.controller == Idle
      modifies this, store
      ensures store.Valid() && old(store.trace) <= store.trace
      ensures r == Ready ==> IsPrepared(old(store.Now()), store.Now(), spec) && prepared == Some(spec.id)
      ensures r != Ready ==> prepared == old(prepared) && store.controller == if r == PrepareDead then Down else Idle
      ensures ChargesAtMost(old(store.Now()), store.Now(),
                            if old(CandidateLaunch(spec.id) in store.db.launches) then 0 else 1)
      ensures r == Ready ==>
                && spec.id in store.db.executions
                && var x := store.db.executions[spec.id];
                   && x.spec == spec && x.status == Starting && x.receipt == None && x.result == None && x.artifacts == map[]
                   && x.launch == if spec.action == Train then Some(CandidateLaunch(spec.id)) else None
      ensures r == Ready && spec.action == Train ==>
                && CandidateLaunch(spec.id) in store.db.launches && policy.category.Some?
                && var l := store.db.launches[CandidateLaunch(spec.id)];
                   && l.state == Reserved && l.charged && l.key == CandidateKey(Train, spec.id, spec.sources)
                   && l.category == Of(policy.category.value)
                   && l.original == Of(if policy.original.Some? then policy.original.value else policy.category.value)
                   && l.terms.purpose == policy.family && l.terms.experiment == policy.experiment
                   && l.terms.iteration == policy.iteration && l.terms.seed == spec.seed
      ensures r == Ready && (spec.action == Predict || old(CandidateLaunch(spec.id) !in store.db.launches)) ==>
                && 0.0 < remaining && policy.p95 + policy.cleanup <= remaining
                && (policy.phase == WorkPhase.Research ==>
                      reserve < remaining && policy.p95 + policy.cleanup + reserve <= remaining)
      ensures r.NotAdmitted? ==>
                && (r.reason == HardDeadline <==> remaining <= 0.0 || policy.p95 + policy.cleanup > remaining)
                && (r.reason == FinalizationReserve <==>
                      && 0.0 < remaining && policy.p95 + policy.cleanup <= remaining && policy.phase == WorkPhase.Research
                      && (remaining <= reserve || policy.p95 + policy.cleanup + reserve > remaining))
      ensures store.faults >= old(store.faults)
      ensures r == Ready ==> Startable(old(store.Now()), policy, spec, remaining, reserve)
      ensures store.faults == old(store.faults) ==>
                (Startable(old(store.Now()), policy, spec, remaining, reserve) <==> r == Ready) && r != PrepareDead
      ensures r.NotAdmitted? ==>
                store.Now() == old(store.Now()) && RefusedFor(store.Now(), policy, spec, remaining, reserve, r.reason)
      ensures r.NotAdmitted? <==>
                && spec.id !in old(store.db.executions) && ValidRequest(RequestOf(policy, spec))
                && (spec.action == Predict || old(CandidateLaunch(spec.id) !in store.db.launches))
                && Refusable(old(store.Now()), policy, spec, remaining, reserve)
      ensures r.AlreadyTerminal? ==>
                && spec.id in old(store.db.executions) && old(store.db.executions)[spec.id].spec == spec
                && old(store.db.executions)[spec.id].result == Some(r.verdict) && LaunchSettled(store.Now(), spec.id)
      ensures r == AlreadyActive ==> store.Now() == old(store.Now())
      ensures r == AlreadyActive <==>
                && spec.id in old(store.db.executions) && old(store.db.executions)[spec.id].spec == spec
                && old(store.db.executions)[spec.id].status !in {Succeeded, Failed}
      ensures store.faults == old(store.faults) ==>
                (r.AlreadyTerminal? <==>
                   && spec.id in old(store.db.executions) && old(store.db.executions)[spec.id].spec == spec
                   && old(store.db.executions)[spec.id].status in {Succeeded, Failed} && intact)
      ensures store.released == old(store.released)
      ensures OnlyOf(old(store.db), store.db, spec.id) && store.reports == old(store.reports)
    {
      hide IsRun, Enabled, Next, Rebuild, ChargesOf, RequestOf, Admit, ValidRequest, Admissible, RefusedFor, Refusable,
        Reservable, Charged, Inv, OnlyOf;
      OnlyItself(store.db, spec.id);
      store.Reachable();
      if spec.id in store.db.executions {
        r := PrepareAgain(spec, intact);
        return;
      }
      AdmissionTimes(store.Now(), policy, spec, remaining, reserve);
      NothingReserved(store.Now(), spec);
      if !ValidRequest(RequestOf(policy, spec)) {
        return PrepareRaised;
      }
      if spec.action == Train {
        r := ReserveFor(spec);
      } else {
        r := AdmitPrediction(spec);
      }
      if r == Ready {
        if spec.action == Train {
          ReservedTerms(store.Now(), policy, spec);
        }
        ghost var reserved := store.db;
        r := CreateFor(spec);
        OnlyOfBoth(old(store.db), reserved, store.db, spec.id);
      }
    }

    /** `commit`: the RUNNING receipt first, then STARTED; only after both does it return normally. */
    method Commit(id: string, process: nat) returns (r: Outcome)
      requires store.Valid() && store.controller == Prepared(id)
      modifies store
      ensures store.Valid() && old(store.trace) <= store.trace && Underway(old(store.Now()), store.Now(), id, process)
      ensures r == Dead <==> store.controller == Down
      ensures r == Done ==> prepared == Some(id) && store.controller == Committed(id)
      ensures r == Done || r == Raised || r == Dead
      ensures r == Raised ==>
                store.controller == Prepared(id) || store.controller == Receipted(id) || store.controller == Committed(id)
      ensures store.faults >= old(store.faults)
      ensures store.faults == old(store.faults) ==> r == if prepared == Some(id) then Done else Raised
      ensures OnlyOf(old(store.db), store.db, id) && store.reports == old(store.reports)
    {
      hide Inv, IsRun, Enabled, Next, OnlyOf;
      store.Reachable();
      ghost var before := store.Now();
      OnlyItself(before.db, id);
      ReceiptWrites(before, id, process);
      StartingHasNoReceipt(before, id);
      if prepared != Some(id) || id !in store.db.executions || !Unfinished(store.db.executions[id].status) {
        return Raised;
      }
      ReceiptOnly(before.db, id, process);
      var ack := store.ReceiptExecution(id, process, Receipt(process));
      WroteOnly(before, store.Now(), Receipt(process), ack, WithReceipt(before.db, id, process), id);
      if ack != Landed {
        return if ack == Died then Dead else Raised;
      }
      ghost var between := store.db;
      r := StartLaunch(id);
      OnlyOfBoth(before.db, between, store.db, id);
    }

    /** The second half of `commit`. */
    method StartLaunch(id: string) returns (r: Outcome)
      requires store.Valid() && store.controller == Receipted(id)
      modifies store
      ensures store.Valid() && old(store.trace) <= store.trace
      ensures store.db.executions == old(store.db.executions) && store.released == old(store.released)
      ensures r == Done ==> store.controller == Committed(id)
      ensures r == Raised ==> store.controller == Receipted(id) || store.controller == Committed(id)
      ensures r == Dead <==> store.controller == Down
      ensures r == Done || r == Raised || r == Dead
      ensures store.faults == old(store.faults) + if r == Done then 0 else 1
      ensures OnlyOf(old(store.db), store.db, id) && store.reports == old(store.reports)
    {
      hide Inv, IsRun, Enabled, Next, OnlyOf;
      store.Reachable();
      ghost var before := store.Now();
      OnlyItself(before.db, id);
      ReceiptedHasExecution(before, id);
      if store.db.executions[id].launch == None {
        NothingToBegin(before, id);
        store.Move(CommitReturns);
        return Done;
      }
      BeginWrites(before, id);
      var record := store.db.executions[id];
      LaunchOfExecution(before, id);
      StateOnly(before.db, id, Started, record.receipt);
      var ack := store.TransitionLaunch(record.launch.value, Started, record.receipt, true, Begin);
      WroteOnly(before, store.Now(), Begin, ack, WithState(before.db, record.launch.value, Started, record.receipt), id);
      r := if ack == Landed then Done else if ack == Died then Dead else Raised;
    }

    /** The first write of `finish`, or the check that an earlier call made it. */
    method EndRecord(id: string, v: Verdict, validated: bool, artifacts: Artifacts) returns (r: Outcome)
      requires store.Valid() && store.controller == Ended(id, v) && (validated ==> v.succeeded)
      requires id in store.db.executions && Evidence(store.db.executions[id].spec.action, validated, v, artifacts)
      modifies store
      ensures store.Valid() && old(store.trace) <= store.trace && store.released == old(store.released)
      ensures store.controller == if r == Dead then Down else Ended(id, v)
      ensures r != Inconsistent
      ensures id in old(store.db.executions) && id in store.db.executions
      ensures store.db.executions[id].spec == old(store.db.executions)[id].spec
      ensures r == Done ==>
                && store.db.executions[id].result == Some(v) && store.db.executions[id].artifacts == artifacts
                && store.db.executions[id].status == if validated then Succeeded else Failed
      ensures store.faults >= old(store.faults)
      ensures store.faults == old(store.faults) ==>
                (r == Done <==>
                   var x := old(store.db.executions)[id];
                   || Unfinished(x.status)
                   || (x.status == (if validated then Succeeded else Failed) && x.result == Some(v)
                       && x.artifacts == artifacts))
      ensures store.faults == old(store.faults) ==> r == Done || r == Raised
      ensures store.db.launches == old(store.db.launches)
      ensures OnlyOf(old(store.db), store.db, id) && store.reports == old(store.reports)
    {
      hide Inv, IsRun, Enabled, Next, Evidence, OnlyOf;
      ghost var before := store.Now();
      OnlyItself(before.db, id);
      store.Reachable();
      EndedConsistent(store.Now(), id, v);
      var record := store.db.executions[id];
      var terminal := if validated then Succeeded else Failed;
      if record.status == Succeeded || record.status == Failed {
        return if record.status != terminal || record.result != Some(v) || record.artifacts != artifacts then Raised
               else Done;
      }
      if !Unfinished(record.status) {
        return Inconsistent;
      }
      EndWrites(store.Now(), id, v, validated, artifacts);
      EndOnly(before.db, id, terminal, Some(v), artifacts);
      var ack := store.EndExecution(id, record.status, terminal, Some(v), artifacts, true,
                                    EndExecution(validated, artifacts));
      WroteOnly(before, store.Now(), EndExecution(validated, artifacts), ack,
                WithEnd(before.db, id, terminal, Some(v), artifacts), id);
      r := if ack == Landed then Done else if ack == Died then Dead else Raised;
    }

    /** The checks of `finish` before its first write. */
    method CheckResult(action: Action, v: Verdict, artifacts: Artifacts, validated: bool, id: string, intact: bool)
      returns (r: Outcome)
      requires store.Valid() && store.controller == Ended(id, v)
      ensures r == Done || r == Raised
      ensures r == Done <==>
                && id in store.db.executions && store.db.executions[id].spec.action == action
                && (validated ==> v.succeeded) && Evidence(action, validated, v, artifacts) && intact
    {
      store.Reachable();
      EndedConsistent(store.Now(), id, v);
      var record := store.db.executions[id];
      if record.spec.action != action || (validated && !v.succeeded) {
        return Raised;
      }
      if (action == Train) != record.launch.Some? || (v.succeeded && !v.released) || (v.released && record.receipt == None)
         || (record.receipt.Some? && v.process != record.receipt) {
        return Inconsistent;
      }
      r := if Evidence(action, validated, v, artifacts) && intact then Done else Raised;
    }

    /** `finish`: check the runner's artifacts, end the execution with them, then settle its launch. A second call
        after a failed one resumes where the first stopped; the integrity checks on the records never fire, and
        artifacts outside the frozen closure, or that no longer verify, change nothing. */
    method Finish(action: Action, v: Verdict, artifacts: Artifacts, validated: bool, id: string, intact: bool)
      returns (r: Outcome)
      requires store.Valid() && store.controller == Ended(id, v)
      modifies this, store
      ensures store.Valid() && old(store.trace) <= store.trace && store.released == old(store.released)
      ensures store.controller == if r == Dead then Down else Ended(id, v)
      ensures r != Inconsistent
      ensures !Evidence(action, validated, v, artifacts) || !intact ==> r == Raised && store.Now() == old(store.Now())
      ensures r == Done ==>
                && prepared == None && id in store.db.executions && store.db.executions[id].result == Some(v)
                && store.db.executions[id].status == (if validated then Succeeded else Failed)
                && store.db.executions[id].artifacts == artifacts && LaunchSettled(store.Now(), id)
                && id in old(store.db.executions) && store.db.executions[id].spec == old(store.db.executions)[id].spec
      ensures r == Done && action == Train ==>
                && CandidateLaunch(id) in old(store.db.launches) && CandidateLaunch(id) in store.db.launches
                && store.db.launches[CandidateLaunch(id)].state
                   == if old(store.db.launches)[CandidateLaunch(id)].state in {Reserved, NotStarted} then NotStarted
                      else Finished
      ensures store.faults >= old(store.faults)
      ensures store.faults == old(store.faults) ==>
                (r == Done <==>
                   && id in old(store.db.executions) && old(store.db.executions)[id].spec.action == action
                   && (validated ==> v.succeeded) && Evidence(action, validated, v, artifacts) && intact
                   && var x := old(store.db.executions)[id];
                      || Unfinished(x.status)
                      || (x.status == (if validated then Succeeded else Failed) && x.result == Some(v)
                          && x.artifacts == artifacts))
      ensures store.faults == old(store.faults) ==> r == Done || r == Raised
      ensures OnlyOf(old(store.db), store.db, id) && store.reports == old(store.reports)
      ensures r != Done ==> prepared == old(prepared)
    {
      hide OnlyOf;
      OnlyItself(store.db, id);
      r := CheckResult(action, v, artifacts, validated, id, intact);
      if r != Done {
        return;
      }
      r := EndRecord(id, v, validated, artifacts);
      if r == Done && action == Train {
        ghost var between := store.db;
        r := SettleLaunch(id, EndLaunch);
        OnlyOfBoth(old(store.db), between, store.db, id);
      }
      if r == Done {
        if action == Predict {
          PredictionIsSettled(store, id);
        }
        prepared := None;
      }
    }
  }

  /** What becomes of one process: whether its launcher is spawned at all, still lives when it may be let go, and
      whether its release is heard of; then how the candidate ends, and what is retained of it. */
  datatype Conduct = Conduct(spawned: bool, alive: bool, heard: bool, succeeded: bool, stdout: nat, stderr: nat,
                             rest: nat)

  /** The records of a candidate between its commit and `finish`. */
  ghost predicate RanTo(db: Database, id: string, started: bool) {
    && id in db.executions && Unfinished(db.executions[id].status)
    && (db.executions[id].spec.action == Train ==>
          && CandidateLaunch(id) in db.launches
          && db.launches[CandidateLaunch(id)].state == if started then Started else Reserved)
  }

  /** A launch is STARTED exactly when the commit of its receipt has returned. */
  lemma SupervisedRan(store: CampaignStore, id: string)
    requires store.Valid()
    requires store.controller == Prepared(id) || store.controller == Receipted(id) || store.controller == Committed(id)
    ensures RanTo(store.db, id, store.controller == Committed(id))
  {
    store.Reachable();
    assert ExecutionOk(store.db, store.released, id);
  }

  /** The launcher is spawned and waits for its release line while the receipt is committed. */
  method BlockedLaunch(journal: CandidateJournal, id: string, process: nat, spawned: bool)
    returns (c: Outcome, started: Option<nat>)
    requires journal.store.Valid() && journal.store.controller == Prepared(id)
    modifies journal.store
    ensures journal.store.Valid() && old(journal.store.trace) <= journal.store.trace
    ensures Underway(old(journal.store.Now()), journal.store.Now(), id, process)
    ensures c == Dead <==> journal.store.controller == Down
    ensures c == Done ==> journal.store.controller == Committed(id)
    ensures c == Done || c == Raised || c == Dead
    ensures c == Raised ==>
              || journal.store.controller == Prepared(id) || journal.store.controller == Receipted(id)
              || journal.store.controller == Committed(id)
    ensures journal.store.db.executions[id].receipt.Some? ==> started == journal.store.db.executions[id].receipt
    ensures started == if spawned then Some(process) else None
    ensures !spawned ==> c == Raised && journal.store.Now() == old(journal.store.Now())
    ensures journal.store.faults >= old(journal.store.faults)
    ensures journal.store.faults == old(journal.store.faults) ==>
              (c == Done <==> spawned && journal.prepared == Some(id)) && c != Dead
    ensures c != Dead ==> RanTo(journal.store.db, id, journal.store.controller == Committed(id))
    ensures OnlyOf(old(journal.store.db), journal.store.db, id) && journal.store.reports == old(journal.store.reports)
  {
    hide OnlyOf;
    OnlyItself(journal.store.db, id);
    journal.store.Reachable();
    assert ExecutionOk(journal.store.db, journal.store.released, id);
    if !spawned {
      SupervisedRan(journal.store, id);
      return Raised, None;
    }
    c := journal.Commit(id, process);
    started := Some(process);
    if c != Dead {
      SupervisedRan(journal.store, id);
    }
  }

  /** The verdict of a process that was, or was not, let go. */
  ghost method Conclude(store: CampaignStore, id: string, v: Verdict)
    requires store.Valid() && Working(store.controller) && !store.controller.Ended? && store.controller.id == id
    requires id in store.db.executions && VerdictOk(store.released, id, v)
    requires store.db.executions[id].receipt.Some? ==> v.process == store.db.executions[id].receipt
    modifies store
    ensures store.Valid() && store.trace == old(store.trace) + [store.Now()]
    ensures store.controller == Ended(id, v) && store.released == old(store.released)
    ensures store.db == old(store.db) && store.reports == old(store.reports) && store.faults == old(store.faults)
  {
    store.Reachable();
    StopMoves(store.Now(), id, v);
    store.Move(Stop(v));
  }

  /** The end of the process, unless that of its supervisor comes first. */
  method Await(store: CampaignStore, id: string, verdict: Verdict) returns (v: Option<Verdict>)
    requires store.Valid() && Working(store.controller) && !store.controller.Ended? && store.controller.id == id
    requires id in store.db.executions && VerdictOk(store.released, id, verdict)
    requires store.db.executions[id].receipt.Some? ==> verdict.process == store.db.executions[id].receipt
    modifies store
    ensures store.Valid() && old(store.trace) <= store.trace
    ensures store.db == old(store.db) && store.reports == old(store.reports) && store.released == old(store.released)
    ensures v == None ==> store.controller == Down && store.faults == old(store.faults) + 1
    ensures v.Some? ==> v.value == verdict && store.controller == Ended(id, verdict) && store.faults == old(store.faults)
  {
    if * {
      store.Die();
      return None;
    }
    Conclude(store, id, verdict);
    return Some(verdict);
  }

  /** The release line written to a committed launcher. */
  method LetGo(store: CampaignStore, id: string)
    requires store.Valid() && store.controller == Committed(id)
    modifies store
    ensures store.Valid() && store.trace == old(store.trace) + [store.Now()]
    ensures store.Now() == old(store.Now()).(released := old(store.released) + {id}, controller := Supervising(id))
    ensures store.faults == old(store.faults)
  {
    ReleaseMoves(store.Now(), id);
    store.Move(Release);
  }

  /** Step k of the history lets the candidate go, out of the state that a normally returning commit leaves. */
  ghost predicate LetGoAt(trace: seq<World>, k: nat, id: string) {
    && k + 1 < |trace| && trace[k].controller == Committed(id) && id !in trace[k].released
    && trace[k+1] == trace[k].(released := trace[k].released + {id}, controller := Supervising(id))
  }

  lemma LetGoStays(trace: seq<World>, later: seq<World>, k: nat, id: string)
    requires trace <= later
    ensures LetGoAt(trace, k, id) ==> LetGoAt(later, k, id)
  {
  }

  /** The release line is written only after a normal return of the callback, to a launcher that still lives. A late
      interrupt may hide the release from the runner's report, never invent one. */
  method ReleaseIfCommitted(store: CampaignStore, id: string, c: Outcome, alive: bool, heard: bool)
    returns (reported: bool)
    requires store.Valid() && Working(store.controller) && !store.controller.Ended? && store.controller.id == id
    requires (c == Done ==> store.controller == Committed(id)) && id !in store.released
    modifies store
    ensures store.Valid() && old(store.trace) <= store.trace
    ensures store.db == old(store.db) && store.reports == old(store.reports)
    ensures Working(store.controller) && !store.controller.Ended? && store.controller.id == id
    ensures old(store.released) <= store.released <= old(store.released) + {id}
    ensures reported ==> id in store.released
    ensures id in store.released ==> LetGoAt(store.trace, |old(store.trace)| - 1, id)
    ensures reported == (c == Done && alive && heard)
    ensures id in store.released <==> c == Done && alive
    ensures store.faults == old(store.faults)
  {
    reported := false;
    if c == Done && alive {
      LetGo(store, id);
      reported := heard;
    }
  }

  lemma NotReleasedYet(store: CampaignStore, id: string)
    requires store.Valid() && store.controller == Prepared(id)
    ensures id !in store.released
  {
    store.Reachable();
    assert ExecutionOk(store.db, store.released, id);
  }

  /** `Runner.run` as far as the journal sees it: the candidate is released only after the commit callback has
      returned, and every other way out is a verdict that reports no release. None is a dead process. Without a
      fault the process alone decides: a candidate whose launcher is spawned and lives is let go. */
  method Run(journal: CandidateJournal, id: string, process: nat, conduct: Conduct) returns (v: Option<Verdict>)
    requires journal.store.Valid() && journal.store.controller == Prepared(id)
    modifies journal.store
    ensures journal.store.Valid() && old(journal.store.trace) <= journal.store.trace
    ensures v == None ==> journal.store.controller == Down
    ensures v.Some? ==> journal.store.controller == Ended(id, v.value)
    ensures old(journal.store.released) <= journal.store.released <= old(journal.store.released) + {id}
    ensures v.Some? && v.value.released ==> id in journal.store.released
    ensures id !in old(journal.store.released)
    ensures id in journal.store.released ==>
              exists k :: |old(journal.store.trace)| <= k && LetGoAt(journal.store.trace, k, id)
    ensures id in journal.store.released ==> conduct.spawned && conduct.alive
    ensures v.Some? ==>
              && (v.value.succeeded <==> v.value.released && conduct.succeeded)
              && (v.value.released ==> conduct.spawned && conduct.alive && conduct.heard)
              && v.value.process == (if conduct.spawned then Some(process) else None)
              && v.value.stdout == conduct.stdout && v.value.stderr == conduct.stderr && v.value.rest == conduct.rest
              && id in old(journal.store.db.executions) && id in journal.store.db.executions
              && journal.store.db.executions[id].spec == old(journal.store.db.executions)[id].spec
              && (RanTo(journal.store.db, id, true) || RanTo(journal.store.db, id, false))
    ensures journal.store.faults >= old(journal.store.faults)
    ensures journal.store.faults == old(journal.store.faults) && journal.prepared == Some(id) ==>
              && v.Some? && RanTo(journal.store.db, id, conduct.spawned)
              && (id in journal.store.released <==> conduct.spawned && conduct.alive)
              && (v.value.released <==> conduct.spawned && conduct.alive && conduct.heard)
    ensures OnlyOf(old(journal.store.db), journal.store.db, id) && journal.store.reports == old(journal.store.reports)
  {
    hide Inv, IsRun, Enabled, Next, LetGoAt, RanTo, OnlyOf;
    var store := journal.store;
    NotReleasedYet(store, id);
    var c, started := BlockedLaunch(journal, id, process, conduct.spawned);
    if c == Dead {
      return None;
    }
    ghost var k := |store.trace| - 1;
    var released := ReleaseIfCommitted(store, id, c, conduct.alive, conduct.heard);
    ghost var trace := store.trace;
    v := Await(store, id, Verdict(released && conduct.succeeded, released, started, conduct.stdout, conduct.stderr,
                                  conduct.rest));
    LetGoStays(trace, store.trace, k, id);
  }

  datatype Attempt = Completed(verdict: Verdict) | NotRun(reason: Preparation) | CutShort | Unsettled

  /** `_base_artifacts` */
  function BaseArtifacts(v: Verdict): Artifacts {
    map[ExecutionManifest := Artifact(ManifestKind, ResultOf(v)), Stdout := Artifact(LogKind, Bytes(v.stdout)),
        Stderr := Artifact(LogKind, Bytes(v.stderr))]
  }

  /** The artifacts with which the executor ends a run: the outputs of a validated one, or a diagnostic, and the
      receipt of the workspace's removal. */
  function BuiltArtifacts(action: Action, validated: bool, v: Verdict, output: nat, manifest: nat, cleanup: nat)
    : Artifacts
  {
    BaseArtifacts(v)
    + (if !validated then map[FailureDiagnostic := Artifact(LogKind, Bytes(output))]
       else if action == Train then map[Checkpoint := Artifact(CheckpointKind, Bytes(output)),
                                        CandidateResult := Artifact(ManifestKind, Bytes(manifest))]
       else map[Prediction := Artifact(PredictionKind, Bytes(output)),
                PredictionResult := Artifact(ManifestKind, Bytes(manifest))])
    + map[WorkspaceCleanup := Artifact(ManifestKind, Bytes(cleanup))]
  }

  /** What the executor builds always is what `finish` accepts. */
  lemma BuiltIsEvidence(action: Action, validated: bool, v: Verdict, output: nat, manifest: nat, cleanup: nat)
    ensures Evidence(action, validated, v, BuiltArtifacts(action, validated, v, output, manifest, cleanup))
  {
    BuiltRoles(action, validated, v, output, manifest, cleanup);
    BuiltKinds(action, validated, v, output, manifest, cleanup);
  }

  lemma BuiltKinds(action: Action, validated: bool, v: Verdict, output: nat, manifest: nat, cleanup: nat)
    ensures var artifacts := BuiltArtifacts(action, validated, v, output, manifest, cleanup);
            && (forall role | role in artifacts :: artifacts[role].kind == KindOf(role))
            && Holds(artifacts, ExecutionManifest, ResultOf(v))
            && Holds(artifacts, Stdout, Bytes(v.stdout)) && Holds(artifacts, Stderr, Bytes(v.stderr))
  {
  }

  lemma BuiltRoles(action: Action, validated: bool, v: Verdict, output: nat, manifest: nat, cleanup: nat)
    ensures RolesOk(action, validated, BuiltArtifacts(action, validated, v, output, manifest, cleanup).Keys)
  {
    var roles := BuiltArtifacts(action, validated, v, output, manifest, cleanup).Keys;
    assert roles == BASE_ROLES + {WorkspaceCleanup} + if validated then OutputRoles(action) else {FailureDiagnostic};
  }

  /** The artifacts put into the store after the process has ended; their digests are whatever the bytes give. */
  method Build(action: Action, validated: bool, v: Verdict) returns (artifacts: Artifacts)
    ensures Evidence(action, validated, v, artifacts)
    ensures Checkpoint in artifacts <==> validated && action == Train
    ensures CandidateResult in artifacts <==> validated && action == Train
    ensures Prediction in artifacts <==> validated && action == Predict
    ensures PredictionResult in artifacts <==> validated && action == Predict
    ensures FailureDiagnostic in artifacts <==> !validated
  {
    var output: nat, manifest: nat, cleanup: nat := *, *, *;
    artifacts := BuiltArtifacts(action, validated, v, output, manifest, cleanup);
    BuiltIsEvidence(action, validated, v, output, manifest, cleanup);
  }

  /** The executor is through with a candidate. */
  ghost method Depart(store: CampaignStore)
    requires store.Valid() && store.controller.Ended?
    modifies store
    ensures store.Valid() && old(store.trace) <= store.trace
    ensures store.Now() == old(store.Now()).(controller := Idle) && store.faults == old(store.faults)
  {
    store.Move(Leave);
  }

  /** The executor's part after a successful preparation. */
  method RunPrepared(journal: CandidateJournal, spec: Spec, process: nat, conduct: Conduct, validated: bool, intact: bool)
    returns (r: Attempt)
    requires journal.store.Valid() && journal.store.controller == Prepared(spec.id) && journal.prepared == Some(spec.id)
    requires spec.id in journal.store.db.executions && journal.store.db.executions[spec.id].spec == spec
    modifies journal, journal.store
    ensures journal.store.Valid() && old(journal.store.trace) <= journal.store.trace
    ensures journal.store.controller == Idle || journal.store.controller == Down
    ensures !r.NotRun?
    ensures r.Completed? ==>
              && spec.id in journal.store.db.executions
              && var x := journal.store.db.executions[spec.id];
                 && x.spec == spec && x.result == Some(r.verdict) && LaunchSettled(journal.store.Now(), spec.id)
                 && x.status == (if validated && r.verdict.succeeded then Succeeded else Failed)
                 && (FailureDiagnostic in x.artifacts <==> x.status == Failed)
                 && (Checkpoint in x.artifacts <==> x.status == Succeeded && spec.action == Train)
                 && (CandidateResult in x.artifacts <==> x.status == Succeeded && spec.action == Train)
                 && (Prediction in x.artifacts <==> x.status == Succeeded && spec.action == Predict)
                 && (PredictionResult in x.artifacts <==> x.status == Succeeded && spec.action == Predict)
    ensures journal.store.faults >= old(journal.store.faults)
    ensures journal.store.faults == old(journal.store.faults) ==>
              r == if intact then
                     var released := conduct.spawned && conduct.alive && conduct.heard;
                     Completed(Verdict(released && conduct.succeeded, released,
                                       if conduct.spawned then Some(process) else None, conduct.stdout, conduct.stderr,
                                       conduct.rest))
                   else Unsettled
    ensures journal.store.faults == old(journal.store.faults) && r.Completed? && spec.action == Train ==>
              && CandidateLaunch(spec.id) in journal.store.db.launches
              && journal.store.db.launches[CandidateLaunch(spec.id)].state
                 == if conduct.spawned then Finished else NotStarted
    ensures OnlyOf(old(journal.store.db), journal.store.db, spec.id)
    ensures journal.store.reports == old(journal.store.reports)
  {
    hide Inv, IsRun, Evidence, ChargesAtMost, LetGoAt, Enabled, Next, OnlyOf;
    var store := journal.store;
    ghost var before := store.db;
    var v := Run(journal, spec.id, process, conduct);
    ghost var ran := store.db;
    if v == None {
      return CutShort;
    }
    var success := validated && v.value.succeeded;
    var artifacts := Build(spec.action, success, v.value);
    var done := journal.Finish(spec.action, v.value, artifacts, success, spec.id, intact);
    OnlyOfBoth(before, ran, store.db, spec.id);
    if done == Dead {
      return CutShort;
    }
    Depart(store);
    r := if done == Done then Completed(v.value) else Unsettled;
  }

  /** One candidate execution from start to end, as the executor drives it. `validated` is what the executor finds
      of the outputs and of the workspace's removal. A completed attempt is recorded as SUCCEEDED exactly if the run
      succeeded and validated, with the outputs of its action or with a diagnostic. Without a fault an attempt that
      may start is completed, and its process alone decides whether its launch stays charged. */
  method Execute(journal: CandidateJournal, spec: Spec, process: nat, conduct: Conduct, validated: bool, intact: bool)
    returns (r: Attempt)
    requires journal.store.Valid() && journal.store.controller == Idle
    modifies journal, journal.store
    ensures journal.store.Valid() && old(journal.store.trace) <= journal.store.trace
    ensures journal.store.controller == Idle || journal.store.controller == Down
    ensures r.Completed? ==>
              && spec.id in journal.store.db.executions
              && var x := journal.store.db.executions[spec.id];
                 && x.spec == spec && x.result == Some(r.verdict) && LaunchSettled(journal.store.Now(), spec.id)
                 && x.status == (if validated && r.verdict.succeeded then Succeeded else Failed)
                 && (FailureDiagnostic in x.artifacts <==> x.status == Failed)
                 && (Checkpoint in x.artifacts <==> x.status == Succeeded && spec.action == Train)
                 && (CandidateResult in x.artifacts <==> x.status == Succeeded && spec.action == Train)
                 && (Prediction in x.artifacts <==> x.status == Succeeded && spec.action == Predict)
                 && (PredictionResult in x.artifacts <==> x.status == Succeeded && spec.action == Predict)
    ensures r.NotRun? ==> journal.store.released == old(journal.store.released)
    ensures r.Completed? ==> Startable(old(journal.store.Now()), journal.policy, spec, journal.remaining, journal.reserve)
    ensures journal.store.faults >= old(journal.store.faults)
    ensures journal.store.faults == old(journal.store.faults)
            && Startable(old(journal.store.Now()), journal.policy, spec, journal.remaining, journal.reserve)
            ==> r == if intact then
                       var released := conduct.spawned && conduct.alive && conduct.heard;
                       Completed(Verdict(released && conduct.succeeded, released,
                                         if conduct.spawned then Some(process) else None, conduct.stdout,
                                         conduct.stderr, conduct.rest))
                     else Unsettled
    ensures journal.store.faults == old(journal.store.faults)
            && !Startable(old(journal.store.Now()), journal.policy, spec, journal.remaining, journal.reserve)
            ==> r.NotRun?
    ensures journal.store.faults == old(journal.store.faults) && r.Completed? && spec.action == Train ==>
              && CandidateLaunch(spec.id) in journal.store.db.launches
              && journal.store.db.launches[CandidateLaunch(spec.id)].state
                 == if conduct.spawned then Finished else NotStarted
    ensures OnlyOf(old(journal.store.db), journal.store.db, spec.id)
    ensures journal.store.reports == old(journal.store.reports)
  {
    hide Inv, IsRun, Startable, Evidence, RefusedFor, Refusable, ValidRequest, ChargesAtMost, Admissible, LetGoAt,
      Enabled, Next, OnlyOf;
    var store := journal.store;
    ghost var before := store.db;
    var ready := journal.Prepare(spec, intact);
    if ready != Ready {
      return NotRun(ready);
    }
    ghost var readied := store.db;
    r := RunPrepared(journal, spec, process, conduct, validated, intact);
    OnlyOfBoth(before, readied, store.db, spec.id);
  }
}
