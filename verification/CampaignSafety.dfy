/** What the launch protocol promises over whole runs, crashes included. */
module CampaignSafety {
  import opened Results
  import opened Budgets
  import opened CampaignDatabase
  import opened LedgerRebuild
  import opened CampaignProtocol
  import opened CampaignInvariant

  /** The launch states still possible after a state. */
  predicate Reaches(s: LaunchState, t: LaunchState) {
    match s
    case Reserved => true
    case Started => t == Started || t == StartUncertain || t == Finished
    case StartUncertain => t == StartUncertain || t == Finished
    case Finished => t == Finished
    case NotStarted => t == NotStarted
  }

  predicate SameLaunch(a: Launch, b: Launch) {
    a.number == b.number && a.key == b.key && a.category == b.category && a.original == b.original && a.terms == b.terms
  }

  /** Records are never dropped or renamed: launches and executions keep their identity, order and number. */
  predicate LaunchesGrow(db: Database, db': Database) {
    && db.launchOrder <= db'.launchOrder
    && forall lid | lid in db.launches ::
         && lid in db'.launches && SameLaunch(db.launches[lid], db'.launches[lid])
         && Reaches(db.launches[lid].state, db'.launches[lid].state)
  }

  predicate StatusReaches(s: Status, t: Status) {
    match s
    case Starting => true
    case Running => t != Starting
    case _ => t == s
  }

  predicate ExecutionsGrow(db: Database, db': Database) {
    && db.executionOrder <= db'.executionOrder
    && forall id | id in db.executions ::
         && id in db'.executions && db'.executions[id].spec == db.executions[id].spec
         && db'.executions[id].launch == db.executions[id].launch
         && StatusReaches(db.executions[id].status, db'.executions[id].status)
         && (db.executions[id].result.Some? ==> db'.executions[id].result == db.executions[id].result)
  }

  predicate Later(w: World, w': World) {
    && LaunchesGrow(w.db, w'.db) && ExecutionsGrow(w.db, w'.db)
    && w.released <= w'.released && w.reports <= w'.reports
    && w'.db.maxLaunches == w.db.maxLaunches && w'.db.transfers == w.db.transfers
  }

  lemma LaterTransitive(a: World, b: World, c: World)
    requires Later(a, b) && Later(b, c)
    ensures Later(a, c)
  {
    LaunchesTransitive(a.db, b.db, c.db);
    ExecutionsTransitive(a.db, b.db, c.db);
  }

  lemma LaunchesTransitive(a: Database, b: Database, c: Database)
    requires LaunchesGrow(a, b) && LaunchesGrow(b, c)
    ensures LaunchesGrow(a, c)
  {
    forall lid | lid in a.launches
      ensures lid in c.launches && SameLaunch(a.launches[lid], c.launches[lid])
      ensures Reaches(a.launches[lid].state, c.launches[lid].state)
    {
      assert lid in b.launches;
    }
  }

  lemma ExecutionsTransitive(a: Database, b: Database, c: Database)
    requires ExecutionsGrow(a, b) && ExecutionsGrow(b, c)
    ensures ExecutionsGrow(a, c)
  {
    forall id | id in a.executions
      ensures id in c.executions && c.executions[id].spec == a.executions[id].spec
      ensures c.executions[id].launch == a.executions[id].launch
      ensures StatusReaches(a.executions[id].status, c.executions[id].status)
      ensures a.executions[id].result.Some? ==> c.executions[id].result == a.executions[id].result
    {
      assert id in b.executions;
    }
  }

  lemma MoveGrows(db: Database, lid: LaunchId, to: LaunchState, receipt: Option<nat>)
    requires lid in db.launches && LegalMove(db.launches[lid].state, to)
    ensures LaunchesGrow(db, WithState(db, lid, to, receipt)) && ExecutionsGrow(db, WithState(db, lid, to, receipt))
  {
  }

  lemma EditGrows(db: Database, id: string, x: Execution)
    requires id in db.executions && Unfinished(db.executions[id].status) && db.executions[id].result == None
    requires x.spec == db.executions[id].spec && x.launch == db.executions[id].launch
    requires StatusReaches(db.executions[id].status, x.status)
    ensures var db' := db.(executions := db.executions[id := x]); LaunchesGrow(db, db') && ExecutionsGrow(db, db')
  {
  }

  predicate MovesLegally(db: Database, db': Database, lid: LaunchId)
    requires lid in db.launches
  {
    && lid in db'.launches
    && (db'.launches[lid].state == db.launches[lid].state
        || LegalMove(db.launches[lid].state, db'.launches[lid].state))
  }

  predicate Progress(w: World, w': World) {
    Later(w, w') && forall lid | lid in w.db.launches :: MovesLegally(w.db, w'.db, lid)
  }

  lemma ReserveGrows(db: Database, lid: LaunchId, key: Key, category: Category, original: Category, terms: Terms)
    requires lid !in db.launches
    ensures var db' := WithLaunch(db, lid, key, category, original, terms);
            && LaunchesGrow(db, db') && ExecutionsGrow(db, db')
            && forall other | other in db.launches :: MovesLegally(db, db', other)
  {
  }

  lemma ReserveProgress(w: World, e: Event)
    requires Enabled(w, e) && e.Reserve?
    ensures Progress(w, Next(w, e))
  {
    ReserveGrows(w.db, CandidateLaunch(e.spec.id), KeyOf(e.spec), e.request.category.value, OriginalOf(e.request), e.terms);
  }

  lemma UnadmittedProgress(w: World, e: Event)
    requires Enabled(w, e) && e.ReserveUnadmitted?
    ensures Progress(w, Next(w, e))
  {
    ReserveGrows(w.db, CandidateLaunch(e.id), ResearchKey(e.id, e.sources), DiverseInnerScreen, DiverseInnerScreen,
                 e.terms);
  }

  lemma CreateProgress(w: World, e: Event)
    requires Enabled(w, e) && e.Create?
    ensures Progress(w, Next(w, e))
  {
    CreateIs(w, e);
    CreateGrows(w.db, e.spec);
  }

  lemma CreateGrows(db: Database, spec: Spec)
    requires spec.id !in db.executions
    ensures LaunchesGrow(db, WithExecution(db, spec)) && ExecutionsGrow(db, WithExecution(db, spec))
  {
  }

  lemma SameRecords(db: Database, db': Database)
    requires db'.launches == db.launches && db'.launchOrder == db.launchOrder
    requires db'.executions == db.executions && db'.executionOrder == db.executionOrder
    ensures LaunchesGrow(db, db') && ExecutionsGrow(db, db')
  {
  }

  lemma VolatileProgress(w: World, e: Event)
    requires Enabled(w, e)
    requires e.CommitReturns? || e.Release? || e.Stop? || e.Leave? || e.Crash? || e.Reopen? || e.Restart?
             || e.File? || e.Resume? || e.Research?
    ensures Progress(w, Next(w, e))
  {
    SameRecords(w.db, Next(w, e).db);
  }

  lemma MoveProgress(w: World, e: Event, lid: LaunchId, to: LaunchState, receipt: Option<nat>)
    requires Enabled(w, e) && lid in w.db.launches && LegalMove(w.db.launches[lid].state, to)
    requires Next(w, e).db == WithState(w.db, lid, to, receipt)
    requires Next(w, e).released == w.released && Next(w, e).reports == w.reports
    ensures Progress(w, Next(w, e))
  {
    MoveGrows(w.db, lid, to, receipt);
  }

  lemma SettleProgress(w: World, e: Event, id: string)
    requires Enabled(w, e) && Awaits(w.db, id) && Next(w, e).db == Settle(w.db, id)
    requires Next(w, e).released == w.released && Next(w, e).reports == w.reports
    ensures Progress(w, Next(w, e))
  {
    var lid := w.db.executions[id].launch.value;
    MoveProgress(w, e, lid, Desired(w.db.executions[id].result.value.released, w.db.launches[lid].state), None);
  }

  lemma UnfinishedHasNoResult(w: World, id: string)
    requires Inv(w) && id in w.db.executions && Unfinished(w.db.executions[id].status)
    ensures w.db.executions[id].result == None
  {
    assert ExecutionOk(w.db, w.released, id);
  }

  lemma EditProgress(w: World, w': World, id: string, x: Execution)
    requires id in w.db.executions && Unfinished(w.db.executions[id].status) && w.db.executions[id].result == None
    requires x.spec == w.db.executions[id].spec && x.launch == w.db.executions[id].launch
    requires StatusReaches(w.db.executions[id].status, x.status)
    requires w'.db == w.db.(executions := w.db.executions[id := x])
    requires w'.released == w.released && w'.reports == w.reports
    ensures Progress(w, w')
  {
    EditGrows(w.db, id, x);
  }

  lemma ReceiptProgress(w: World, e: Event)
    requires Inv(w) && Enabled(w, e) && e.Receipt?
    ensures Progress(w, Next(w, e))
  {
    ReceiptIs(w, e);
    UnfinishedHasNoResult(w, w.controller.id);
    EditProgress(w, Next(w, e), w.controller.id, Active(w).(status := Running, receipt := Some(e.process)));
  }

  lemma EndExecutionProgress(w: World, e: Event)
    requires Inv(w) && Enabled(w, e) && e.EndExecution?
    ensures Progress(w, Next(w, e))
  {
    EndExecutionIs(w, e);
    UnfinishedHasNoResult(w, w.controller.id);
    EditProgress(w, Next(w, e), w.controller.id,
                 Active(w).(status := if e.validated then Succeeded else Failed,
                            result := Some(w.controller.verdict), artifacts := e.artifacts));
  }

  lemma InterruptProgress(w: World, e: Event)
    requires Inv(w) && Enabled(w, e) && e.Interrupt?
    ensures Progress(w, Next(w, e))
  {
    InterruptIs(w, e);
    UnfinishedHasNoResult(w, e.id);
    EditProgress(w, Next(w, e), e.id,
                 w.db.executions[e.id].(status := Interrupted, result := None, artifacts := map[]));
  }

  /** Every launch move of every step is one of the store's legal transitions, and records only grow. */
  lemma StepProgress(w: World, e: Event)
    requires Inv(w) && Enabled(w, e)
    ensures Progress(w, Next(w, e))
  {
    hide Inv, Progress;
    match e
    case Receipt(_) => ReceiptProgress(w, e);
    case EndExecution(_, _) => EndExecutionProgress(w, e);
    case Interrupt(_) => InterruptProgress(w, e);
    case Begin => MoveProgress(w, e, Active(w).launch.value, Started, Active(w).receipt);
    case EndLaunch => SettleProgress(w, e, w.controller.id);
    case Rehydrate(id) => SettleProgress(w, e, id);
    case Doubt(lid) => MoveProgress(w, e, lid, StartUncertain, None);
    case Close(lid) => MoveProgress(w, e, lid, Finished, None);
    case Reserve(_, _, _, _, _) => ReserveProgress(w, e);
    case ReserveUnadmitted(_, _, _) => UnadmittedProgress(w, e);
    case Create(_) => CreateProgress(w, e);
    case _ => VolatileProgress(w, e);
  }

  lemma {:induction false} RunsGrow(ws: seq<World>, i: nat, k: nat)
    requires IsRun(ws) && i <= k < |ws|
    ensures Later(ws[i], ws[k])
  {
    if i < k {
      RunsGrow(ws, i, k - 1);
      RunProgress(ws, k);
      LaterTransitive(ws[i], ws[k-1], ws[k]);
    }
  }

  lemma RunProgress(ws: seq<World>, k: nat)
    requires IsRun(ws) && 0 < k < |ws|
    ensures Progress(ws[k-1], ws[k])
  {
    hide Inv, Step, Progress;
    RunsKeepInv(ws, k - 1);
    assert Arises(ws, k);
    StepsProgress(ws[k-1], ws[k]);
  }

  lemma StepsProgress(w: World, w': World)
    requires Inv(w) && Step(w, w')
    ensures Progress(w, w')
  {
    var e :| Enabled(w, e) && w' == Next(w, e);
    StepProgress(w, e);
  }

  // ---------------------------------------------------------------- the artifacts of terminal executions

  /** A recorded result stands with artifacts of its own closure. */
  predicate Evident(db: Database, id: string)
    requires id in db.executions
  {
    var x := db.executions[id];
    x.result.Some? ==> Evidence(x.spec.action, x.status == Succeeded, x.result.value, x.artifacts)
  }

  lemma EndIsEvident(w: World, e: Event, id: string)
    requires Enabled(w, e) && e.EndExecution? && id in Next(w, e).db.executions
    requires id in w.db.executions ==> Evident(w.db, id)
    ensures Evident(Next(w, e).db, id)
  {
    EndExecutionIs(w, e);
  }

  lemma OtherStepsKeepRecord(w: World, e: Event, id: string)
    requires Enabled(w, e) && !e.EndExecution? && id in Next(w, e).db.executions
    ensures Next(w, e).db.executions[id].result.Some? ==>
              && id in w.db.executions && Next(w, e).db.executions[id].spec == w.db.executions[id].spec
              && Next(w, e).db.executions[id].result == w.db.executions[id].result
              && Next(w, e).db.executions[id].artifacts == w.db.executions[id].artifacts
              && (w.db.executions[id].status == Succeeded <==> Next(w, e).db.executions[id].status == Succeeded)
  {
  }

  lemma StepKeepsEvidence(w: World, w': World, id: string)
    requires Step(w, w') && id in w'.db.executions && (id in w.db.executions ==> Evident(w.db, id))
    ensures Evident(w'.db, id)
  {
    var e :| Enabled(w, e) && w' == Next(w, e);
    if e.EndExecution? {
      EndIsEvident(w, e, id);
    } else {
      OtherStepsKeepRecord(w, e, id);
    }
  }

  /** No result is ever recorded without the artifacts that its action and outcome demand, and they stay. */
  lemma {:induction false} RunsKeepEvidence(ws: seq<World>, i: nat, id: string)
    requires IsRun(ws) && i < |ws| && id in ws[i].db.executions
    ensures Evident(ws[i].db, id)
  {
    assert Arises(ws, i);
    if i > 0 {
      if id in ws[i-1].db.executions {
        RunsKeepEvidence(ws, i - 1, id);
      }
      StepKeepsEvidence(ws[i-1], ws[i], id);
    }
  }

  // ---------------------------------------------------------------- the main safety theorems

  /** The training launch of an execution. */
  predicate Trained(w: World, id: string) { Owned(w.db, CandidateLaunch(id)) && CandidateLaunch(id) in w.db.launches }

  lemma ReleasedLaunchStarted(w: World, id: string)
    requires Inv(w) && id in w.released && w.db.executions[id].spec.action == Train
    ensures Trained(w, id)
    ensures var l := w.db.launches[CandidateLaunch(id)];
            l.charged && (l.state == Started || l.state == StartUncertain || l.state == Finished)
  {
    assert ExecutionOk(w.db, w.released, id);
    assert LaunchOk(w.db, w.released, CandidateLaunch(id));
  }

  /** A training candidate released at any time owns a charged launch at that time and ever after; and before it,
      from the moment the launch is reserved. */
  lemma ReleasedIsAlwaysCharged(ws: seq<World>, k: nat, id: string, j: nat)
    requires IsRun(ws) && k < |ws| && j < |ws|
    requires id in ws[k].released && id in ws[k].db.executions && ws[k].db.executions[id].spec.action == Train
    ensures j >= k ==>
              && Trained(ws[j], id) && ws[j].db.launches[CandidateLaunch(id)].charged
              && ws[j].db.launches[CandidateLaunch(id)].state in {Started, StartUncertain, Finished}
    ensures CandidateLaunch(id) in ws[j].db.launches ==> ws[j].db.launches[CandidateLaunch(id)].charged
  {
    RunsKeepInv(ws, j);
    if j >= k {
      RunsGrow(ws, k, j);
      ReleasedStays(ws[k], ws[j], id);
    } else if CandidateLaunch(id) in ws[j].db.launches {
      RunsKeepInv(ws, k);
      RunsGrow(ws, j, k);
      ChargedBefore(ws[j], ws[k], id);
    }
  }

  lemma ReleasedStays(w: World, w': World, id: string)
    requires Later(w, w') && Inv(w') && id in w.released
    requires id in w.db.executions && w.db.executions[id].spec.action == Train
    ensures Trained(w', id) && w'.db.launches[CandidateLaunch(id)].charged
    ensures w'.db.launches[CandidateLaunch(id)].state in {Started, StartUncertain, Finished}
  {
    ReleasedLaunchStarted(w', id);
  }

  lemma ChargedBefore(w: World, w': World, id: string)
    requires Later(w, w') && Inv(w) && Inv(w') && CandidateLaunch(id) in w.db.launches
    requires id in w'.released && w'.db.executions[id].spec.action == Train
    ensures w.db.launches[CandidateLaunch(id)].charged
  {
    ReleasedLaunchStarted(w', id);
    ChargedUnlessNotStarted(w, CandidateLaunch(id));
    LaunchReaches(w, w', CandidateLaunch(id));
  }

  lemma ChargedUnlessNotStarted(w: World, lid: LaunchId)
    requires Inv(w) && lid in w.db.launches
    ensures w.db.launches[lid].charged <==> w.db.launches[lid].state != NotStarted
  {
    assert LaunchOk(w.db, w.released, lid);
  }

  lemma LaunchReaches(w: World, w': World, lid: LaunchId)
    requires Later(w, w') && lid in w.db.launches
    ensures lid in w'.db.launches && Reaches(w.db.launches[lid].state, w'.db.launches[lid].state)
  {
  }

  /** At the moment of release the launch is already durably STARTED and charged, with the process receipt that
      its RUNNING execution carries. */
  lemma ReleaseComesAfterStart(ws: seq<World>, i: nat, id: string)
    requires IsRun(ws) && i + 1 < |ws| && id !in ws[i].released && id in ws[i+1].released
    ensures id in ws[i].db.executions && ws[i].db.executions[id].status == Running
    ensures ws[i].db.executions[id].receipt.Some?
    ensures ws[i].db.executions[id].spec.action == Train ==>
              && Trained(ws[i], id)
              && ws[i].db.launches[CandidateLaunch(id)].state == Started
              && ws[i].db.launches[CandidateLaunch(id)].charged
              && ws[i].db.launches[CandidateLaunch(id)].receipt.Some?
  {
    RunsKeepInv(ws, i);
    assert Arises(ws, i + 1);
    OnlyReleaseReleases(ws[i], ws[i+1], id);
    CommittedIsStarted(ws[i], id);
  }

  lemma OnlyReleaseReleases(w: World, w': World, id: string)
    requires Step(w, w') && id !in w.released && id in w'.released
    ensures w.controller == Committed(id)
  {
  }

  lemma CommittedIsStarted(w: World, id: string)
    requires Inv(w) && w.controller == Committed(id)
    ensures id in w.db.executions && w.db.executions[id].status == Running && w.db.executions[id].receipt.Some?
    ensures w.db.executions[id].spec.action == Train ==>
              && Trained(w, id) && w.db.launches[CandidateLaunch(id)].state == Started
              && w.db.launches[CandidateLaunch(id)].charged && w.db.launches[CandidateLaunch(id)].receipt.Some?
  {
    assert ExecutionOk(w.db, w.released, id);
    if w.db.executions[id].spec.action == Train {
      assert LaunchOk(w.db, w.released, CandidateLaunch(id));
    }
  }

  lemma NotStartedIsOwned(w: World, id: string)
    requires Inv(w) && CandidateLaunch(id) in w.db.launches
    requires w.db.launches[CandidateLaunch(id)].state == NotStarted
    ensures Trained(w, id) && w.db.executions[id].status == Failed && id !in w.released
  {
    assert LaunchOk(w.db, w.released, CandidateLaunch(id));
  }

  /** A launch once NOT_STARTED belongs to a candidate that is not released at any point of the run. */
  lemma NotStartedIsNeverReleased(ws: seq<World>, j: nat, k: nat, id: string)
    requires IsRun(ws) && j < |ws| && k < |ws|
    requires CandidateLaunch(id) in ws[j].db.launches && ws[j].db.launches[CandidateLaunch(id)].state == NotStarted
    ensures id !in ws[k].released
  {
    if j <= k {
      RunsKeepInv(ws, k);
      RunsGrow(ws, j, k);
      LaunchReaches(ws[j], ws[k], CandidateLaunch(id));
      NotStartedIsOwned(ws[k], id);
    } else {
      RunsKeepInv(ws, j);
      NotStartedIsOwned(ws[j], id);
      RunsGrow(ws, k, j);
    }
  }

  lemma NewLaunchIsReserved(w: World, w': World, lid: LaunchId)
    requires Step(w, w') && lid in w'.db.launches
    ensures lid in w.db.launches || w'.db.launches[lid].state == Reserved
  {
  }

  lemma MovedToNotStarted(w: World, w': World, lid: LaunchId)
    requires Progress(w, w') && lid in w.db.launches && lid in w'.db.launches
    requires w'.db.launches[lid].state == NotStarted
    ensures w.db.launches[lid].state == NotStarted || w.db.launches[lid].state == Reserved
  {
    assert MovesLegally(w.db, w'.db, lid);
  }

  /** NOT_STARTED is entered only from RESERVED, for a candidate not released. */
  lemma NotStartedOnlyFromReserved(ws: seq<World>, i: nat, lid: LaunchId)
    requires IsRun(ws) && i + 1 < |ws|
    requires lid in ws[i+1].db.launches && ws[i+1].db.launches[lid].state == NotStarted
    ensures lid in ws[i].db.launches
    ensures ws[i].db.launches[lid].state == NotStarted || ws[i].db.launches[lid].state == Reserved
  {
    assert Arises(ws, i + 1);
    NewLaunchIsReserved(ws[i], ws[i+1], lid);
    RunProgress(ws, i + 1);
    MovedToNotStarted(ws[i], ws[i+1], lid);
  }

  /** Settled launches and finished executions never move again. */
  lemma TerminalRecordsStay(ws: seq<World>, i: nat, k: nat, lid: LaunchId, id: string)
    requires IsRun(ws) && i <= k < |ws|
    ensures lid in ws[i].db.launches && Settled(ws[i].db.launches[lid].state) ==>
              lid in ws[k].db.launches && ws[k].db.launches[lid].state == ws[i].db.launches[lid].state
    ensures id in ws[i].db.executions && !Unfinished(ws[i].db.executions[id].status) ==>
              && id in ws[k].db.executions && ws[k].db.executions[id].status == ws[i].db.executions[id].status
              && (ws[i].db.executions[id].result.Some? ==>
                    ws[k].db.executions[id].result == ws[i].db.executions[id].result)
  {
    RunsGrow(ws, i, k);
  }

  /** Launch numbers are given once and for all: the launch with a number is the same one for ever. */
  lemma LaunchNumbersAreForGood(ws: seq<World>, i: nat, k: nat, a: LaunchId, b: LaunchId)
    requires IsRun(ws) && i < |ws| && k < |ws|
    requires a in ws[i].db.launches && b in ws[k].db.launches
    requires ws[i].db.launches[a].number == ws[k].db.launches[b].number
    ensures a == b
  {
    RunsKeepInv(ws, i);
    RunsKeepInv(ws, k);
    LaunchPosition(ws[i].db, a);
    LaunchPosition(ws[k].db, b);
    if i <= k {
      RunsGrow(ws, i, k);
    } else {
      RunsGrow(ws, k, i);
    }
  }

  lemma LaunchPosition(db: Database, lid: LaunchId)
    requires OrderOk(db) && lid in db.launches
    ensures 1 <= db.launches[lid].number <= |db.launchOrder| && db.launchOrder[db.launches[lid].number - 1] == lid
  {
    var k :| 0 <= k < |db.launchOrder| && db.launchOrder[k] == lid;
    assert db.launches[db.launchOrder[k]].number == k + 1;
  }

  // ---------------------------------------------------------------- the ledger of a reachable store

  lemma {:induction false} ChargesWellFormed(db: Database, released: set<string>, k: nat)
    requires OrderOk(db) && AllLaunchesOk(db, released) && k <= |db.launchOrder|
    ensures forall charge | charge in ChargesOf(db.launches, db.launchOrder[..k]) :: ValidCharge(charge)
  {
    if k > 0 {
      var lid := db.launchOrder[k-1];
      assert db.launchOrder[..k][..k-1] == db.launchOrder[..k-1];
      ChargesWellFormed(db, released, k - 1);
      assert LaunchOk(db, released, lid);
      LaunchTextIsIdentifier(lid);
    }
  }

  lemma LaunchTextIsIdentifier(lid: LaunchId)
    requires OrdinaryLaunch(lid) && (lid.CandidateLaunch? ==> Identifier(lid.execution))
    ensures Identifier(LaunchText(lid))
  {
    var s := LaunchText(lid);
    if lid.CandidateLaunch? {
      var i :| 0 <= i < |lid.execution| && !Blank(lid.execution[i]);
      assert s[i] == lid.execution[i];
    } else {
      assert s[0] == 'q';
      assert forall k | 0 <= k < |"123456"| :: "123456"[k] != '\0';
    }
  }

  lemma OrdinaryLaunches(w: World)
    requires Inv(w)
    ensures forall lid | lid in w.db.launchOrder :: OrdinaryLaunch(lid) && Attributed(w.db.launches[lid])
  {
    forall lid | lid in w.db.launchOrder
      ensures OrdinaryLaunch(lid) && Attributed(w.db.launches[lid])
    {
      assert LaunchOk(w.db, w.released, lid);
    }
  }

  lemma ImportedLaunchAt(w: World, k: nat)
    requires Inv(w) && k < 6
    ensures w.db.launchOrder[k] == Qualification(k + 1) && w.db.launches[w.db.launchOrder[k]].charged
    ensures w.db.launches[w.db.launchOrder[k]].category == QualificationImport
  {
    QualificationPositions(k + 1);
    assert w.db.launchOrder[k] == QUALIFICATION_ORDER[k];
    assert LaunchOk(w.db, w.released, w.db.launchOrder[k]);
  }

  lemma SixLead(w: World)
    requires Inv(w)
    ensures Qualified(ChargesOf(w.db.launches, w.db.launchOrder))
  {
    var launches, order := w.db.launches, w.db.launchOrder;
    forall k: nat | k < 6
      ensures order[k] == Qualification(k + 1) && launches[order[k]].charged
      ensures launches[order[k]].category == QualificationImport
    {
      ImportedLaunchAt(w, k);
    }
    LeadingCharges(launches, order, 6);
    var charges := ChargesOf(launches, order);
    forall i: nat | i < |charges|
      ensures charges[i].imported <==> i < 6
    {
      if i >= 6 {
        LaterChargeNotImported(w, i);
      }
    }
  }

  lemma QualificationsComeFirst(w: World, k: nat)
    requires Inv(w) && k < |w.db.launchOrder|
    ensures w.db.launchOrder[k].Qualification? ==> k < 6
  {
    var lid := w.db.launchOrder[k];
    assert LaunchOk(w.db, w.released, lid);
    if lid.Qualification? {
      QualificationPositions(lid.number);
      assert w.db.launchOrder[lid.number - 1] == lid;
    }
  }

  lemma LaterChargeNotImported(w: World, i: nat)
    requires Inv(w) && 6 <= i < |ChargesOf(w.db.launches, w.db.launchOrder)|
    ensures !ChargesOf(w.db.launches, w.db.launchOrder)[i].imported
  {
    var k := ChargeOwner(w.db.launches, w.db.launchOrder, i);
    QualificationsComeFirst(w, k);
    assert LaunchOk(w.db, w.released, w.db.launchOrder[k]);
  }

  /** The charges of the research loop's category fit under its ceiling. */
  predicate ScreensFit(db: Database)
    requires Known(db.launches, db.launchOrder)
  {
    Used(ChargesOf(db.launches, db.launchOrder), DiverseInnerScreen) <= Limit(db.transfers, DiverseInnerScreen)
  }

  /** The ledger rebuilt from a reachable store is valid exactly while no more than fifty iterations are closed and
      the screening launches fit under their ceiling, which they always do before the research loop reserves one.
      Its charges are then the charged launches in order, renumbered, with the six qualification charges first. */
  lemma RebuiltLedgerIsValid(w: World)
    requires Inv(w)
    ensures Rebuild(w.db).Success? <==> w.db.iterations <= MAX_SCIENTIFIC_ITERATIONS && ScreensFit(w.db)
    ensures !ResearchLaunched(w.db) ==> ScreensFit(w.db)
    ensures Rebuild(w.db).Success? ==>
              var l := Rebuild(w.db).value;
              && ValidLedger(l) && Qualified(l.charges)
              && l.charges == ChargesOf(w.db.launches, w.db.launchOrder) && |l.charges| <= w.db.maxLaunches
  {
    var charges := ChargesOf(w.db.launches, w.db.launchOrder);
    OrdinaryLaunches(w);
    SixLead(w);
    ChargesNumbered(w.db.launches, w.db.launchOrder);
    ChargesDistinct(w.db.launches, w.db.launchOrder);
    assert w.db.launchOrder[..|w.db.launchOrder|] == w.db.launchOrder;
    ChargesWellFormed(w.db, w.released, |w.db.launchOrder|);
    CeilingsSumToFifty(w.db.transfers);
    RebuildDecides(w.db, charges);
  }

  lemma RebuildDecides(db: Database, charges: seq<Charge>)
    requires Known(db.launches, db.launchOrder) && charges == ChargesOf(db.launches, db.launchOrder)
    requires AllAttributed(db.launches, db.launchOrder) && Qualified(charges) && Numbered(charges)
    requires DistinctExecutions(charges) && BudgetOk(db) && LimitTotal(db.transfers) == MAX_TRAINING_LAUNCHES
    requires forall charge | charge in charges :: ValidCharge(charge)
    ensures Rebuild(db).Success? <==> db.iterations <= MAX_SCIENTIFIC_ITERATIONS && ScreensFit(db)
    ensures !ResearchLaunched(db) ==> ScreensFit(db)
    ensures Rebuild(db).Success? ==> ValidLedger(Rebuild(db).value) && Rebuild(db).value.charges == charges
  {
    CeilingsDecide(charges, db.transfers, ResearchLaunched(db));
  }

  lemma CeilingsDecide(charges: seq<Charge>, transfers: seq<Transfer>, research: bool)
    requires CeilingsKept(charges, transfers, research)
    ensures WithinCeilings(charges, transfers)
       <==> Used(charges, DiverseInnerScreen) <= Limit(transfers, DiverseInnerScreen)
    ensures !research ==> WithinCeilings(charges, transfers)
  {
  }

  /** Every reachable store, at any point of any run: the charges never pass the launch limit, nor any ceiling but
      that of screening launches, and that one only if the research loop has reserved launches of its own. */
  lemma ReachableLedgers(ws: seq<World>, i: nat, c: Category)
    requires IsRun(ws) && i < |ws|
    ensures Known(ws[i].db.launches, ws[i].db.launchOrder)
    ensures var charges := ChargesOf(ws[i].db.launches, ws[i].db.launchOrder);
            && |charges| <= ws[0].db.maxLaunches
            && (c != DiverseInnerScreen || !ResearchLaunched(ws[i].db) ==>
                  Used(charges, c) <= Limit(ws[0].db.transfers, c))
    ensures Rebuild(ws[i].db).Success? <==> ws[i].db.iterations <= MAX_SCIENTIFIC_ITERATIONS && ScreensFit(ws[i].db)
    ensures Rebuild(ws[i].db).Success? ==>
              var l := Rebuild(ws[i].db).value;
              && ValidLedger(l) && Qualified(l.charges)
              && Used(l.charges, c) <= Limit(ws[0].db.transfers, c)
  {
    RunsKeepInv(ws, i);
    RunsGrow(ws, 0, i);
    RebuiltLedgerIsValid(ws[i]);
  }

  /** No charged launch is missing from the rebuilt charges, and none is counted twice. */
  lemma {:induction false} ChargedLaunchIsCounted(launches: map<LaunchId, Launch>, order: seq<LaunchId>, k: nat)
    requires Known(launches, order) && k < |order| && launches[order[k]].charged
    ensures var i := |ChargesOf(launches, order[..k])|;
            && i < |ChargesOf(launches, order)|
            && ChargesOf(launches, order)[i] == ChargeOf(i + 1, order[k], launches[order[k]])
  {
    var n := |order| - 1;
    if k < n {
      assert order[..n][..k] == order[..k];
      assert order[..n][k] == order[k];
      ChargedLaunchIsCounted(launches, order[..n], k);
    } else {
      assert order[..n] == order[..k];
    }
  }

  // ---------------------------------------------------------------- releases against the budget

  /** The released training candidates whose launch is among the first k. */
  ghost function ReleasedAmong(w: World, k: nat): set<string>
    requires k <= |w.db.launchOrder| && forall id | id in w.released :: id in w.db.executions
  {
    set id | id in w.released && w.db.executions[id].spec.action == Train && CandidateLaunch(id) in w.db.launchOrder[..k]
  }

  lemma ReleasedAmongStep(w: World, k: nat)
    requires Inv(w) && k < |w.db.launchOrder|
    ensures var lid := w.db.launchOrder[k];
            && (ReleasedAmong(w, k + 1) == ReleasedAmong(w, k)
                || (lid.CandidateLaunch? && ReleasedAmong(w, k + 1) == ReleasedAmong(w, k) + {lid.execution}
                    && w.db.launches[lid].charged))
  {
    var lid := w.db.launchOrder[k];
    ReleasedAmongSets(w, k);
    if lid.CandidateLaunch? && lid.execution in w.released && w.db.executions[lid.execution].spec.action == Train {
      ReleasedLaunchStarted(w, lid.execution);
    }
  }

  lemma ReleasedAmongSets(w: World, k: nat)
    requires k < |w.db.launchOrder| && forall id | id in w.released :: id in w.db.executions
    ensures var lid := w.db.launchOrder[k];
            ReleasedAmong(w, k + 1)
            == if lid.CandidateLaunch? && lid.execution in w.released
                  && w.db.executions[lid.execution].spec.action == Train
               then ReleasedAmong(w, k) + {lid.execution} else ReleasedAmong(w, k)
  {
    var order := w.db.launchOrder;
    assert order[..k+1] == order[..k] + [order[k]];
  }

  lemma ChargesStep(w: World, k: nat)
    requires Inv(w) && k < |w.db.launchOrder|
    ensures |ChargesOf(w.db.launches, w.db.launchOrder[..k+1])|
         == |ChargesOf(w.db.launches, w.db.launchOrder[..k])| + if w.db.launches[w.db.launchOrder[k]].charged then 1 else 0
    ensures k < 6 ==> w.db.launchOrder[k].Qualification? && w.db.launches[w.db.launchOrder[k]].charged
  {
    assert w.db.launchOrder[..k+1][..k] == w.db.launchOrder[..k];
    if k < 6 {
      QualificationPositions(k + 1);
      assert w.db.launchOrder[k] == QUALIFICATION_ORDER[k];
      assert LaunchOk(w.db, w.released, w.db.launchOrder[k]);
    }
  }

  lemma {:induction false} ReleasedAreCharged(w: World, k: nat)
    requires Inv(w) && k <= |w.db.launchOrder|
    ensures |ReleasedAmong(w, k)| + (if k < 6 then k else 6) <= |ChargesOf(w.db.launches, w.db.launchOrder[..k])|
  {
    if k > 0 {
      ReleasedAreCharged(w, k - 1);
      ReleasedAmongStep(w, k - 1);
      ChargesStep(w, k - 1);
    } else {
      assert ReleasedAmong(w, 0) == {};
    }
  }

  /** The training candidates that a run has ever released. */
  ghost function ReleasedTrainings(w: World): set<string>
    requires forall id | id in w.released :: id in w.db.executions
  {
    set id | id in w.released && w.db.executions[id].spec.action == Train
  }

  /** However often the campaign crashes and restarts, it never lets more training candidates run than its
      launch limit leaves after qualification. */
  lemma ReleasesStayWithinBudget(ws: seq<World>, i: nat)
    requires IsRun(ws) && i < |ws|
    ensures forall id | id in ws[i].released :: id in ws[i].db.executions
    ensures |ReleasedTrainings(ws[i])| <= ws[0].db.maxLaunches - QUALIFICATION_LAUNCHES
  {
    RunsKeepInv(ws, i);
    RunsGrow(ws, 0, i);
    ReleasesFit(ws[i]);
  }

  lemma ReleasesFit(w: World)
    requires Inv(w)
    ensures |ReleasedTrainings(w)| + QUALIFICATION_LAUNCHES <= w.db.maxLaunches
  {
    var n := |w.db.launchOrder|;
    ReleasedAreCharged(w, n);
    assert w.db.launchOrder[..n] == w.db.launchOrder;
    forall id | id in ReleasedTrainings(w)
      ensures id in ReleasedAmong(w, n)
    {
      ReleasedLaunchStarted(w, id);
    }
    assert ReleasedTrainings(w) == ReleasedAmong(w, n);
  }
}
