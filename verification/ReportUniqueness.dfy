/** Over whole runs, no repair is reported twice; and one run in which a repair is never reported. */
module ReportUniqueness {
  import opened Results
  import opened CampaignDatabase
  import opened CampaignProtocol
  import opened CampaignInvariant
  import opened CampaignSafety
  import opened Reconciliation
  import opened RestartAccounting

  /** The repair of this execution, or of this launch that no execution owns, is over for good. */
  predicate Over(db: Database, execution: Option<string>, launch: Option<LaunchId>) {
    && (launch.Some? ==> launch.value in db.launches && Settled(db.launches[launch.value].state))
    && match execution
       case Some(id) =>
         id in db.executions && !Unfinished(db.executions[id].status) && launch == db.executions[id].launch
       case None => launch.Some? && !Owned(db, launch.value)
  }

  /** The report is about neither the execution nor the launch. */
  predicate Elsewhere(report: Report, execution: Option<string>, launch: Option<LaunchId>) {
    && (execution.Some? ==> report.execution != execution)
    && (launch.Some? ==> report.launch != launch)
  }

  predicate AllOver(db: Database, reports: seq<Report>) {
    forall i | 0 <= i < |reports| :: Over(db, reports[i].execution, reports[i].launch)
  }

  predicate NoneTwice(reports: seq<Report>) {
    forall i, j | 0 <= i < j < |reports| :: Elsewhere(reports[i], reports[j].execution, reports[j].launch)
  }

  /** The repair under way concerns an execution that is over, or a launch without one, and no report names either. */
  predicate Unreported(w: World) {
    w.controller.Repairing? ==>
      && UnderRepair(w.db, w.controller.execution, w.controller.launch)
      && NamedBy(w.reports, w.controller.execution, w.controller.launch) == {}
  }

  predicate UnderRepair(db: Database, execution: Option<string>, launch: Option<LaunchId>) {
    && (launch.Some? ==> launch.value in db.launches)
    && match execution
       case Some(id) =>
         id in db.executions && !Unfinished(db.executions[id].status) && launch == db.executions[id].launch
       case None => launch.Some? && !Owned(db, launch.value)
  }

  /** The positions of the reports that name the execution or the launch. */
  function NamedBy(reports: seq<Report>, execution: Option<string>, launch: Option<LaunchId>): set<nat> {
    set i: nat | i < |reports| && !Elsewhere(reports[i], execution, launch)
  }

  predicate Accounted(w: World) { AllOver(w.db, w.reports) && NoneTwice(w.reports) && Unreported(w) }

  // ---------------------------------------------------------------- what is over stays over

  lemma OwnersComeEarly(w: World, e: Event, lid: LaunchId)
    requires Enabled(w, e) && lid in w.db.launches && Settled(w.db.launches[lid].state) && !Owned(w.db, lid)
    ensures !Owned(Next(w, e).db, lid)
  {
  }

  lemma OverStays(w: World, e: Event, execution: Option<string>, launch: Option<LaunchId>)
    requires Enabled(w, e) && Later(w, Next(w, e)) && Over(w.db, execution, launch)
    ensures Over(Next(w, e).db, execution, launch)
  {
    if execution == None {
      OwnersComeEarly(w, e, launch.value);
    }
  }

  lemma AllOverStays(w: World, e: Event)
    requires Enabled(w, e) && Later(w, Next(w, e)) && AllOver(w.db, w.reports)
    ensures AllOver(Next(w, e).db, w.reports)
  {
    hide Later, Enabled, Next, Over;
    forall i | 0 <= i < |w.reports|
      ensures Over(Next(w, e).db, w.reports[i].execution, w.reports[i].launch)
    {
      OverStays(w, e, w.reports[i].execution, w.reports[i].launch);
    }
  }

  // ---------------------------------------------------------------- the steps of a repair

  /** No report names an execution that is still active, nor its launch. */
  lemma ActiveIsUnnamed(w: World, id: string)
    requires Inv(w) && AllOver(w.db, w.reports) && First(w.db, id)
    ensures NamedBy(w.reports, Some(id), w.db.executions[id].launch) == {}
  {
    InvLinked(w);
    var launch := w.db.executions[id].launch;
    forall i | 0 <= i < |w.reports|
      ensures Elsewhere(w.reports[i], Some(id), launch)
    {
      assert Over(w.db, w.reports[i].execution, w.reports[i].launch);
    }
  }

  /** Nor a launch that is still open, nor its owner. */
  lemma OpenIsUnnamed(w: World, lid: LaunchId)
    requires AllOver(w.db, w.reports) && lid in w.db.launches && !Settled(w.db.launches[lid].state)
    ensures NamedBy(w.reports, Owner(w.db, lid), Some(lid)) == {}
  {
    forall i | 0 <= i < |w.reports|
      ensures Elsewhere(w.reports[i], Owner(w.db, lid), Some(lid))
    {
      assert Over(w.db, w.reports[i].execution, w.reports[i].launch);
    }
  }

  lemma InterruptUnreported(w: World, e: Event)
    requires Inv(w) && AllOver(w.db, w.reports) && Enabled(w, e) && e.Interrupt?
    ensures Next(w, e).reports == w.reports && Unreported(Next(w, e))
  {
    InterruptIs(w, e);
    ActiveIsUnnamed(w, e.id);
    InvLinked(w);
  }

  lemma CloseUnreported(w: World, e: Event)
    requires AllOver(w.db, w.reports) && Enabled(w, e) && (e.Doubt? || e.Close?)
    ensures Next(w, e).reports == w.reports && Unreported(Next(w, e))
  {
    CloseIs(w, e);
    OpenIsUnnamed(w, e.launch);
  }

  lemma FileAddsNew(w: World, report: Report)
    requires NoneTwice(w.reports) && NamedBy(w.reports, report.execution, report.launch) == {}
    ensures NoneTwice(w.reports + [report])
  {
    forall i | 0 <= i < |w.reports|
      ensures Elsewhere(w.reports[i], report.execution, report.launch)
    {
      assert i !in NamedBy(w.reports, report.execution, report.launch);
    }
  }

  lemma FileAccounted(w: World, e: Event)
    requires Accounted(w) && Enabled(w, e) && e.File?
    ensures Accounted(Next(w, e))
  {
    var report := DueReport(w);
    FileAddsNew(w, report);
    assert Over(w.db, report.execution, report.launch);
  }

  lemma OtherAccounted(w: World, e: Event)
    requires Enabled(w, e) && !e.Interrupt? && !e.Doubt? && !e.Close? && !e.File?
    ensures Next(w, e).reports == w.reports && !Next(w, e).controller.Repairing?
  {
  }

  lemma StepKeepsAccounted(w: World, e: Event)
    requires Inv(w) && Accounted(w) && Enabled(w, e)
    ensures Accounted(Next(w, e))
  {
    hide Inv, Enabled, Next, Later, AllOver, NoneTwice;
    assert Later(w, Next(w, e)) by {
      StepIsLater(w, e);
    }
    AllOverStays(w, e);
    if e.File? {
      FileAccounted(w, e);
    } else if e.Interrupt? {
      InterruptUnreported(w, e);
    } else if e.Doubt? || e.Close? {
      CloseUnreported(w, e);
    } else {
      OtherAccounted(w, e);
    }
  }

  lemma StepIsLater(w: World, e: Event)
    requires Inv(w) && Enabled(w, e)
    ensures Later(w, Next(w, e))
  {
    StepProgress(w, e);
  }

  lemma StepsKeepAccounted(w: World, w': World)
    requires Inv(w) && Accounted(w) && Step(w, w')
    ensures Accounted(w')
  {
    hide Inv, Accounted, Enabled, Next;
    var e :| Enabled(w, e) && w' == Next(w, e);
    StepKeepsAccounted(w, e);
  }

  lemma {:induction false} RunsKeepAccounted(ws: seq<World>, i: nat)
    requires IsRun(ws) && i < |ws|
    ensures Accounted(ws[i])
  {
    hide Inv, Step;
    assert Arises(ws, i);
    if i > 0 {
      RunsKeepAccounted(ws, i - 1);
      RunsKeepInv(ws, i - 1);
      StepsKeepAccounted(ws[i-1], ws[i]);
    }
  }

  /** What a report says of its launch. */
  predicate Told(db: Database, report: Report) {
    && (report.launch == None ==> report.launchState == None)
    && (report.launch.Some? ==>
          && report.launch.value in db.launches && Settled(db.launches[report.launch.value].state)
          && report.launchState == Some(db.launches[report.launch.value].state))
  }

  lemma ToldStays(w: World, w': World, report: Report)
    requires Later(w, w') && Told(w.db, report)
    ensures Told(w'.db, report)
  {
  }

  /** A step files no report but the one that is due. */
  lemma OnlyFileReports(w: World, w': World, k: nat)
    requires Inv(w) && Step(w, w') && |w.reports| <= k < |w'.reports|
    ensures Told(w'.db, w'.reports[k])
  {
    var e :| Enabled(w, e) && w' == Next(w, e);
    if !e.File? {
      StepReports(w, e);
    }
  }

  lemma StepReports(w: World, e: Event)
    requires Enabled(w, e) && !e.File?
    ensures Next(w, e).reports == w.reports
  {
  }

  lemma {:induction false} RunsTell(ws: seq<World>, i: nat, k: nat)
    requires IsRun(ws) && i < |ws| && k < |ws[i].reports|
    ensures Told(ws[i].db, ws[i].reports[k])
  {
    hide Inv, Step, Told, Later, Initial;
    assert Arises(ws, i);
    if i == 0 {
      NoReportsYet(ws[0]);
    } else {
      RunsKeepInv(ws, i - 1);
      RunsGrow(ws, i - 1, i);
      LaterReports(ws[i-1], ws[i]);
      if k < |ws[i-1].reports| {
        RunsTell(ws, i - 1, k);
        ToldStays(ws[i-1], ws[i], ws[i-1].reports[k]);
      } else {
        OnlyFileReports(ws[i-1], ws[i], k);
      }
    }
  }

  lemma NoReportsYet(w: World)
    requires Initial(w)
    ensures w.reports == []
  {
  }

  lemma LaterReports(w: World, w': World)
    requires Later(w, w')
    ensures w.reports <= w'.reports
  {
  }

  /** At every point of every run every report is true, then and ever after: it carries its place as its number; an
      execution that it names is over and owns the launch that it names; and that launch is settled in the very
      state that the report gives. */
  lemma ReportsAreTrue(ws: seq<World>, i: nat, k: nat)
    requires IsRun(ws) && i < |ws| && k < |ws[i].reports|
    ensures var report, db := ws[i].reports[k], ws[i].db;
            && report.sequence == k + 1
            && (report.execution.Some? ==>
                  && report.execution.value in db.executions
                  && db.executions[report.execution.value].status in {Succeeded, Failed, Interrupted}
                  && report.launch == db.executions[report.execution.value].launch)
            && (report.execution == None ==> report.launch.Some?)
            && (report.launch == None ==> report.launchState == None)
            && (report.launch.Some? ==>
                  && report.launch.value in db.launches
                  && db.launches[report.launch.value].state in {Finished, NotStarted}
                  && report.launchState == Some(db.launches[report.launch.value].state))
  {
    hide IsRun, Inv;
    RunsKeepAccounted(ws, i);
    RunsTell(ws, i, k);
    RunsNumber(ws, i, k);
    assert Over(ws[i].db, ws[i].reports[k].execution, ws[i].reports[k].launch);
  }

  lemma RunsNumber(ws: seq<World>, i: nat, k: nat)
    requires IsRun(ws) && i < |ws| && k < |ws[i].reports|
    ensures ws[i].reports[k].sequence == k + 1
  {
    RunsKeepInv(ws, i);
  }

  /** At every point of every run: no execution and no launch is named by two reports, and every report names an
      execution that is over, with its launch settled, or a settled launch that no execution owns. */
  lemma NoRepairIsReportedTwice(ws: seq<World>, k: nat, i: nat, j: nat)
    requires IsRun(ws) && k < |ws| && i < j < |ws[k].reports|
    ensures ws[k].reports[i].execution.Some? ==> ws[k].reports[i].execution != ws[k].reports[j].execution
    ensures ws[k].reports[i].launch.Some? ==> ws[k].reports[i].launch != ws[k].reports[j].launch
    ensures Over(ws[k].db, ws[k].reports[j].execution, ws[k].reports[j].launch)
  {
    hide IsRun, Over;
    RunsKeepAccounted(ws, k);
    assert Elsewhere(ws[k].reports[i], ws[k].reports[j].execution, ws[k].reports[j].launch);
  }

  // ---------------------------------------------------------------- a lost report

  /** From the start of a campaign: a prediction is created and its process dies; the restart interrupts the
      execution and dies too; the next restart finds nothing. */
  function Forgetting(w: World, spec: Spec): seq<World> {
    var active := WithExecution(w.db, spec);
    var closed := WithEnd(active, spec.id, Interrupted, None, map[]);
    [w,
     w.(db := active, controller := Prepared(spec.id)),
     w.(db := active, controller := Down),
     w.(db := active, controller := Restarting),
     w.(db := closed, controller := Repairing(Some(spec.id), None)),
     w.(db := closed, controller := Down),
     w.(db := closed, controller := Restarting),
     w.(db := closed, controller := Idle)]
  }

  function ForgettingEvent(spec: Spec, i: nat): Event
    requires 0 < i < 8
  {
    [Create(spec), Crash, Event.Restart, Interrupt(spec.id), Crash, Event.Restart, Resume][i-1]
  }

  lemma ForgettingStarts(w: World, spec: Spec)
    requires Initial(w) && spec.action == Predict
    ensures Enabled(w, Create(spec)) && Next(w, Create(spec)) == Forgetting(w, spec)[1]
  {
  }

  lemma ForgettingInterrupts(w: World, spec: Spec)
    ensures spec.action == Predict ==>
              && Enabled(Forgetting(w, spec)[3], Interrupt(spec.id))
              && Next(Forgetting(w, spec)[3], Interrupt(spec.id)) == Forgetting(w, spec)[4]
  {
  }

  lemma ForgettingSteps(w: World, spec: Spec, i: nat)
    requires Initial(w) && spec.action == Predict && 0 < i < 8
    ensures Enabled(Forgetting(w, spec)[i-1], ForgettingEvent(spec, i))
    ensures Next(Forgetting(w, spec)[i-1], ForgettingEvent(spec, i)) == Forgetting(w, spec)[i]
  {
    hide Initial;
    if i == 1 {
      ForgettingStarts(w, spec);
    } else if i == 4 {
      ForgettingInterrupts(w, spec);
    } else {
      assert i == 2 || i == 3 || i == 5 || i == 6 || i == 7;
    }
  }

  lemma ForgettingIsRun(w: World, spec: Spec)
    requires Initial(w) && spec.action == Predict
    ensures IsRun(Forgetting(w, spec)) && Recovery(Forgetting(w, spec)[2..])
  {
    hide Initial, Enabled, Next, Forgetting, ForgettingEvent;
    var ws := Forgetting(w, spec);
    ForgettingLength(w, spec);
    forall i | 0 <= i < 8
      ensures Arises(ws, i)
    {
      if i > 0 {
        ForgettingSteps(w, spec, i);
      }
    }
    forall i | 0 < i < |ws[2..]|
      ensures RecoversAt(ws[2..], i)
    {
      ForgettingSteps(w, spec, i + 2);
      assert OfRestart(ForgettingEvent(spec, i + 2)) by {
        ForgettingRestarts(spec, i + 2);
      }
    }
  }

  lemma ForgettingLength(w: World, spec: Spec)
    ensures |Forgetting(w, spec)| == 8 && Forgetting(w, spec)[0] == w
  {
  }

  lemma ForgettingRestarts(spec: Spec, i: nat)
    requires 2 < i < 8
    ensures OfRestart(ForgettingEvent(spec, i))
  {
    assert i == 3 || i == 4 || i == 5 || i == 6 || i == 7;
  }

  /** Every campaign has such runs: the second restart completes and the store is clean, but the one finding is in
      no report. */
  lemma OneReportLost(w: World, spec: Spec)
    requires Initial(w) && spec.action == Predict
    ensures var ws := Forgetting(w, spec);
            && IsRun(ws) && Recovery(ws[2..])
            && Present(ws[2].db) == multiset{Finding(Some(spec.id), None, None)}
            && ws[7].controller == Idle && Clean(ws[7].db) && ws[7].reports == []
            && LostOver(ws[2..]) == multiset{Finding(Some(spec.id), None, None)}
  {
    hide IsRun, Inv, Present, LostOver, Recovery;
    var ws := Forgetting(w, spec);
    ForgettingIsRun(w, spec);
    RunsKeepInv(ws, 2);
    RunsKeepInv(ws, 7);
    ForgettingStore(w, spec);
    ForgettingFinds(ws[2], ws[7], spec);
    CompletedRecoveryAccounts(ws[2..]);
    assert ws[2..][0] == ws[2] && ws[2..][5] == ws[7];
    assert Bodies(ws[2].reports) == multiset{} && Bodies(ws[7].reports) == multiset{};
    assert multiset{} + LostOver(ws[2..]) == LostOver(ws[2..]);
    assert multiset{} + Present(ws[2].db) == Present(ws[2].db);
  }

  lemma ForgettingStore(w: World, spec: Spec)
    requires Initial(w)
    ensures Clean(Forgetting(w, spec)[7].db)
  {
  }

  lemma ForgettingFinds(w: World, w': World, spec: Spec)
    requires Inv(w) && Inv(w') && First(w.db, spec.id) && w.db.executions[spec.id].launch == None
    requires w'.db == WithEnd(w.db, spec.id, Interrupted, None, map[]) && Clean(w'.db)
    ensures Present(w.db) == multiset{Finding(Some(spec.id), None, None)}
  {
    OrdersDistinct(w);
    InterruptPresent(w.db, spec.id);
    CleanIsFixed(w');
  }
}
