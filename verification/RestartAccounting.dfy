/** What becomes of the reports of `_reconcile_unfinished` (src/kuairand_agent/campaign/controller.py) when restarts
    are cut short: every finding is reported once, is still there to be found, or was repaired by a restart that
    ended before it could report. */
module RestartAccounting {
  import opened Results
  import opened CampaignDatabase
  import opened CampaignProtocol
  import opened CampaignInvariant
  import opened Reconciliation

  function BodyOf(report: Report): Finding { Finding(report.execution, report.launch, report.launchState) }

  /** What some reports say, without their numbers. */
  function Bodies(reports: seq<Report>): multiset<Finding> {
    if reports == [] then multiset{}
    else Bodies(reports[..|reports|-1]) + multiset{BodyOf(reports[|reports|-1])}
  }

  lemma BodiesSnoc(reports: seq<Report>, report: Report)
    ensures Bodies(reports + [report]) == Bodies(reports) + multiset{BodyOf(report)}
  {
    assert (reports + [report])[..|reports|] == reports;
  }

  lemma {:induction false} BodiesConcat(a: seq<Report>, b: seq<Report>)
    ensures Bodies(a + b) == Bodies(a) + Bodies(b)
  {
    if b == [] {
      assert a + b == a;
    } else {
      assert a + b == (a + b[..|b|-1]) + [b[|b|-1]];
      BodiesSnoc(a + b[..|b|-1], b[|b|-1]);
      BodiesConcat(a, b[..|b|-1]);
    }
  }

  // ---------------------------------------------------------------- findings, record by record

  function Gather<T>(xs: seq<T>, about: T -> multiset<Finding>): multiset<Finding> {
    if xs == [] then multiset{} else Gather(xs[..|xs|-1], about) + about(xs[|xs|-1])
  }

  predicate Distinct<T(==)>(xs: seq<T>) { forall i, j | 0 <= i < j < |xs| :: xs[i] != xs[j] }

  lemma {:induction false} GatherSame<T>(xs: seq<T>, f: T -> multiset<Finding>, g: T -> multiset<Finding>)
    requires forall x | x in xs :: f(x) == g(x)
    ensures Gather(xs, f) == Gather(xs, g)
  {
    if xs != [] {
      GatherSame(xs[..|xs|-1], f, g);
    }
  }

  /** Taking something from what is gathered about one element takes it from the whole. */
  lemma {:induction false} GatherDrop<T>(xs: seq<T>, f: T -> multiset<Finding>, g: T -> multiset<Finding>, at: T,
                                         d: multiset<Finding>)
    requires Distinct(xs) && at in xs && f(at) == g(at) + d
    requires forall x | x in xs && x != at :: f(x) == g(x)
    ensures Gather(xs, f) == Gather(xs, g) + d
  {
    var n := |xs| - 1;
    if xs[n] == at {
      GatherSame(xs[..n], f, g);
    } else {
      GatherDrop(xs[..n], f, g, at, d);
    }
  }

  function AboutExecution(db: Database, id: string): multiset<Finding> {
    if First(db, id) || Second(db, id) then multiset{FindingOf(db, id)} else multiset{}
  }

  function AboutLaunch(db: Database, lid: LaunchId): multiset<Finding> {
    if Third(db, lid) then multiset{Finding(None, Some(lid), Some(Finished))} else multiset{}
  }

  function ByExecution(db: Database): string -> multiset<Finding> { id => AboutExecution(db, id) }

  function ByLaunch(db: Database): LaunchId -> multiset<Finding> { lid => AboutLaunch(db, lid) }

  lemma {:induction false} FoundByExecution(db: Database, ids: seq<string>)
    ensures multiset(Found1(db, ids)) + multiset(Found2(db, ids)) == Gather(ids, ByExecution(db))
  {
    if ids != [] {
      var front, id := ids[..|ids|-1], ids[|ids|-1];
      FoundByExecution(db, front);
      var one := if First(db, id) then [FindingOf(db, id)] else [];
      var two := if Second(db, id) then [FindingOf(db, id)] else [];
      assert multiset(one) + multiset(two) == ByExecution(db)(id);
      assert Found1(db, ids) == Found1(db, front) + one && Found2(db, ids) == Found2(db, front) + two;
    }
  }

  lemma {:induction false} FoundByLaunch(db: Database, lids: seq<LaunchId>)
    ensures multiset(Found3(db, lids)) == Gather(lids, ByLaunch(db))
  {
    if lids != [] {
      var front, lid := lids[..|lids|-1], lids[|lids|-1];
      FoundByLaunch(db, front);
      var one := if Third(db, lid) then [Finding(None, Some(lid), Some(Finished))] else [];
      assert Found3(db, lids) == Found3(db, front) + one;
    }
  }

  /** Everything that a restart would find and report. */
  function Present(db: Database): multiset<Finding> { multiset(Findings(db)) }

  lemma PresentIs(db: Database)
    ensures Present(db) == Gather(db.executionOrder, ByExecution(db)) + Gather(db.launchOrder, ByLaunch(db))
  {
    FoundByExecution(db, db.executionOrder);
    FoundByLaunch(db, db.launchOrder);
  }

  // ---------------------------------------------------------------- one write of a restart

  lemma InterruptLaunches(db: Database, id: string, lid: LaunchId)
    requires First(db, id)
    ensures AboutLaunch(WithEnd(db, id, Interrupted, None, map[]), lid) == AboutLaunch(db, lid)
  {
  }

  lemma InterruptOthers(db: Database, id: string, other: string)
    requires First(db, id) && other != id
    ensures AboutExecution(WithEnd(db, id, Interrupted, None, map[]), other) == AboutExecution(db, other)
  {
  }

  lemma InterruptItself(db: Database, id: string)
    requires First(db, id)
    ensures var db' := WithEnd(db, id, Interrupted, None, map[]);
            && AboutExecution(db, id) == multiset{FindingOf(db, id)}
            && AboutExecution(db', id) == if Second(db', id) then multiset{FindingOf(db, id)} else multiset{}
  {
    var db' := WithEnd(db, id, Interrupted, None, map[]);
    assert !First(db', id) && FindingOf(db', id) == FindingOf(db, id);
  }

  /** Interrupting an execution with an open launch leaves its finding for the second loop; otherwise the repair is
      complete, and nothing finds it again. */
  lemma InterruptPresent(db: Database, id: string)
    requires First(db, id) && id in db.executionOrder && Distinct(db.executionOrder)
    ensures var db' := WithEnd(db, id, Interrupted, None, map[]);
            Present(db) == Present(db') + if Second(db', id) then multiset{} else multiset{FindingOf(db, id)}
  {
    var db' := WithEnd(db, id, Interrupted, None, map[]);
    var d := if Second(db', id) then multiset{} else multiset{FindingOf(db, id)};
    PresentIs(db);
    PresentIs(db');
    forall other | other in db.executionOrder && other != id
      ensures ByExecution(db)(other) == ByExecution(db')(other)
    {
      InterruptOthers(db, id, other);
    }
    InterruptItself(db, id);
    forall lid | lid in db.launchOrder
      ensures ByLaunch(db)(lid) == ByLaunch(db')(lid)
    {
      InterruptLaunches(db, id, lid);
    }
    GatherDrop(db.executionOrder, ByExecution(db), ByExecution(db'), id, d);
    GatherSame(db.launchOrder, ByLaunch(db), ByLaunch(db'));
  }

  lemma DoubtExecutions(db: Database, lid: LaunchId, id: string)
    requires lid in db.launches && db.launches[lid].state == Reserved
    ensures AboutExecution(WithState(db, lid, StartUncertain, None), id) == AboutExecution(db, id)
  {
  }

  lemma DoubtLaunches(db: Database, lid: LaunchId, other: LaunchId)
    requires lid in db.launches && db.launches[lid].state == Reserved
    ensures AboutLaunch(WithState(db, lid, StartUncertain, None), other) == AboutLaunch(db, other)
  {
  }

  /** RESERVED and START_UNCERTAIN are found alike. */
  lemma DoubtPresent(db: Database, lid: LaunchId)
    requires lid in db.launches && db.launches[lid].state == Reserved
    ensures Present(WithState(db, lid, StartUncertain, None)) == Present(db)
  {
    var db' := WithState(db, lid, StartUncertain, None);
    PresentIs(db);
    PresentIs(db');
    forall id | id in db.executionOrder
      ensures ByExecution(db)(id) == ByExecution(db')(id)
    {
      DoubtExecutions(db, lid, id);
    }
    forall other | other in db.launchOrder
      ensures ByLaunch(db)(other) == ByLaunch(db')(other)
    {
      DoubtLaunches(db, lid, other);
    }
    GatherSame(db.executionOrder, ByExecution(db), ByExecution(db'));
    GatherSame(db.launchOrder, ByLaunch(db), ByLaunch(db'));
  }

  /** An open launch past the six, not of an active execution. */
  predicate Closeable(db: Database, lid: LaunchId) {
    && lid in db.launches && Closable(db, lid) && db.launches[lid].number > 6
    && (db.launches[lid].state == Started || db.launches[lid].state == StartUncertain)
  }

  function ClosedFinding(db: Database, lid: LaunchId): Finding { Finding(Owner(db, lid), Some(lid), Some(Finished)) }

  lemma CloseOwner(db: Database, lid: LaunchId)
    requires Closeable(db, lid) && Owned(db, lid)
    ensures AboutExecution(db, lid.execution) == multiset{ClosedFinding(db, lid)}
    ensures AboutExecution(WithState(db, lid, Finished, None), lid.execution) == multiset{}
  {
    assert Second(db, lid.execution);
  }

  lemma CloseOtherExecutions(db: Database, lid: LaunchId, id: string)
    requires Linked(db) && Closeable(db, lid) && Owner(db, lid) != Some(id)
    ensures AboutExecution(WithState(db, lid, Finished, None), id) == AboutExecution(db, id)
  {
    assert id in db.executions ==> db.executions[id].launch != Some(lid);
  }

  lemma CloseItself(db: Database, lid: LaunchId)
    requires Closeable(db, lid)
    ensures AboutLaunch(db, lid) == if Owned(db, lid) then multiset{} else multiset{ClosedFinding(db, lid)}
    ensures AboutLaunch(WithState(db, lid, Finished, None), lid) == multiset{}
  {
  }

  lemma CloseOtherLaunches(db: Database, lid: LaunchId, other: LaunchId)
    requires Closeable(db, lid) && other != lid
    ensures AboutLaunch(WithState(db, lid, Finished, None), other) == AboutLaunch(db, other)
  {
  }

  lemma CloseByExecution(db: Database, lid: LaunchId)
    requires Linked(db) && Closeable(db, lid)
    requires Distinct(db.executionOrder) && forall id | id in db.executions :: id in db.executionOrder
    ensures Gather(db.executionOrder, ByExecution(db))
         == Gather(db.executionOrder, ByExecution(WithState(db, lid, Finished, None)))
            + if Owned(db, lid) then multiset{ClosedFinding(db, lid)} else multiset{}
  {
    var db' := WithState(db, lid, Finished, None);
    forall id | id in db.executionOrder && Owner(db, lid) != Some(id)
      ensures ByExecution(db)(id) == ByExecution(db')(id)
    {
      CloseOtherExecutions(db, lid, id);
    }
    if Owned(db, lid) {
      CloseOwner(db, lid);
      GatherDrop(db.executionOrder, ByExecution(db), ByExecution(db'), lid.execution, multiset{ClosedFinding(db, lid)});
    } else {
      GatherSame(db.executionOrder, ByExecution(db), ByExecution(db'));
    }
  }

  lemma CloseByLaunch(db: Database, lid: LaunchId)
    requires Closeable(db, lid) && lid in db.launchOrder && Distinct(db.launchOrder)
    ensures Gather(db.launchOrder, ByLaunch(db))
         == Gather(db.launchOrder, ByLaunch(WithState(db, lid, Finished, None)))
            + if Owned(db, lid) then multiset{} else multiset{ClosedFinding(db, lid)}
  {
    var db' := WithState(db, lid, Finished, None);
    forall other | other in db.launchOrder && other != lid
      ensures ByLaunch(db)(other) == ByLaunch(db')(other)
    {
      CloseOtherLaunches(db, lid, other);
    }
    CloseItself(db, lid);
    if Owned(db, lid) {
      GatherSame(db.launchOrder, ByLaunch(db), ByLaunch(db'));
    } else {
      GatherDrop(db.launchOrder, ByLaunch(db), ByLaunch(db'), lid, multiset{ClosedFinding(db, lid)});
    }
  }

  /** Closing a launch takes exactly its finding away. */
  lemma ClosePresent(db: Database, lid: LaunchId)
    requires Linked(db) && Closeable(db, lid) && lid in db.launchOrder && Distinct(db.launchOrder)
    requires Distinct(db.executionOrder) && forall id | id in db.executions :: id in db.executionOrder
    ensures Present(db) == Present(WithState(db, lid, Finished, None)) + multiset{ClosedFinding(db, lid)}
  {
    PresentIs(db);
    PresentIs(WithState(db, lid, Finished, None));
    CloseByExecution(db, lid);
    CloseByLaunch(db, lid);
  }

  // ---------------------------------------------------------------- the account

  /** The finding that a completed repair has not reported yet. */
  function Owing(w: World): multiset<Finding> {
    if Repaired(w) then multiset{BodyOf(DueReport(w))} else multiset{}
  }

  /** All that has been reported, is owed, or would still be found. */
  function Account(w: World): multiset<Finding> { Bodies(w.reports) + Owing(w) + Present(w.db) }

  /** What a step out of a restart leaves unreported for good. */
  function LostBetween(w: World, w': World): multiset<Finding> {
    if InRestart(w.controller) && !InRestart(w'.controller) then Owing(w) else multiset{}
  }

  /** The moves of restarts, of the processes they run in, and of their deaths. */
  predicate OfRestart(e: Event) {
    || e.Crash? || e.Reopen? || e.Restart? || e.Interrupt? || e.Doubt? || e.Close? || e.File? || e.Resume? || e.Leave?
  }

  lemma OrdersDistinct(w: World)
    requires Inv(w)
    ensures Linked(w.db) && Distinct(w.db.executionOrder) && Distinct(w.db.launchOrder)
    ensures forall id | id in w.db.executions :: id in w.db.executionOrder
    ensures forall lid | lid in w.db.launches :: lid in w.db.launchOrder
  {
    InvLinked(w);
  }

  lemma InterruptAccounts(w: World, e: Event)
    requires Inv(w) && Enabled(w, e) && e.Interrupt?
    ensures Account(Next(w, e)) == Account(w)
  {
    OrdersDistinct(w);
    InterruptIs(w, e);
    InterruptPresent(w.db, e.id);
    InterruptOwing(w, e.id);
  }

  lemma InterruptOwing(w: World, id: string)
    requires Linked(w.db) && First(w.db, id)
    ensures var db' := WithEnd(w.db, id, Interrupted, None, map[]);
            Owing(w.(db := db', controller := Repairing(Some(id), w.db.executions[id].launch)))
            == if Second(db', id) then multiset{} else multiset{FindingOf(w.db, id)}
  {
  }

  lemma DoubtAccounts(w: World, e: Event)
    requires Enabled(w, e) && e.Doubt?
    ensures Account(Next(w, e)) == Account(w)
  {
    CloseIs(w, e);
    DoubtOwing(w, e);
    DoubtPresent(w.db, e.launch);
  }

  lemma DoubtOwing(w: World, e: Event)
    requires Enabled(w, e) && e.Doubt?
    ensures w.db.launches[e.launch].state == Reserved
    ensures Owing(w) == multiset{} && Owing(Next(w, e)) == multiset{}
  {
  }

  lemma CloseAccounts(w: World, e: Event)
    requires Inv(w) && Enabled(w, e) && e.Close?
    ensures Account(Next(w, e)) == Account(w)
  {
    CloseIs(w, e);
    CloseTurned(w, e);
    assert Closeable(w.db, e.launch) by {
      OpenNumbers(w, e.launch);
    }
    assert Present(w.db) == Present(Next(w, e).db) + multiset{ClosedFinding(w.db, e.launch)} by {
      OrdersDistinct(w);
      ClosePresent(w.db, e.launch);
    }
    CloseOwing(w, e.launch);
  }

  lemma CloseTurned(w: World, e: Event)
    requires Enabled(w, e) && e.Close?
    ensures Turned(w, e.launch)
    ensures w.db.launches[e.launch].state == Started || w.db.launches[e.launch].state == StartUncertain
  {
  }

  lemma CloseOwing(w: World, lid: LaunchId)
    requires Turned(w, lid) && lid in w.db.launches && !Settled(w.db.launches[lid].state)
    ensures Owing(w) == multiset{}
    ensures Owing(w.(db := WithState(w.db, lid, Finished, None), controller := Repairing(Owner(w.db, lid), Some(lid))))
         == multiset{ClosedFinding(w.db, lid)}
  {
  }

  lemma FileAccounts(w: World, e: Event)
    requires Enabled(w, e) && e.File?
    ensures Account(Next(w, e)) == Account(w)
  {
    BodiesSnoc(w.reports, DueReport(w));
  }

  lemma MoveAccounts(w: World, e: Event)
    requires Enabled(w, e) && (e.Crash? || e.Reopen? || e.Restart? || e.Resume? || e.Leave?)
    ensures Account(Next(w, e)) + LostBetween(w, Next(w, e)) == Account(w)
  {
    hide Bodies, Present, Enabled, Next, Repaired, DueReport;
    MoveIs(w, e);
    MoveOwes(w, Next(w, e));
  }

  lemma MoveIs(w: World, e: Event)
    requires Enabled(w, e) && (e.Crash? || e.Reopen? || e.Restart? || e.Resume? || e.Leave?)
    ensures Next(w, e).db == w.db && Next(w, e).reports == w.reports && !Next(w, e).controller.Repairing?
    ensures InRestart(w.controller) ==> !InRestart(Next(w, e).controller)
  {
  }

  lemma MoveOwes(w: World, w': World)
    requires !w'.controller.Repairing? && (InRestart(w.controller) ==> !InRestart(w'.controller))
    ensures Owing(w') == multiset{} && LostBetween(w, w') == Owing(w)
  {
  }

  /** A move of a restart keeps the account; a step out of it loses exactly what is owed at that moment. */
  lemma StepAccounts(w: World, e: Event)
    requires Inv(w) && Enabled(w, e) && OfRestart(e)
    ensures Account(Next(w, e)) + LostBetween(w, Next(w, e)) == Account(w)
  {
    if e.Interrupt? || e.Doubt? || e.Close? || e.File? {
      RepairAccounts(w, e);
      RepairStaysInside(w, e);
    } else {
      MoveAccounts(w, e);
    }
  }

  lemma RepairAccounts(w: World, e: Event)
    requires Inv(w) && Enabled(w, e) && (e.Interrupt? || e.Doubt? || e.Close? || e.File?)
    ensures Account(Next(w, e)) == Account(w)
  {
    if e.Interrupt? {
      InterruptAccounts(w, e);
    } else if e.Doubt? {
      DoubtAccounts(w, e);
    } else if e.Close? {
      CloseAccounts(w, e);
    } else {
      FileAccounts(w, e);
    }
  }

  lemma RepairStaysInside(w: World, e: Event)
    requires Enabled(w, e) && (e.Interrupt? || e.Doubt? || e.Close? || e.File?)
    ensures InRestart(Next(w, e).controller) && LostBetween(w, Next(w, e)) == multiset{}
  {
  }

  // ---------------------------------------------------------------- many restarts

  /** Part of a run in which only restarts move. */
  ghost predicate Recovery(ws: seq<World>) { ws != [] && forall i | 0 < i < |ws| :: RecoversAt(ws, i) }

  ghost predicate RecoversAt(ws: seq<World>, i: nat)
    requires 0 < i < |ws|
  {
    exists e :: OfRestart(e) && Enabled(ws[i-1], e) && ws[i] == Next(ws[i-1], e)
  }

  lemma RecoveryFront(ws: seq<World>)
    requires Recovery(ws) && |ws| > 1
    ensures Recovery(ws[..|ws|-1])
  {
    var front := ws[..|ws|-1];
    forall i | 0 < i < |front|
      ensures RecoversAt(front, i)
    {
      assert RecoversAt(ws, i);
    }
  }

  /** The sum of something over all steps. */
  ghost function OverSteps(ws: seq<World>, d: (World, World) -> multiset<Finding>): multiset<Finding> {
    if |ws| <= 1 then multiset{} else OverSteps(ws[..|ws|-1], d) + d(ws[|ws|-2], ws[|ws|-1])
  }

  lemma {:induction false} Telescope(ws: seq<World>, a: World -> multiset<Finding>,
                                     d: (World, World) -> multiset<Finding>)
    requires ws != [] && forall i | 0 < i < |ws| :: a(ws[i]) + d(ws[i-1], ws[i]) == a(ws[i-1])
    ensures a(ws[|ws|-1]) + OverSteps(ws, d) == a(ws[0])
  {
    if |ws| > 1 {
      var front := ws[..|ws|-1];
      forall i | 0 < i < |front|
        ensures a(front[i]) + d(front[i-1], front[i]) == a(front[i-1])
      {
        assert a(ws[i]) + d(ws[i-1], ws[i]) == a(ws[i-1]);
      }
      Telescope(front, a, d);
    }
  }

  /** Everything that these restarts repaired without a report. */
  ghost function LostOver(ws: seq<World>): multiset<Finding> { OverSteps(ws, LostBetween) }

  /** A restart ends here without having completed. */
  predicate CutShort(w: World, w': World) {
    InRestart(w.controller) && !InRestart(w'.controller) && !(w.controller == Restarting && w'.controller == Idle)
  }

  ghost function Cuts(ws: seq<World>): nat {
    if |ws| <= 1 then 0 else Cuts(ws[..|ws|-1]) + if CutShort(ws[|ws|-2], ws[|ws|-1]) then 1 else 0
  }

  /** The restart ends between the last write of a repair and its report. */
  predicate Forgets(w: World, w': World) { Repaired(w) && !InRestart(w'.controller) }

  lemma LostAtMostOne(w: World, w': World)
    ensures |LostBetween(w, w')| == if Forgets(w, w') then 1 else 0
    ensures Forgets(w, w') ==> CutShort(w, w')
  {
  }

  lemma {:induction false} LostWithinCuts(ws: seq<World>)
    ensures |OverSteps(ws, LostBetween)| <= Cuts(ws)
  {
    if |ws| > 1 {
      LostWithinCuts(ws[..|ws|-1]);
      LostAtMostOne(ws[|ws|-2], ws[|ws|-1]);
    }
  }

  lemma StepRecovers(ws: seq<World>, i: nat)
    requires 0 < i < |ws| && RecoversAt(ws, i) && Inv(ws[i-1])
    ensures Inv(ws[i]) && Account(ws[i]) + LostBetween(ws[i-1], ws[i]) == Account(ws[i-1])
  {
    hide Inv, Account, LostBetween, Enabled, Next, OfRestart;
    var e :| OfRestart(e) && Enabled(ws[i-1], e) && ws[i] == Next(ws[i-1], e);
    StepKeepsInv(ws[i-1], e);
    StepAccounts(ws[i-1], e);
  }

  lemma {:induction false} RecoveryKeepsInv(ws: seq<World>, i: nat)
    requires Recovery(ws) && Inv(ws[0]) && i < |ws|
    ensures Inv(ws[i])
  {
    hide Inv, Account, LostBetween, RecoversAt;
    if i > 0 {
      RecoveryKeepsInv(ws, i - 1);
      assert RecoversAt(ws, i);
      StepRecovers(ws, i);
    }
  }

  lemma RecoveryStepAccounts(ws: seq<World>, i: nat)
    requires Recovery(ws) && Inv(ws[0]) && 0 < i < |ws|
    ensures Account(ws[i]) + LostBetween(ws[i-1], ws[i]) == Account(ws[i-1])
  {
    hide Inv, Account, LostBetween, RecoversAt;
    RecoveryKeepsInv(ws, i - 1);
    assert RecoversAt(ws, i);
    StepRecovers(ws, i);
  }

  /** Over any number of restarts, cut short wherever they may be: what was found or owed at the start is reported,
      owed, still found, or one of the reports lost; and each restart that is cut short loses one at most. */
  lemma RecoveryAccounts(ws: seq<World>)
    requires Recovery(ws) && Inv(ws[0])
    ensures Account(ws[|ws|-1]) + LostOver(ws) == Account(ws[0])
    ensures |LostOver(ws)| <= Cuts(ws)
  {
    hide Inv, Account, LostBetween, RecoversAt, Cuts;
    forall i | 0 < i < |ws|
      ensures Account(ws[i]) + LostBetween(ws[i-1], ws[i]) == Account(ws[i-1])
    {
      RecoveryStepAccounts(ws, i);
    }
    Telescope(ws, Account, LostBetween);
    LostWithinCuts(ws);
  }

  /** The steps lose nothing exactly when none of them ends a restart between a repair's last write and its report. */
  lemma {:induction false} LostOverExactly(ws: seq<World>)
    requires Recovery(ws)
    ensures LostOver(ws) == multiset{} <==> forall i | 0 < i < |ws| :: !Forgets(ws[i-1], ws[i])
  {
    if |ws| > 1 {
      var front := ws[..|ws|-1];
      RecoveryFront(ws);
      LostOverExactly(front);
      LostAtMostOne(ws[|ws|-2], ws[|ws|-1]);
      forall i | 0 < i < |front|
        ensures Forgets(front[i-1], front[i]) == Forgets(ws[i-1], ws[i])
      {
      }
    }
  }

  /** Once a restart has completed, everything that was ever found is reported, but for the lost reports. */
  lemma CompletedRecoveryAccounts(ws: seq<World>)
    requires Recovery(ws) && Inv(ws[0]) && !InRestart(ws[0].controller)
    requires !InRestart(ws[|ws|-1].controller) && Clean(ws[|ws|-1].db)
    ensures Bodies(ws[|ws|-1].reports) + LostOver(ws) == Bodies(ws[0].reports) + Present(ws[0].db)
  {
    hide Inv, Present, Clean, LostOver, Cuts;
    RecoveryAccounts(ws);
    CleanAtTheEnd(ws);
    assert Account(ws[0]) == Bodies(ws[0].reports) + Present(ws[0].db);
    assert Account(ws[|ws|-1]) == Bodies(ws[|ws|-1].reports);
  }

  lemma Cancel<T>(a: multiset<T>, b: multiset<T>, c: multiset<T>)
    requires a + b == a + c
    ensures b == c
  {
    assert (a + b) - a == b;
    assert (a + c) - a == c;
  }

  /** The reports of a completed recovery are those at its start and one for everything found then, if and only if
      no restart ended between the last write of a repair and its report. */
  lemma ReportsCompleteExactly(ws: seq<World>)
    requires Recovery(ws) && Inv(ws[0]) && !InRestart(ws[0].controller)
    requires !InRestart(ws[|ws|-1].controller) && Clean(ws[|ws|-1].db)
    ensures Bodies(ws[|ws|-1].reports) == Bodies(ws[0].reports) + Present(ws[0].db)
       <==> forall i | 0 < i < |ws| :: !Forgets(ws[i-1], ws[i])
  {
    hide Inv, Present, Clean, LostOver, Bodies, Forgets;
    CompletedRecoveryAccounts(ws);
    LostOverExactly(ws);
    var now := Bodies(ws[|ws|-1].reports);
    if now == Bodies(ws[0].reports) + Present(ws[0].db) {
      assert now + LostOver(ws) == now + multiset{};
      Cancel(now, LostOver(ws), multiset{});
    }
  }

  lemma CleanAtTheEnd(ws: seq<World>)
    requires Recovery(ws) && Inv(ws[0]) && Clean(ws[|ws|-1].db)
    ensures Present(ws[|ws|-1].db) == multiset{}
  {
    RecoveryKeepsInv(ws, |ws| - 1);
    CleanIsFixed(ws[|ws|-1]);
  }

  // ---------------------------------------------------------------- one restart

  lemma InsideOnlyRestarts(w: World, e: Event)
    requires Enabled(w, e) && InRestart(w.controller)
    ensures OfRestart(e)
  {
  }

  lemma StepInside(w: World, w': World)
    requires Inv(w) && Step(w, w') && InRestart(w.controller)
    ensures Account(w') + LostBetween(w, w') == Account(w)
  {
    hide Inv, Enabled, Next, Account, LostBetween, InRestart;
    var e :| Enabled(w, e) && w' == Next(w, e);
    InsideOnlyRestarts(w, e);
    StepAccounts(w, e);
  }

  lemma StepInsideAt(ws: seq<World>, k: nat)
    requires IsRun(ws) && 0 < k < |ws| && InRestart(ws[k-1].controller)
    ensures Account(ws[k]) + LostBetween(ws[k-1], ws[k]) == Account(ws[k-1])
  {
    hide Inv, Step, Account, LostBetween, InRestart;
    RunsKeepInv(ws, k - 1);
    assert Arises(ws, k);
    StepInside(ws[k-1], ws[k]);
  }

  /** What a stretch of history inside one restart has lost: what was owed when it left the restart, if it did. */
  ghost function LostAfter(ws: seq<World>, i: nat): multiset<Finding> {
    if i + 1 < |ws| then LostBetween(ws[|ws|-2], ws[|ws|-1]) else multiset{}
  }

  lemma {:induction false} InsideAccounts(ws: seq<World>, i: nat, k: nat)
    requires IsRun(ws) && i <= k < |ws| && forall j | i <= j < k :: InRestart(ws[j].controller)
    ensures Account(ws[k]) + (if i < k then LostBetween(ws[k-1], ws[k]) else multiset{}) == Account(ws[i])
  {
    hide IsRun, Account, Owing;
    if i < k {
      InsideAccounts(ws, i, k - 1);
      StepInsideAt(ws, k);
    }
  }
}
