/** The restart of a campaign: the three repairing loops of `_reconcile_unfinished`
    (src/kuairand_agent/campaign/controller.py), each write of which may fail or be the last of its process. */
module Restart {
  import opened Results
  import opened CampaignDatabase
  import opened LedgerRebuild
  import opened CampaignProtocol
  import opened CampaignInvariant
  import opened CampaignStore
  import opened CandidateJournal
  import opened Reconciliation
  import opened RestartAccounting

  /** What holds after a reconciliation, complete or cut short anywhere. */
  ghost predicate Kept(w: World, w': World) {
    && w'.released == w.released && w.reports <= w'.reports
    && w'.db.(executions := w.db.executions, launches := w.db.launches) == w.db
  }

  function OutcomeOf(ack: Ack): Outcome {
    match ack
    case Landed => Done
    case Died => Dead
    case _ => Raised
  }

  ghost function Last(ws: seq<World>): World
    requires ws != []
  {
    ws[|ws|-1]
  }

  /** A call made inside a restart: the history stays there up to the call's end, where it may be cut off by the
      death of the process. */
  ghost predicate Worked(before: seq<World>, after: seq<World>, r: Outcome) {
    && before != [] && before <= after && Kept(Last(before), Last(after))
    && (forall k | |before| - 1 <= k < |after| - 1 :: InRestart(after[k].controller))
    && r != Inconsistent && (if r == Dead then Last(after).controller == Down else InRestart(Last(after).controller))
    && (r == Dead ==> before != after)
  }

  lemma WorkedJoin(a: seq<World>, b: seq<World>, c: seq<World>, r: Outcome)
    requires Worked(a, b, Done) && Worked(b, c, r)
    ensures Worked(a, c, r)
  {
    forall k | |a| - 1 <= k < |c| - 1
      ensures InRestart(c[k].controller)
    {
      if k < |b| - 1 {
        assert c[k] == b[k];
      }
    }
  }

  lemma NothingWorked(a: seq<World>)
    requires a != [] && InRestart(Last(a).controller)
    ensures Worked(a, a, Done)
  {
  }

  lemma LoggedWorks(before: seq<World>, after: seq<World>, e: Event, ack: Ack, next: World)
    requires before != [] && Logged(before, after, e, ack) && Enabled(Last(before), e) && next == Next(Last(before), e)
    requires InRestart(Last(before).controller) && InRestart(next.controller) && Kept(Last(before), next)
    ensures Worked(before, after, OutcomeOf(ack))
    ensures OutcomeOf(ack) == Done ==> Last(after) == next
  {
    hide Enabled, Next;
  }

  /** The account of a call: what it reported, what is owed, still to be found, or lost with its process. */
  ghost predicate Squared(before: seq<World>, after: seq<World>)
    requires before != [] && after != []
  {
    Account(Last(after)) + LostAfter(after, |before| - 1) == Account(Last(before))
  }

  /** However a call inside a restart ends, the account is square. */
  lemma WorkedSquares(before: seq<World>, after: seq<World>, r: Outcome)
    requires IsRun(after) && Worked(before, after, r)
    ensures Squared(before, after)
  {
    hide Account, IsRun, LostBetween;
    InsideAccounts(after, |before| - 1, |after| - 1);
  }

  /** The world in which the repair of a launch has begun or ended. */
  function Turning(w: World, lid: LaunchId, to: LaunchState): World
    requires lid in w.db.launches
  {
    w.(db := WithState(w.db, lid, to, None), controller := Repairing(Owner(w.db, lid), Some(lid)))
  }

  lemma DoubtWrites(w: World, lid: LaunchId)
    requires Turned(w, lid) && lid in w.db.launches && Closable(w.db, lid)
    requires w.db.launches[lid].state == Reserved
    ensures Writes(w, Doubt(lid), WithState(w.db, lid, StartUncertain, None))
    ensures Next(w, Doubt(lid)) == Turning(w, lid, StartUncertain) && Kept(w, Turning(w, lid, StartUncertain))
    ensures InRestart(w.controller)
  {
  }

  lemma CloseWrites(w: World, lid: LaunchId)
    requires Turned(w, lid) && lid in w.db.launches && Closable(w.db, lid)
    requires w.db.launches[lid].state == Started || w.db.launches[lid].state == StartUncertain
    ensures Writes(w, Close(lid), WithState(w.db, lid, Finished, None))
    ensures Next(w, Close(lid)) == Turning(w, lid, Finished) && Kept(w, Turning(w, lid, Finished))
    ensures InRestart(w.controller)
  {
  }

  /** The world in which the repair of an execution has begun. */
  function Interrupting(w: World, id: string): World
    requires id in w.db.executions
  {
    w.(db := WithEnd(w.db, id, Interrupted, None, map[]), controller := Repairing(Some(id), w.db.executions[id].launch))
  }

  lemma InterruptWrites(w: World, id: string)
    requires w.controller == Restarting && First(w.db, id)
    ensures Writes(w, Interrupt(id), WithEnd(w.db, id, Interrupted, None, map[]))
    ensures Next(w, Interrupt(id)) == Interrupting(w, id) && Kept(w, Interrupting(w, id))
  {
  }

  lemma FileMoves(w: World)
    requires Repaired(w)
    ensures Enabled(w, File)
    ensures Next(w, File) == w.(reports := w.reports + [DueReport(w)], controller := Restarting)
  {
  }

  /** RESERVED becomes START_UNCERTAIN: a restart cannot prove that nothing was released. */
  method DoubtLaunch(store: CampaignStore, lid: LaunchId) returns (r: Outcome)
    requires store.Valid() && Turned(store.Now(), lid) && lid in store.db.launches && Closable(store.db, lid)
    requires store.db.launches[lid].state == Reserved
    modifies store
    ensures store.faults == old(store.faults) + if r == Done then 0 else 1
    ensures store.Valid() && Worked(old(store.trace), store.trace, r)
    ensures r == Done ==> store.Now() == Turning(old(store.Now()), lid, StartUncertain)
  {
    hide Inv, IsRun, Enabled, Next, Closable, Turned;
    DoubtWrites(store.Now(), lid);
    var ack := store.TransitionLaunch(lid, StartUncertain, None, true, Doubt(lid));
    LoggedWorks(old(store.trace), store.trace, Doubt(lid), ack, Turning(old(store.Now()), lid, StartUncertain));
    r := OutcomeOf(ack);
  }

  method FinishLaunch(store: CampaignStore, lid: LaunchId) returns (r: Outcome)
    requires store.Valid() && Turned(store.Now(), lid) && lid in store.db.launches && Closable(store.db, lid)
    requires store.db.launches[lid].state == Started || store.db.launches[lid].state == StartUncertain
    modifies store
    ensures store.faults == old(store.faults) + if r == Done then 0 else 1
    ensures store.Valid() && Worked(old(store.trace), store.trace, r)
    ensures r == Done ==> store.Now() == Turning(old(store.Now()), lid, Finished)
  {
    hide Inv, IsRun, Enabled, Next, Closable, Turned;
    CloseWrites(store.Now(), lid);
    var ack := store.TransitionLaunch(lid, Finished, None, true, Close(lid));
    LoggedWorks(old(store.trace), store.trace, Close(lid), ack, Turning(old(store.Now()), lid, Finished));
    r := OutcomeOf(ack);
  }

  /** The world in which a launch is closed and waits for its report. A settled launch was not touched. */
  function ClosedBy(w: World, lid: LaunchId): World
    requires lid in w.db.launches
  {
    if Settled(w.db.launches[lid].state) then w
    else w.(db := CloseLaunch(w.db, lid), controller := Repairing(Owner(w.db, lid), Some(lid)))
  }

  lemma DoubtedStays(w: World, lid: LaunchId)
    requires lid in w.db.launches && Closable(w.db, lid) && w.db.launches[lid].state == Reserved
    ensures var w' := Turning(w, lid, StartUncertain);
            && Turned(w', lid) && lid in w'.db.launches && Closable(w'.db, lid)
            && w'.db.launches[lid].state == StartUncertain && Turning(w', lid, Finished) == ClosedBy(w, lid)
  {
  }

  lemma FinishedIs(w: World, lid: LaunchId)
    requires lid in w.db.launches
    requires w.db.launches[lid].state == Started || w.db.launches[lid].state == StartUncertain
    ensures Turning(w, lid, Finished) == ClosedBy(w, lid)
  {
  }

  /** `_finish_reconciled_launch` */
  method FinishReconciledLaunch(store: CampaignStore, lid: LaunchId) returns (r: Outcome, state: LaunchState)
    requires store.Valid() && Turned(store.Now(), lid) && lid in store.db.launches && Closable(store.db, lid)
    modifies store
    ensures store.faults == old(store.faults) + if r == Done then 0 else 1
    ensures store.Valid() && Worked(old(store.trace), store.trace, r)
    ensures r == Done ==> store.Now() == ClosedBy(old(store.Now()), lid)
    ensures r == Done ==> state == ClosedState(old(store.db.launches)[lid].state)
  {
    hide Inv, IsRun, Closable, Worked;
    state := Finished;
    ghost var w, start := store.Now(), store.trace;
    NothingWorked(start);
    if store.db.launches[lid].state == Reserved {
      DoubtedStays(w, lid);
      r := DoubtLaunch(store, lid);
      if r != Done {
        return;
      }
    }
    ghost var middle := store.trace;
    if store.db.launches[lid].state == Started || store.db.launches[lid].state == StartUncertain {
      FinishedIs(store.Now(), lid);
      r := FinishLaunch(store, lid);
      WorkedJoin(start, middle, store.trace, r);
      if r != Done {
        return;
      }
    }
    state := store.db.launches[lid].state;
    r := Done;
  }

  function Numbered(sequence: nat, f: Finding): Report { Report(sequence, f.execution, f.launch, f.launchState) }

  /** The report that the repair under way ends with. Its number is how many reports there were at the start plus
      the running count. */
  method FileFinding(store: CampaignStore, sequence: nat, f: Finding) returns (r: Outcome)
    requires store.Valid() && Repaired(store.Now()) && DueReport(store.Now()) == Numbered(sequence, f)
    modifies store
    ensures store.faults == old(store.faults) + if r == Done then 0 else 1
    ensures store.Valid() && Worked(old(store.trace), store.trace, r)
    ensures r == Done ==>
              store.Now()
              == old(store.Now()).(reports := old(store.reports) + [Numbered(sequence, f)], controller := Restarting)
  {
    hide Inv, IsRun, Enabled, Next;
    FileMoves(store.Now());
    var ack := store.WriteReport(Numbered(sequence, f));
    LoggedWorks(old(store.trace), store.trace, File, ack,
                old(store.Now()).(reports := old(store.reports) + [Numbered(sequence, f)], controller := Restarting));
    r := OutcomeOf(ack);
  }

  // ---------------------------------------------------------------- pass one

  method InterruptExecution(store: CampaignStore, id: string) returns (r: Outcome)
    requires store.Valid() && store.controller == Restarting && First(store.db, id)
    modifies store
    ensures store.faults == old(store.faults) + if r == Done then 0 else 1
    ensures store.Valid() && Worked(old(store.trace), store.trace, r)
    ensures r == Done ==> store.Now() == Interrupting(old(store.Now()), id)
  {
    hide Inv, IsRun, Enabled, Next;
    InterruptWrites(store.Now(), id);
    var status := store.db.executions[id].status;
    var ack := store.EndExecution(id, status, Interrupted, None, map[], true, Interrupt(id));
    LoggedWorks(old(store.trace), store.trace, Interrupt(id), ack, Interrupting(old(store.Now()), id));
    r := OutcomeOf(ack);
  }

  /** After its interruption the execution's launch may be closed. */
  lemma InterruptedTurns(w: World, id: string)
    requires Linked(w.db) && First(w.db, id) && w.db.executions[id].launch.Some?
    ensures var lid, w' := w.db.executions[id].launch.value, Interrupting(w, id);
            Turned(w', lid) && lid in w'.db.launches && Closable(w'.db, lid) && Owner(w'.db, lid) == Some(id)
  {
  }

  /** When the interruption, and the closing of the launch if there is one, is done, the finding is due. */
  lemma InterruptedIsDue(w: World, id: string, sequence: nat)
    requires w.controller == Restarting && Linked(w.db) && First(w.db, id) && sequence == |w.reports| + 1
    ensures var w' := RepairedBy(w, id);
            && Repaired(w') && DueReport(w') == Numbered(sequence, FindingOf(w.db, id))
            && w'.(reports := w'.reports + [Numbered(sequence, FindingOf(w.db, id))], controller := Restarting)
               == Turn1(w, id, sequence)
  {
    if w.db.executions[id].launch.Some? {
      InterruptedTurns(w, id);
    }
  }

  function RepairedBy(w: World, id: string): World
    requires Linked(w.db) && First(w.db, id)
  {
    var launch := w.db.executions[id].launch;
    if launch.Some? then ClosedBy(Interrupting(w, id), launch.value) else Interrupting(w, id)
  }

  /** What one turn of the first loop makes of the world. */
  function Turn1(w: World, id: string, sequence: nat): World
    requires id in w.db.executions
  {
    if First(w.db, id) then
      w.(db := InterruptOne(w.db, id), reports := w.reports + [Numbered(sequence, FindingOf(w.db, id))])
    else w
  }

  /** One turn of the first loop: interrupt the execution, close its launch, file the report. */
  method InterruptAndFile(store: CampaignStore, id: string, sequence: nat) returns (r: Outcome)
    requires store.Valid() && store.controller == Restarting && First(store.db, id) && sequence == |store.reports| + 1
    requires Linked(store.db)
    modifies store
    ensures store.faults == old(store.faults) + if r == Done then 0 else 1
    ensures store.Valid() && Worked(old(store.trace), store.trace, r)
    ensures r == Done ==> store.Now() == Turn1(old(store.Now()), id, sequence)
  {
    hide Inv, IsRun, Worked, Repaired, DueReport, Turn1;
    ghost var w, start := store.Now(), store.trace;
    var lid := store.db.executions[id].launch;
    var launchState;
    r, launchState := Repair(store, id);
    if r != Done {
      return;
    }
    ghost var middle := store.trace;
    InterruptedIsDue(w, id, sequence);
    r := FileFinding(store, sequence, Finding(Some(id), lid, launchState));
    WorkedJoin(start, middle, store.trace, r);
  }

  /** The store writes of one turn. */
  method Repair(store: CampaignStore, id: string) returns (r: Outcome, launchState: Option<LaunchState>)
    requires store.Valid() && store.controller == Restarting && First(store.db, id) && Linked(store.db)
    modifies store
    ensures store.faults == old(store.faults) + if r == Done then 0 else 1
    ensures store.Valid() && Worked(old(store.trace), store.trace, r)
    ensures r == Done ==>
              && store.Now() == RepairedBy(old(store.Now()), id)
              && launchState == FindingOf(old(store.db), id).launchState
  {
    hide Inv, IsRun, Worked;
    ghost var w, start := store.Now(), store.trace;
    var lid := store.db.executions[id].launch;
    launchState := None;
    r := InterruptExecution(store, id);
    if r != Done {
      return;
    }
    if lid.Some? {
      ghost var middle := store.trace;
      InterruptedTurns(w, id);
      var state;
      r, state := FinishReconciledLaunch(store, lid.value);
      WorkedJoin(start, middle, store.trace, r);
      launchState := Some(state);
    }
  }

  /** An execution that the first loop has not reached yet is as it was. */
  lemma FirstUnmoved(db: Database, n: nat)
    requires Linked(db) && ExecutionOrderOk(db) && n < |db.executionOrder|
    ensures var id, db' := db.executionOrder[n], Pass1(db, db.executionOrder[..n]);
            First(db', id) == First(db, id) && id in db'.executions && FindingOf(db', id) == FindingOf(db, id)
  {
    var ids := db.executionOrder[..n];
    var id := db.executionOrder[n];
    Pass1Rows(db, ids);
    if db.executions[id].launch.Some? {
      Pass1At(db, ids, CandidateLaunch(id));
    }
  }

  /** The state after n turns of the first loop. */
  ghost function After1(w: World, n: nat): World
    requires n <= |w.db.executionOrder|
  {
    var ids := w.db.executionOrder[..n];
    w.(db := Pass1(w.db, ids), reports := w.reports + Filed(|w.reports|, Found1(w.db, ids)))
  }

  lemma Filed1Step(db: Database, n: nat, existing: nat)
    requires ExecutionOrderOk(db) && n < |db.executionOrder|
    ensures db.executionOrder[n] in db.executions
    ensures Filed(existing, Found1(db, db.executionOrder[..n+1]))
         == Filed(existing, Found1(db, db.executionOrder[..n]))
            + if First(db, db.executionOrder[n])
              then [Numbered(existing + |Found1(db, db.executionOrder[..n])| + 1, FindingOf(db, db.executionOrder[n]))]
              else []
  {
    var ids := db.executionOrder[..n];
    assert db.executionOrder[..n+1][..n] == ids;
    FiledSnoc(existing, Found1(db, ids), FindingOf(db, db.executionOrder[n]));
    assert Found1(db, ids) + [] == Found1(db, ids);
  }

  lemma Pass1Step(db: Database, n: nat)
    requires n < |db.executionOrder|
    ensures Pass1(db, db.executionOrder[..n+1]) == InterruptOne(Pass1(db, db.executionOrder[..n]), db.executionOrder[n])
  {
    assert db.executionOrder[..n+1][..n] == db.executionOrder[..n];
  }

  lemma TurnIs(w: World, id: string, sequence: nat, db: Database, reports: seq<Report>)
    requires id in w.db.executions && db == InterruptOne(w.db, id)
    requires reports
          == w.reports + if First(w.db, id) then [Numbered(sequence, FindingOf(w.db, id))] else []
    ensures w.(db := db, reports := reports) == Turn1(w, id, sequence)
  {
  }

  lemma After1Step(w: World, n: nat)
    requires Linked(w.db) && ExecutionOrderOk(w.db) && n < |w.db.executionOrder|
    ensures w.db.executionOrder[n] in After1(w, n).db.executions && w.db.executionOrder[n] in w.db.executions
    ensures First(After1(w, n).db, w.db.executionOrder[n]) == First(w.db, w.db.executionOrder[n])
    ensures After1(w, n + 1)
         == Turn1(After1(w, n), w.db.executionOrder[n], |w.reports| + |Found1(w.db, w.db.executionOrder[..n])| + 1)
  {
    FirstUnmoved(w.db, n);
    Filed1Step(w.db, n, |w.reports|);
    Pass1Step(w.db, n);
    var w' := After1(w, n);
    TurnIs(w', w.db.executionOrder[n], |w.reports| + |Found1(w.db, w.db.executionOrder[..n])| + 1,
           Pass1(w.db, w.db.executionOrder[..n+1]), After1(w, n + 1).reports);
  }

  lemma Found1Step(db: Database, n: nat)
    requires n < |db.executionOrder|
    ensures var id := db.executionOrder[n];
            |Found1(db, db.executionOrder[..n+1])|
            == |Found1(db, db.executionOrder[..n])| + (if First(db, id) then 1 else 0)
  {
    assert db.executionOrder[..n+1][..n] == db.executionOrder[..n];
  }

  lemma After1Kept(w: World, n: nat)
    requires Linked(w.db) && n <= |w.db.executionOrder|
    ensures Kept(w, After1(w, n)) && After1(w, n).controller == w.controller
    ensures |After1(w, n).reports| == |w.reports| + |Found1(w.db, w.db.executionOrder[..n])|
  {
    Pass1Rows(w.db, w.db.executionOrder[..n]);
  }

  lemma After1Start(w: World)
    ensures After1(w, 0) == w && Found1(w.db, w.db.executionOrder[..0]) == []
  {
    assert w.db.executionOrder[..0] == [];
    assert w.reports + [] == w.reports;
  }

  /** The body of the first loop for an execution that was active when the loop began. */
  method TurnOne(store: CampaignStore, ghost w: World, ghost n: nat, id: string, sequence: nat) returns (r: Outcome)
    requires store.Valid() && store.controller == Restarting && Linked(w.db) && ExecutionOrderOk(w.db)
    requires n < |w.db.executionOrder| && id == w.db.executionOrder[n] && First(w.db, id)
    requires store.Now() == After1(w, n) && sequence == |w.reports| + |Found1(w.db, w.db.executionOrder[..n])| + 1
    modifies store
    ensures store.faults == old(store.faults) + if r == Done then 0 else 1
    ensures store.Valid() && Worked(old(store.trace), store.trace, r) && Squared(old(store.trace), store.trace)
    ensures r == Done ==> store.Now() == After1(w, n + 1)
  {
    hide Inv, IsRun, Worked, Linked, ExecutionOrderOk, Squared, Turn1;
    After1Step(w, n);
    After1Kept(w, n);
    Pass1Linked(w.db, w.db.executionOrder[..n]);
    r := InterruptAndFile(store, id, sequence);
    WorkedSquares(old(store.trace), store.trace, r);
  }

  lemma After1Skip(w: World, n: nat)
    requires Linked(w.db) && ExecutionOrderOk(w.db) && n < |w.db.executionOrder|
    requires !First(w.db, w.db.executionOrder[n])
    ensures After1(w, n + 1) == After1(w, n)
  {
    After1Step(w, n);
  }

  /** The first loop, over the executions that were active when it began. */
  method PassOne(store: CampaignStore, failedCleanup: set<string>) returns (r: Outcome, count: nat, unsafe: bool)
    requires store.Valid() && store.controller == Restarting
    requires Linked(store.db) && ExecutionOrderOk(store.db)
    modifies store
    ensures store.faults == old(store.faults) + if r == Done then 0 else 1
    ensures store.Valid() && Worked(old(store.trace), store.trace, r) && Squared(old(store.trace), store.trace)
    ensures r == Done ==> store.Now() == After1(old(store.Now()), |old(store.db.executionOrder)|)
    ensures r == Done ==> count == |Found1(old(store.db), old(store.db.executionOrder))|
    ensures r == Done ==>
              (unsafe <==> exists id :: id in old(store.db.executions) && old(store.db.executions)[id].status == Running
                                        && id in failedCleanup)
  {
    hide Inv, IsRun, Worked, Linked, ExecutionOrderOk, Squared, First;
    ghost var w, start := store.Now(), store.trace;
    var existing := |store.reports|;
    var order, executions := store.db.executionOrder, store.db.executions;
    count, unsafe := 0, false;
    After1Start(w);
    NothingWorked(start);
    for n := 0 to |order|
      invariant store.Valid() && Worked(start, store.trace, Done)
      invariant store.Now() == After1(w, n) && store.controller == Restarting
      invariant count == |Found1(w.db, order[..n])|
      invariant unsafe <==> FailedAmong(executions, order[..n], failedCleanup)
      invariant store.faults == old(store.faults)
    {
      Found1Step(w.db, n);
      FailedStep(executions, order, n, failedCleanup);
      ListedExists(w.db, n);
      var record := executions[order[n]];
      if Unfinished(record.status) {
        unsafe := unsafe || (record.status == Running && order[n] in failedCleanup);
        ghost var middle := store.trace;
        r := TurnOne(store, w, n, order[n], existing + count + 1);
        WorkedJoin(start, middle, store.trace, r);
        if r != Done {
          WorkedSquares(start, store.trace, r);
          return;
        }
        count := count + 1;
      } else {
        After1Skip(w, n);
      }
    }
    assert order[..|order|] == order;
    FailedAnywhere(w.db, failedCleanup);
    r := Done;
    WorkedSquares(start, store.trace, r);
  }

  /** The cleanup of some running execution among these has failed. */
  predicate FailedAmong(executions: map<string, Execution>, ids: seq<string>, failedCleanup: set<string>) {
    exists id :: id in ids && id in executions && executions[id].status == Running && id in failedCleanup
  }

  lemma FailedStep(executions: map<string, Execution>, order: seq<string>, n: nat, failedCleanup: set<string>)
    requires n < |order|
    ensures FailedAmong(executions, order[..n+1], failedCleanup)
       <==> || FailedAmong(executions, order[..n], failedCleanup)
            || (order[n] in executions && executions[order[n]].status == Running && order[n] in failedCleanup)
  {
    assert order[..n+1] == order[..n] + [order[n]];
    if FailedAmong(executions, order[..n], failedCleanup) {
      var id :| id in order[..n] && id in executions && executions[id].status == Running && id in failedCleanup;
      assert id in order[..n+1];
    }
  }

  lemma FailedAnywhere(db: Database, failedCleanup: set<string>)
    requires ExecutionOrderOk(db)
    ensures FailedAmong(db.executions, db.executionOrder, failedCleanup)
       <==> exists id :: id in db.executions && db.executions[id].status == Running && id in failedCleanup
  {
    if id :| id in db.executions && db.executions[id].status == Running && id in failedCleanup {
      assert id in db.executionOrder;
    }
  }

  lemma ListedExists(db: Database, n: nat)
    requires ExecutionOrderOk(db) && n < |db.executionOrder|
    ensures db.executionOrder[n] in db.executions
    ensures First(db, db.executionOrder[n]) == Unfinished(db.executions[db.executionOrder[n]].status)
  {
  }

  // ---------------------------------------------------------------- passes two and three

  /** Close one launch that no active execution owns, and file the report. */
  method CloseAndFile(store: CampaignStore, execution: Option<string>, lid: LaunchId, sequence: nat)
    returns (r: Outcome)
    requires store.Valid() && store.controller == Restarting && sequence == |store.reports| + 1
    requires Due(store.db, execution, lid)
    modifies store
    ensures store.faults == old(store.faults) + if r == Done then 0 else 1
    ensures store.Valid() && Worked(old(store.trace), store.trace, r) && Squared(old(store.trace), store.trace)
    ensures r == Done ==> store.Now() == Closed(old(store.Now()), execution, lid, sequence)
  {
    hide Inv, IsRun, Worked, Squared;
    ghost var w, start := store.Now(), store.trace;
    var state;
    r, state := FinishReconciledLaunch(store, lid);
    if r == Done {
      ghost var middle := store.trace;
      ClosedIsDue(w, execution, lid, sequence);
      r := FileFinding(store, sequence, Finding(execution, Some(lid), Some(state)));
      WorkedJoin(start, middle, store.trace, r);
    }
    WorkedSquares(start, store.trace, r);
  }

  /** An open launch that may be closed, and the execution that owns it, if any. */
  predicate Due(db: Database, execution: Option<string>, lid: LaunchId) {
    && lid in db.launches && Closable(db, lid) && !Settled(db.launches[lid].state) && Owner(db, lid) == execution
  }

  lemma ClosedIsDue(w: World, execution: Option<string>, lid: LaunchId, sequence: nat)
    requires w.controller == Restarting && Due(w.db, execution, lid) && sequence == |w.reports| + 1
    ensures var w', f := ClosedBy(w, lid), Finding(execution, Some(lid), Some(ClosedState(w.db.launches[lid].state)));
            && Repaired(w') && DueReport(w') == Numbered(sequence, f)
            && w'.(reports := w'.reports + [Numbered(sequence, f)], controller := Restarting)
               == Closed(w, execution, lid, sequence)
  {
  }

  function Closed(w: World, execution: Option<string>, lid: LaunchId, sequence: nat): World
    requires lid in w.db.launches
  {
    var f := Finding(execution, Some(lid), Some(ClosedState(w.db.launches[lid].state)));
    w.(db := CloseLaunch(w.db, lid), reports := w.reports + [Numbered(sequence, f)])
  }

  ghost function After2(w: World, n: nat): World
    requires n <= |w.db.executionOrder|
  {
    var ids := w.db.executionOrder[..n];
    w.(db := Pass2(w.db, ids), reports := w.reports + Filed(|w.reports|, Found2(w.db, ids)))
  }

  /** The second loop decides on the launches as they were before it; closing one launch moves no other. */
  lemma SecondStays(db: Database, n: nat)
    requires Linked(db) && ExecutionOrderOk(db) && n < |db.executionOrder|
    ensures var id, db' := db.executionOrder[n], Pass2(db, db.executionOrder[..n]);
            && id in db.executions && id in db'.executions && Second(db', id) == Second(db, id)
            && db'.executions[id] == db.executions[id]
            && (db.executions[id].launch.Some? ==>
                  && db.executions[id].launch.value in db.launches && db.executions[id].launch.value in db'.launches
                  && db'.launches[db.executions[id].launch.value] == db.launches[db.executions[id].launch.value])
  {
    Pass2At(db, db.executionOrder[..n]);
  }

  lemma Filed2Step(db: Database, n: nat, existing: nat)
    requires ExecutionOrderOk(db) && n < |db.executionOrder|
    ensures db.executionOrder[n] in db.executions
    ensures Filed(existing, Found2(db, db.executionOrder[..n+1]))
         == Filed(existing, Found2(db, db.executionOrder[..n]))
            + if Second(db, db.executionOrder[n])
              then [Numbered(existing + |Found2(db, db.executionOrder[..n])| + 1, FindingOf(db, db.executionOrder[n]))]
              else []
    ensures |Found2(db, db.executionOrder[..n+1])|
         == |Found2(db, db.executionOrder[..n])| + if Second(db, db.executionOrder[n]) then 1 else 0
  {
    var ids := db.executionOrder[..n];
    assert db.executionOrder[..n+1][..n] == ids;
    FiledSnoc(existing, Found2(db, ids), FindingOf(db, db.executionOrder[n]));
    assert Found2(db, ids) + [] == Found2(db, ids);
  }

  lemma After2Step(w: World, n: nat)
    requires Linked(w.db) && ExecutionOrderOk(w.db) && n < |w.db.executionOrder|
    requires Second(w.db, w.db.executionOrder[n])
    ensures var id := w.db.executionOrder[n];
            var lid := w.db.executions[id].launch.value;
            && Due(After2(w, n).db, Some(id), lid)
            && After2(w, n + 1)
               == Closed(After2(w, n), Some(id), lid, |w.reports| + |Found2(w.db, w.db.executionOrder[..n])| + 1)
  {
    SecondStays(w.db, n);
    Filed2Step(w.db, n, |w.reports|);
    assert w.db.executionOrder[..n+1][..n] == w.db.executionOrder[..n];
  }

  lemma After2Skip(w: World, n: nat)
    requires Linked(w.db) && ExecutionOrderOk(w.db) && n < |w.db.executionOrder|
    requires !Second(w.db, w.db.executionOrder[n])
    ensures After2(w, n + 1) == After2(w, n)
  {
    SecondStays(w.db, n);
    Filed2Step(w.db, n, |w.reports|);
    assert w.db.executionOrder[..n+1][..n] == w.db.executionOrder[..n];
    var base := Filed(|w.reports|, Found2(w.db, w.db.executionOrder[..n]));
    assert base + [] == base;
  }

  lemma After2Kept(w: World, n: nat)
    requires Linked(w.db) && n <= |w.db.executionOrder|
    ensures Kept(w, After2(w, n)) && After2(w, n).controller == w.controller
    ensures |After2(w, n).reports| == |w.reports| + |Found2(w.db, w.db.executionOrder[..n])|
  {
    Pass2At(w.db, w.db.executionOrder[..n]);
  }

  lemma After2Start(w: World)
    ensures After2(w, 0) == w && Found2(w.db, w.db.executionOrder[..0]) == []
  {
    assert w.db.executionOrder[..0] == [];
    assert w.reports + [] == w.reports;
  }

  /** The body of the second loop for an execution whose launch is still open. */
  method TurnTwo(store: CampaignStore, ghost w: World, ghost n: nat, id: string, lid: LaunchId, sequence: nat)
    returns (r: Outcome)
    requires store.Valid() && store.controller == Restarting && Linked(w.db) && ExecutionOrderOk(w.db)
    requires n < |w.db.executionOrder| && id == w.db.executionOrder[n] && Second(w.db, id)
    requires w.db.executions[id].launch == Some(lid)
    requires store.Now() == After2(w, n) && sequence == |w.reports| + |Found2(w.db, w.db.executionOrder[..n])| + 1
    modifies store
    ensures store.faults == old(store.faults) + if r == Done then 0 else 1
    ensures store.Valid() && Worked(old(store.trace), store.trace, r) && Squared(old(store.trace), store.trace)
    ensures r == Done ==> store.Now() == After2(w, n + 1)
  {
    hide Inv, IsRun, Worked, Squared, Linked, ExecutionOrderOk, Closed;
    After2Step(w, n);
    After2Kept(w, n);
    r := CloseAndFile(store, Some(id), lid, sequence);
  }

  /** The second loop: finished executions whose launch is still open. */
  method PassTwo(store: CampaignStore) returns (r: Outcome, count: nat)
    requires store.Valid() && store.controller == Restarting
    requires Linked(store.db) && ExecutionOrderOk(store.db)
    modifies store
    ensures store.faults == old(store.faults) + if r == Done then 0 else 1
    ensures store.Valid() && Worked(old(store.trace), store.trace, r) && Squared(old(store.trace), store.trace)
    ensures r == Done ==> store.Now() == After2(old(store.Now()), |old(store.db.executionOrder)|)
    ensures r == Done ==> count == |Found2(old(store.db), old(store.db.executionOrder))|
  {
    hide Inv, IsRun, Worked, Squared, Linked, ExecutionOrderOk;
    ghost var w, start := store.Now(), store.trace;
    var existing := |store.reports|;
    var db := store.db;
    var order := db.executionOrder;
    count := 0;
    After2Start(w);
    NothingWorked(start);
    for n := 0 to |order|
      invariant store.Valid() && Worked(start, store.trace, Done)
      invariant store.Now() == After2(w, n) && store.controller == Restarting
      invariant count == |Found2(w.db, order[..n])|
      invariant store.faults == old(store.faults)
    {
      Filed2Step(w.db, n, existing);
      if !Second(db, order[n]) {
        After2Skip(w, n);
      } else {
        ghost var middle := store.trace;
        r := TurnTwo(store, w, n, order[n], db.executions[order[n]].launch.value, existing + count + 1);
        WorkedJoin(start, middle, store.trace, r);
        if r != Done {
          WorkedSquares(start, store.trace, r);
          return;
        }
        count := count + 1;
      }
    }
    assert order[..|order|] == order;
    r := Done;
    WorkedSquares(start, store.trace, r);
  }

  ghost function After3(w: World, n: nat): World
    requires n <= |w.db.launchOrder|
  {
    var lids := w.db.launchOrder[..n];
    w.(db := Pass3(w.db, lids), reports := w.reports + Filed(|w.reports|, Found3(w.db, lids)))
  }

  lemma ThirdStays(db: Database, n: nat)
    requires NoRepeats(db.launchOrder) && Known(db.launches, db.launchOrder) && n < |db.launchOrder|
    ensures var lid, db' := db.launchOrder[n], Pass3(db, db.launchOrder[..n]);
            && lid in db'.launches && lid in db.launches && db'.launches[lid] == db.launches[lid]
            && Third(db', lid) == Third(db, lid) && db'.executions == db.executions
  {
    Pass3At(db, db.launchOrder[..n]);
  }

  lemma Filed3Step(db: Database, n: nat, existing: nat)
    requires n < |db.launchOrder|
    ensures var lids, lid := db.launchOrder[..n], db.launchOrder[n];
            && Filed(existing, Found3(db, db.launchOrder[..n+1]))
               == Filed(existing, Found3(db, lids))
                  + (if Third(db, lid)
                     then [Numbered(existing + |Found3(db, lids)| + 1, Finding(None, Some(lid), Some(Finished)))]
                     else [])
            && |Found3(db, db.launchOrder[..n+1])| == |Found3(db, lids)| + if Third(db, lid) then 1 else 0
  {
    var lids := db.launchOrder[..n];
    assert db.launchOrder[..n+1][..n] == lids;
    FiledSnoc(existing, Found3(db, lids), Finding(None, Some(db.launchOrder[n]), Some(Finished)));
    assert Found3(db, lids) + [] == Found3(db, lids);
  }

  lemma After3Step(w: World, n: nat)
    requires Linked(w.db) && NoRepeats(w.db.launchOrder) && Known(w.db.launches, w.db.launchOrder)
    requires n < |w.db.launchOrder| && Third(w.db, w.db.launchOrder[n])
    ensures var lid := w.db.launchOrder[n];
            && Due(After3(w, n).db, None, lid)
            && After3(w, n + 1)
               == Closed(After3(w, n), None, lid, |w.reports| + |Found3(w.db, w.db.launchOrder[..n])| + 1)
  {
    ThirdStays(w.db, n);
    Filed3Step(w.db, n, |w.reports|);
    assert w.db.launchOrder[..n+1][..n] == w.db.launchOrder[..n];
    assert !w.db.launchOrder[n].Qualification?;
  }

  lemma After3Skip(w: World, n: nat)
    requires NoRepeats(w.db.launchOrder) && Known(w.db.launches, w.db.launchOrder)
    requires n < |w.db.launchOrder| && !Third(w.db, w.db.launchOrder[n])
    ensures After3(w, n + 1) == After3(w, n)
  {
    ThirdStays(w.db, n);
    Filed3Step(w.db, n, |w.reports|);
    assert w.db.launchOrder[..n+1][..n] == w.db.launchOrder[..n];
    var base := Filed(|w.reports|, Found3(w.db, w.db.launchOrder[..n]));
    assert base + [] == base;
  }

  lemma After3Kept(w: World, n: nat)
    requires n <= |w.db.launchOrder|
    ensures Kept(w, After3(w, n)) && After3(w, n).controller == w.controller
    ensures |After3(w, n).reports| == |w.reports| + |Found3(w.db, w.db.launchOrder[..n])|
  {
    Pass3At(w.db, w.db.launchOrder[..n]);
  }

  lemma After3Start(w: World)
    ensures After3(w, 0) == w && Found3(w.db, w.db.launchOrder[..0]) == []
  {
    assert w.db.launchOrder[..0] == [];
    assert w.reports + [] == w.reports;
  }

  /** The body of the third loop for an open launch that no execution owns. */
  method TurnThree(store: CampaignStore, ghost w: World, ghost n: nat, lid: LaunchId, sequence: nat)
    returns (r: Outcome)
    requires store.Valid() && store.controller == Restarting
    requires Linked(w.db) && NoRepeats(w.db.launchOrder) && Known(w.db.launches, w.db.launchOrder)
    requires n < |w.db.launchOrder| && lid == w.db.launchOrder[n] && Third(w.db, lid)
    requires store.Now() == After3(w, n) && sequence == |w.reports| + |Found3(w.db, w.db.launchOrder[..n])| + 1
    modifies store
    ensures store.faults == old(store.faults) + if r == Done then 0 else 1
    ensures store.Valid() && Worked(old(store.trace), store.trace, r) && Squared(old(store.trace), store.trace)
    ensures r == Done ==> store.Now() == After3(w, n + 1)
  {
    hide Inv, IsRun, Worked, Squared, Linked, Closed;
    After3Step(w, n);
    After3Kept(w, n);
    r := CloseAndFile(store, None, lid, sequence);
  }

  /** The third loop: launches past the six qualification ones that no execution owns. */
  method PassThree(store: CampaignStore) returns (r: Outcome, count: nat)
    requires store.Valid() && store.controller == Restarting
    requires Linked(store.db) && NoRepeats(store.db.launchOrder) && Known(store.db.launches, store.db.launchOrder)
    modifies store
    ensures store.faults == old(store.faults) + if r == Done then 0 else 1
    ensures store.Valid() && Worked(old(store.trace), store.trace, r) && Squared(old(store.trace), store.trace)
    ensures r == Done ==> store.Now() == After3(old(store.Now()), |old(store.db.launchOrder)|)
    ensures r == Done ==> count == |Found3(old(store.db), old(store.db.launchOrder))|
  {
    hide Inv, IsRun, Worked, Squared, Linked;
    ghost var w, start := store.Now(), store.trace;
    var existing := |store.reports|;
    var db := store.db;
    var order := db.launchOrder;
    count := 0;
    After3Start(w);
    NothingWorked(start);
    for n := 0 to |order|
      invariant store.Valid() && Worked(start, store.trace, Done)
      invariant store.Now() == After3(w, n) && store.controller == Restarting
      invariant count == |Found3(w.db, order[..n])|
      invariant store.faults == old(store.faults)
    {
      Filed3Step(w.db, n, existing);
      var launch := db.launches[order[n]];
      if launch.number <= 6 || Owned(db, order[n]) || Settled(launch.state) {
        After3Skip(w, n);
      } else {
        ghost var middle := store.trace;
        r := TurnThree(store, w, n, order[n], existing + count + 1);
        WorkedJoin(start, middle, store.trace, r);
        if r != Done {
          WorkedSquares(start, store.trace, r);
          return;
        }
        count := count + 1;
      }
    }
    assert order[..|order|] == order;
    r := Done;
    WorkedSquares(start, store.trace, r);
  }

  // ---------------------------------------------------------------- the whole restart

  lemma ReportsJoin(r0: seq<Report>, r2: seq<Report>, r3: seq<Report>, f1: seq<Finding>, f2: seq<Finding>,
                    f3: seq<Finding>)
    requires r2 == r0 + Filed(|r0|, f1) + Filed(|r0| + |f1|, f2) && r3 == r2 + Filed(|r2|, f3)
    ensures r3 == r0 + Filed(|r0|, f1 + f2 + f3)
  {
    FiledConcat(|r0|, f1, f2);
    FiledConcat(|r0|, f1 + f2, f3);
  }

  /** The state after the first two loops, and after all three. */
  ghost function Twice(w: World): World {
    var w1 := After1(w, |w.db.executionOrder|);
    After2(w1, |w1.db.executionOrder|)
  }

  ghost function Thrice(w: World): World { After3(Twice(w), |Twice(w).db.launchOrder|) }

  lemma Pass1Whole(db: Database)
    requires Linked(db)
    ensures SameRows(db, Pass1(db, db.executionOrder)) && db.executionOrder[..|db.executionOrder|] == db.executionOrder
    ensures Found2(Pass1(db, db.executionOrder), db.executionOrder) == Found2(db, db.executionOrder)
  {
    Pass1Rows(db, db.executionOrder);
    assert db.executionOrder[..|db.executionOrder|] == db.executionOrder;
    Found2Unmoved(db, |db.executionOrder|);
  }

  lemma Passes12Whole(db: Database)
    requires Linked(db) && ExecutionOrderOk(db) && Known(db.launches, db.launchOrder)
    ensures SameRows(db, Passes12(db)) && db.launchOrder[..|db.launchOrder|] == db.launchOrder
    ensures Found3(Passes12(db), db.launchOrder) == Found3(db, db.launchOrder)
  {
    Pass1Rows(db, db.executionOrder);
    Pass1Linked(db, db.executionOrder);
    Pass2At(Pass1(db, db.executionOrder), db.executionOrder);
    assert db.launchOrder[..|db.launchOrder|] == db.launchOrder;
    Found3Unmoved(db, |db.launchOrder|);
  }

  lemma TwiceIs(w: World)
    requires Linked(w.db)
    ensures Twice(w).db == Passes12(w.db) && Twice(w).released == w.released
    ensures After1(w, |w.db.executionOrder|).db.executionOrder == w.db.executionOrder
    ensures var f1, f2 := Found1(w.db, w.db.executionOrder), Found2(w.db, w.db.executionOrder);
            && Twice(w).reports == w.reports + Filed(|w.reports|, f1) + Filed(|w.reports| + |f1|, f2)
            && Found2(After1(w, |w.db.executionOrder|).db, w.db.executionOrder) == f2
  {
    Pass1Whole(w.db);
  }

  lemma ThriceDb(w: World)
    requires Linked(w.db) && ExecutionOrderOk(w.db) && Known(w.db.launches, w.db.launchOrder)
    ensures Twice(w).db.launchOrder == w.db.launchOrder
    ensures Found3(Twice(w).db, w.db.launchOrder) == Found3(w.db, w.db.launchOrder)
    ensures Thrice(w).db == Pass3(Passes12(w.db), w.db.launchOrder) && Thrice(w).released == w.released
    ensures Thrice(w).reports
         == Twice(w).reports + Filed(|Twice(w).reports|, Found3(w.db, w.db.launchOrder))
  {
    TwiceIs(w);
    Passes12Whole(w.db);
  }

  lemma ThriceReports(w: World)
    requires Linked(w.db) && ExecutionOrderOk(w.db) && Known(w.db.launches, w.db.launchOrder)
    ensures Thrice(w).reports == w.reports + Filed(|w.reports|, Findings(w.db))
  {
    TwiceIs(w);
    ThriceDb(w);
    ReportsJoin(w.reports, Twice(w).reports, Thrice(w).reports, Found1(w.db, w.db.executionOrder),
                Found2(w.db, w.db.executionOrder), Found3(w.db, w.db.launchOrder));
  }

  lemma ThriceIs(w: World)
    requires Inv(w)
    ensures Thrice(w).db == Reconciled(w.db) && Thrice(w).released == w.released
    ensures Twice(w).db.launchOrder == w.db.launchOrder
    ensures Found3(Twice(w).db, w.db.launchOrder) == Found3(w.db, w.db.launchOrder)
    ensures Thrice(w).reports == w.reports + Filed(|w.reports|, Findings(w.db))
  {
    InvLinked(w);
    ThriceDb(w);
    ThriceReports(w);
    PassesReconcile(w);
  }

  /** However a call ended: its new reports, what it left owed, what it lost with its process and what is still
      there to find are together exactly what was there to find when it began. */
  ghost predicate Balanced(before: seq<World>, after: seq<World>)
    requires before != [] && after != [] && Last(before).reports <= Last(after).reports
  {
    Bodies(Last(after).reports[|Last(before).reports|..]) + Owing(Last(after)) + LostAfter(after, |before| - 1)
    + Present(Last(after).db)
    == Present(Last(before).db)
  }

  lemma SquaredBalances(before: seq<World>, after: seq<World>)
    requires before != [] && after != [] && Squared(before, after)
    requires Last(before).reports <= Last(after).reports && Owing(Last(before)) == multiset{}
    ensures Balanced(before, after)
  {
    hide Present, Owing, LostBetween, LostAfter;
    var earlier, now := Last(before).reports, Last(after).reports;
    var filed := now[|earlier|..];
    BodiesConcat(earlier, filed);
    assert now == earlier + filed;
    Regroup(Bodies(earlier), Bodies(filed), Owing(Last(after)), LostAfter(after, |before| - 1),
            Present(Last(after).db), Present(Last(before).db));
  }

  lemma Regroup<T>(earlier: multiset<T>, filed: multiset<T>, owing: multiset<T>, lost: multiset<T>,
                   left: multiset<T>, found: multiset<T>)
    requires (earlier + filed) + owing + left + lost == earlier + multiset{} + found
    ensures filed + owing + lost + left == found
  {
    assert (earlier + filed) + owing + left + lost == earlier + (filed + owing + lost + left);
    assert earlier + multiset{} + found == earlier + found;
    Cancel(earlier, filed + owing + lost + left, found);
  }

  /** `_reconcile_unfinished`: from any state that a crash can leave, including one inside an earlier
      reconciliation. When it completes, nothing active or open is left, every other field is as it was, and each
      repair has its numbered report. When it does not, exactly the repairs already reported, the one that may be
      owed or lost, and those still to be found make up what there was to do. */
  method ReconcileUnfinished(store: CampaignStore, failedCleanup: set<string>)
    returns (r: Outcome, count: nat, unsafe: bool)
    requires store.Valid() && store.controller == Restarting
    modifies store
    ensures store.faults == old(store.faults) + if r == Done then 0 else 1
    ensures store.Valid() && Worked(old(store.trace), store.trace, r) && Balanced(old(store.trace), store.trace)
    ensures r == Done ==> store.controller == Restarting
    ensures r == Done ==> store.db == Reconciled(old(store.db)) && count == |Findings(old(store.db))|
    ensures r == Done ==> store.reports == old(store.reports) + Filed(|old(store.reports)|, Findings(old(store.db)))
    ensures r == Done ==>
              (unsafe <==> exists id :: id in old(store.db.executions) && old(store.db.executions)[id].status == Running
                                        && id in failedCleanup)
  {
    hide Inv, IsRun, Worked, Squared, Balanced, Linked, ExecutionOrderOk;
    ghost var w, start := store.Now(), store.trace;
    ReachableOrders(store);
    r, count, unsafe := PassOne(store, failedCleanup);
    if r == Done {
      ghost var middle := store.trace;
      TwiceIs(w);
      ThriceAt(store, w, start);
      var more: nat;
      r, more := LastPasses(store);
      WorkedJoin(start, middle, store.trace, r);
      count := count + more;
    }
    WorkedSquares(start, store.trace, r);
    WorkedKeeps(start, store.trace, r);
    RestartingOwesNothing(w);
    SquaredBalances(start, store.trace);
  }

  lemma RestartingOwesNothing(w: World)
    requires w.controller == Restarting
    ensures Owing(w) == multiset{}
  {
  }

  lemma WorkedKeeps(before: seq<World>, after: seq<World>, r: Outcome)
    requires Worked(before, after, r)
    ensures Last(before).reports <= Last(after).reports
  {
  }

  lemma ReachableOrders(store: CampaignStore)
    requires store.Valid()
    ensures Linked(store.db) && ExecutionOrderOk(store.db)
    ensures NoRepeats(store.db.launchOrder) && Known(store.db.launches, store.db.launchOrder)
  {
    store.Reachable();
    InvLinked(store.Now());
  }

  lemma ThriceAt(store: CampaignStore, w: World, start: seq<World>)
    requires store.Valid() && IsRun(start) && w == Last(start)
    ensures Thrice(w).db == Reconciled(w.db) && Thrice(w).released == w.released
    ensures Twice(w).db.launchOrder == w.db.launchOrder
    ensures Found3(Twice(w).db, w.db.launchOrder) == Found3(w.db, w.db.launchOrder)
    ensures Thrice(w).reports == w.reports + Filed(|w.reports|, Findings(w.db))
  {
    RunsKeepInv(start, |start| - 1);
    ThriceIs(w);
  }

  /** The second and third loop. */
  method LastPasses(store: CampaignStore) returns (r: Outcome, count: nat)
    requires store.Valid() && store.controller == Restarting
    modifies store
    ensures store.faults == old(store.faults) + if r == Done then 0 else 1
    ensures store.Valid() && Worked(old(store.trace), store.trace, r)
    ensures var w2 := After2(old(store.Now()), |old(store.db.executionOrder)|);
            r == Done ==>
              && store.Now() == After3(w2, |w2.db.launchOrder|)
              && count == |Found2(old(store.db), old(store.db.executionOrder))| + |Found3(w2.db, w2.db.launchOrder)|
  {
    hide Inv, IsRun, Worked, Squared, Linked, ExecutionOrderOk;
    ghost var start := store.trace;
    ReachableOrders(store);
    r, count := PassTwo(store);
    if r != Done {
      return;
    }
    ghost var middle := store.trace;
    ReachableOrders(store);
    var more: nat;
    r, more := PassThree(store);
    WorkedJoin(start, middle, store.trace, r);
    count := count + more;
  }

  /** The restart as a whole, in terms of the reconciled store. */
  method RecoverStore(store: CampaignStore, failedCleanup: set<string>) returns (r: Outcome, count: nat, unsafe: bool)
    requires store.Valid() && (store.controller == Down || store.controller == Idle)
    modifies store
    ensures store.faults == old(store.faults) + if r == Done then 0 else 1
    ensures store.Valid() && old(store.trace) <= store.trace
    ensures store.released == old(store.released) && old(store.reports) <= store.reports
    ensures store.db.(executions := old(store.db.executions), launches := old(store.db.launches)) == old(store.db)
    ensures store.controller == if r == Dead then Down else Idle
    ensures |old(store.trace)| + 2 <= |store.trace|
    ensures Bodies(store.reports[|old(store.reports)|..]) + LostBetween(store.trace[|store.trace|-2], store.Now())
            + Present(store.db)
         == Present(old(store.db))
    ensures r == Done ==> store.db == Reconciled(old(store.db))
    ensures r == Done ==> store.reports == old(store.reports) + Filed(|old(store.reports)|, Findings(old(store.db)))
    ensures r == Done ==> count == |Findings(old(store.db))| == |store.reports| - |old(store.reports)|
    ensures r == Done ==>
              (unsafe <==> exists id :: id in old(store.db.executions) && old(store.db.executions)[id].status == Running
                                        && id in failedCleanup)
  {
    hide Inv, IsRun, Enabled, Next, Worked, Balanced, Present, LostBetween, Bodies, Reconciled, Filed, Findings,
      Owing, Kept;
    ghost var w := store.Now();
    RestartMoves(w);
    store.Move(Event.Restart);
    ghost var start := store.trace;
    r, count, unsafe := ReconcileUnfinished(store, failedCleanup);
    ghost var middle := store.trace;
    WorkedEnds(start, middle, r);
    if r == Done {
      ResumeMoves(store.Now());
      store.Move(Resume);
    } else if r == Raised {
      GiveUpMoves(store.Now());
      store.Move(Leave);
    }
    LeavingBalances(start, middle, store.trace, r);
    KeptRecords(w.(controller := Restarting), Last(middle));
  }

  /** A restart of a dead campaign: when it completes, every active execution is INTERRUPTED and every open launch
      FINISHED, nothing else changed, and the repairs are reported under consecutive numbers. On a clean store it
      changes nothing. When it does not complete, each finding is newly reported or still there, but for one whose
      repair was complete and unreported in the last moment of the restart. */
  method Recover(store: CampaignStore, failedCleanup: set<string>) returns (r: Outcome, count: nat, unsafe: bool)
    requires store.Valid() && (store.controller == Down || store.controller == Idle)
    modifies store
    ensures store.faults == old(store.faults) + if r == Done then 0 else 1
    ensures store.Valid() && old(store.trace) <= store.trace
    ensures store.released == old(store.released) && old(store.reports) <= store.reports
    ensures store.db.(executions := old(store.db.executions), launches := old(store.db.launches)) == old(store.db)
    ensures store.controller == if r == Dead then Down else Idle
    ensures |old(store.trace)| + 2 <= |store.trace|
    ensures Bodies(store.reports[|old(store.reports)|..]) + LostBetween(store.trace[|store.trace|-2], store.Now())
            + Present(store.db)
         == Present(old(store.db))
    ensures r == Done ==> store.db == Reconciled(old(store.db))
    ensures r == Done ==>
              && store.db.executions.Keys == old(store.db.executions.Keys)
              && forall id | id in store.db.executions ::
                   var x := old(store.db.executions)[id];
                   store.db.executions[id]
                   == if x.status in {Starting, Running} then x.(status := Interrupted, result := None, artifacts := map[])
                      else x
    ensures r == Done ==>
              && store.db.launches.Keys == old(store.db.launches.Keys)
              && forall lid | lid in store.db.launches ::
                   var l := old(store.db.launches)[lid];
                   store.db.launches[lid]
                   == if l.state in {Reserved, Started, StartUncertain} then l.(state := Finished, charged := true) else l
    ensures r == Done ==> store.reports == old(store.reports) + Filed(|old(store.reports)|, Findings(old(store.db)))
    ensures r == Done ==> count == |Findings(old(store.db))| == |store.reports| - |old(store.reports)|
    ensures r == Done ==>
              (unsafe <==> exists id :: id in old(store.db.executions) && old(store.db.executions)[id].status == Running
                                        && id in failedCleanup)
  {
    hide Inv, IsRun, Enabled, Next, Worked, Balanced, Present, LostBetween, Bodies, Reconciled, Filed, Findings,
      Owing, Kept;
    ghost var before := store.db;
    r, count, unsafe := RecoverStore(store, failedCleanup);
    ReconciledExactly(before);
  }

  lemma KeptRecords(w: World, w': World)
    requires Kept(w, w')
    ensures w'.released == w.released && w.reports <= w'.reports
    ensures w'.db.(executions := w.db.executions, launches := w.db.launches) == w.db
  {
  }

  lemma WorkedEnds(before: seq<World>, after: seq<World>, r: Outcome)
    requires Worked(before, after, r)
    ensures before <= after && Kept(Last(before), Last(after))
    ensures r == Done || r == Raised || r == Dead
    ensures if r == Dead then Last(after).controller == Down else InRestart(Last(after).controller)
  {
  }

  /** Leaving the restart turns what is owed into what is lost. */
  lemma LeavingBalances(start: seq<World>, middle: seq<World>, end: seq<World>, r: Outcome)
    requires Worked(start, middle, r) && Last(start).reports <= Last(middle).reports && Balanced(start, middle)
    requires end == if r == Dead then middle else middle + [Last(middle).(controller := Idle)]
    ensures |start| < |end|
    ensures Bodies(Last(end).reports[|Last(start).reports|..]) + LostBetween(end[|end|-2], end[|end|-1])
            + Present(Last(end).db)
         == Present(Last(start).db)
  {
    hide Bodies, Present, Owing;
    DownOwesNothing(Last(end));
    var lost := LostAfter(middle, |start| - 1);
    if r == Dead {
      assert |start| < |middle|;
      assert lost == LostBetween(end[|end|-2], end[|end|-1]);
    } else {
      assert lost == multiset{};
      assert LostBetween(end[|end|-2], end[|end|-1]) == Owing(Last(middle));
    }
  }

  lemma DownOwesNothing(w: World)
    ensures w.controller == Down ==> Owing(w) == multiset{}
  {
  }

  lemma RestartMoves(w: World)
    requires w.controller == Down || w.controller == Idle
    ensures Enabled(w, Event.Restart) && Next(w, Event.Restart) == w.(controller := Restarting)
  {
  }

  lemma ResumeMoves(w: World)
    requires w.controller == Restarting
    ensures Enabled(w, Resume) && Next(w, Resume) == w.(controller := Idle)
  {
  }

  lemma GiveUpMoves(w: World)
    requires InRestart(w.controller)
    ensures Enabled(w, Leave) && Next(w, Leave) == w.(controller := Idle)
  {
  }

  /** After a completed recovery the store is clean, and recovering it again is a no-op without reports. */
  lemma RecoveryIsIdempotent(w: World, w': World)
    requires Inv(w) && Inv(w') && w'.db == Reconciled(w.db)
    ensures Clean(w'.db) && Reconciled(w'.db) == w'.db && Findings(w'.db) == []
  {
    ReconciledIsClean(w.db);
    CleanIsFixed(w');
  }

  // ---------------------------------------------------------------- interrupted restarts

  lemma StateKeepsTarget(db: Database, lid: LaunchId, to: LaunchState)
    requires lid in db.launches && (to == StartUncertain || to == Finished)
    requires LegalMove(db.launches[lid].state, to)
    ensures Reconciled(WithState(db, lid, to, None)) == Reconciled(db)
  {
    var db' := WithState(db, lid, to, None);
    assert Reconciled(db').launches == Reconciled(db).launches;
  }

  lemma InterruptKeepsTarget(db: Database, id: string)
    requires First(db, id)
    ensures Reconciled(WithEnd(db, id, Interrupted, None, map[])) == Reconciled(db)
  {
    var db' := WithEnd(db, id, Interrupted, None, map[]);
    assert Reconciled(db').executions == Reconciled(db).executions;
  }

  lemma RestartStepKeepsTarget(w: World, e: Event)
    requires Enabled(w, e) && OfRestart(e)
    ensures Reconciled(Next(w, e).db) == Reconciled(w.db)
  {
    match e
    case Interrupt(id) => InterruptKeepsTarget(w.db, id);
    case Doubt(lid) => StateKeepsTarget(w.db, lid, StartUncertain);
    case Close(lid) => StateKeepsTarget(w.db, lid, Finished);
    case _ =>
  }

  lemma RecoversKeepsTarget(ws: seq<World>, i: nat)
    requires 0 < i < |ws| && RecoversAt(ws, i)
    ensures Reconciled(ws[i].db) == Reconciled(ws[i-1].db)
  {
    hide Enabled, Next, OfRestart, Reconciled;
    var e :| OfRestart(e) && Enabled(ws[i-1], e) && ws[i] == Next(ws[i-1], e);
    RestartStepKeepsTarget(ws[i-1], e);
  }

  /** However many restarts are cut short, and wherever, the store that a completed one would leave stays the
      same: interrupted attempts can neither lose nor add a repair. */
  lemma {:induction false} InterruptedRestartsConverge(ws: seq<World>)
    requires Recovery(ws)
    ensures Reconciled(ws[|ws|-1].db) == Reconciled(ws[0].db)
  {
    hide RecoversAt, Reconciled;
    if |ws| > 1 {
      RecoveryFront(ws);
      InterruptedRestartsConverge(ws[..|ws|-1]);
      assert RecoversAt(ws, |ws| - 1);
      RecoversKeepsTarget(ws, |ws| - 1);
    }
  }
}
