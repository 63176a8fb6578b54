/** `_reconcile_unfinished` and `_finish_reconciled_launch` of src/kuairand_agent/campaign/controller.py. */
module Reconciliation {
  import opened Results
  import opened CampaignDatabase
  import opened LedgerRebuild
  import opened CampaignProtocol
  import opened CampaignInvariant
  import opened CampaignSafety

  // ---------------------------------------------------------------- what a restart should leave behind

  function ClosedExecution(x: Execution): Execution {
    if Unfinished(x.status) then x.(status := Interrupted, result := None, artifacts := map[]) else x
  }

  function ClosedState(s: LaunchState): LaunchState { if Settled(s) then s else Finished }

  function ClosedLaunch(l: Launch): Launch {
    if Settled(l.state) then l else l.(state := Finished, charged := true)
  }

  /** Every active execution interrupted, every open launch finished and charged, nothing else touched. */
  function Reconciled(db: Database): Database {
    db.(executions := map id | id in db.executions :: ClosedExecution(db.executions[id]),
        launches := map lid | lid in db.launches :: ClosedLaunch(db.launches[lid]))
  }

  /** A report without its number. */
  datatype Finding = Finding(execution: Option<string>, launch: Option<LaunchId>, launchState: Option<LaunchState>)

  function FindingOf(db: Database, id: string): Finding
    requires id in db.executions
  {
    var lid := db.executions[id].launch;
    Finding(Some(id), lid, if lid.Some? && lid.value in db.launches then Some(ClosedState(db.launches[lid.value].state))
                           else None)
  }

  /** The executions still active. */
  predicate First(db: Database, id: string) { id in db.executions && Unfinished(db.executions[id].status) }

  /** The finished executions whose launch is still open. */
  predicate Second(db: Database, id: string) {
    && id in db.executions && !Unfinished(db.executions[id].status)
    && db.executions[id].launch.Some? && db.executions[id].launch.value in db.launches
    && !Settled(db.launches[db.executions[id].launch.value].state)
  }

  /** The open launches that no execution owns. */
  predicate Third(db: Database, lid: LaunchId) {
    && lid in db.launches && db.launches[lid].number > 6 && !Owned(db, lid) && !Settled(db.launches[lid].state)
  }

  function Found1(db: Database, ids: seq<string>): seq<Finding> {
    if ids == [] then []
    else
      var id := ids[|ids|-1];
      Found1(db, ids[..|ids|-1]) + if First(db, id) then [FindingOf(db, id)] else []
  }

  function Found2(db: Database, ids: seq<string>): seq<Finding> {
    if ids == [] then []
    else
      var id := ids[|ids|-1];
      Found2(db, ids[..|ids|-1]) + if Second(db, id) then [FindingOf(db, id)] else []
  }

  function Found3(db: Database, lids: seq<LaunchId>): seq<Finding> {
    if lids == [] then []
    else
      var lid := lids[|lids|-1];
      Found3(db, lids[..|lids|-1]) + if Third(db, lid) then [Finding(None, Some(lid), Some(Finished))] else []
  }

  function Findings(db: Database): seq<Finding> {
    Found1(db, db.executionOrder) + Found2(db, db.executionOrder) + Found3(db, db.launchOrder)
  }

  /** The reports of some findings, numbered on from n. */
  function Filed(n: nat, found: seq<Finding>): (reports: seq<Report>)
    ensures |reports| == |found|
    ensures forall i | 0 <= i < |found| :: reports[i].sequence == n + i + 1
  {
    if found == [] then []
    else
      var f := found[|found|-1];
      Filed(n, found[..|found|-1]) + [Report(n + |found|, f.execution, f.launch, f.launchState)]
  }

  lemma FiledSnoc(n: nat, found: seq<Finding>, f: Finding)
    ensures Filed(n, found + [f]) == Filed(n, found) + [Report(n + |found| + 1, f.execution, f.launch, f.launchState)]
  {
    assert (found + [f])[..|found|] == found;
  }

  lemma {:induction false} FiledConcat(n: nat, a: seq<Finding>, b: seq<Finding>)
    ensures Filed(n, a + b) == Filed(n, a) + Filed(n + |a|, b)
  {
    if b == [] {
      assert a + b == a;
    } else {
      var front, f := b[..|b|-1], b[|b|-1];
      FiledConcat(n, a, front);
      FiledSnoc(n, a + front, f);
      assert a + b == (a + front) + [f];
      assert Filed(n + |a|, b) == Filed(n + |a|, front) + [Report(n + |a| + |b|, f.execution, f.launch, f.launchState)];
    }
  }

  // ---------------------------------------------------------------- the three passes on values

  function CloseLaunch(db: Database, lid: LaunchId): Database {
    if lid in db.launches then db.(launches := db.launches[lid := ClosedLaunch(db.launches[lid])]) else db
  }

  function InterruptOne(db: Database, id: string): Database {
    if !First(db, id) then db
    else
      var lid := db.executions[id].launch;
      var db1 := WithEnd(db, id, Interrupted, None, map[]);
      if lid.Some? then CloseLaunch(db1, lid.value) else db1
  }

  function Pass1(db: Database, ids: seq<string>): Database {
    if ids == [] then db else InterruptOne(Pass1(db, ids[..|ids|-1]), ids[|ids|-1])
  }

  function Pass2(db: Database, ids: seq<string>): Database {
    if ids == [] then db
    else
      var done, id := Pass2(db, ids[..|ids|-1]), ids[|ids|-1];
      if Second(done, id) then CloseLaunch(done, done.executions[id].launch.value) else done
  }

  function Pass3(db: Database, lids: seq<LaunchId>): Database {
    if lids == [] then db
    else
      var done, lid := Pass3(db, lids[..|lids|-1]), lids[|lids|-1];
      if Third(done, lid) then CloseLaunch(done, lid) else done
  }

  /** The part of the invariant that tells whose launch is whose. */
  predicate Linked(db: Database) {
    && (forall id | id in db.executions ::
          && db.executions[id].launch != None ==> db.executions[id].launch == Some(CandidateLaunch(id)))
    && (forall id | id in db.executions && db.executions[id].launch.Some? :: CandidateLaunch(id) in db.launches)
    && (forall lid | lid in db.launches && lid.Qualification? :: Settled(db.launches[lid].state))
  }

  /** The same records up to status, state and charge. */
  predicate SameRows(db: Database, db': Database) {
    && db'.executionOrder == db.executionOrder && db'.launchOrder == db.launchOrder
    && db'.executions.Keys == db.executions.Keys && db'.launches.Keys == db.launches.Keys
    && db'.maxLaunches == db.maxLaunches && db'.transfers == db.transfers
    && db'.iterations == db.iterations && db'.incumbent == db.incumbent
  }

  lemma InterruptOneRows(db: Database, id: string)
    ensures SameRows(db, InterruptOne(db, id))
    ensures forall other | other in db.executions ::
              InterruptOne(db, id).executions[other]
              == if other == id then ClosedExecution(db.executions[other]) else db.executions[other]
  {
  }

  lemma {:induction false} Pass1Rows(db: Database, ids: seq<string>)
    requires Linked(db)
    ensures SameRows(db, Pass1(db, ids))
    ensures forall id | id in db.executions ::
              Pass1(db, ids).executions[id] == if id in ids then ClosedExecution(db.executions[id]) else db.executions[id]
  {
    if ids != [] {
      var n := |ids| - 1;
      Pass1Rows(db, ids[..n]);
      InterruptOneRows(Pass1(db, ids[..n]), ids[n]);
      assert ids == ids[..n] + [ids[n]];
    }
  }

  /** What pass one has made of one launch. */
  function Launch1(db: Database, ids: seq<string>, lid: LaunchId): Launch
    requires lid in db.launches
  {
    if Owned(db, lid) && lid.execution in ids && First(db, lid.execution) then ClosedLaunch(db.launches[lid])
    else db.launches[lid]
  }

  lemma {:induction false} Pass1At(db: Database, ids: seq<string>, lid: LaunchId)
    requires Linked(db) && lid in db.launches
    ensures lid in Pass1(db, ids).launches && Pass1(db, ids).launches[lid] == Launch1(db, ids, lid)
  {
    if ids != [] {
      var n := |ids| - 1;
      Pass1At(db, ids[..n], lid);
      Pass1Rows(db, ids[..n]);
      assert ids == ids[..n] + [ids[n]];
      InterruptOneAt(Pass1(db, ids[..n]), ids[n], lid);
    }
  }

  lemma InterruptOneAt(db: Database, id: string, lid: LaunchId)
    requires lid in db.launches
    ensures lid in InterruptOne(db, id).launches
    ensures InterruptOne(db, id).launches[lid]
         == if First(db, id) && db.executions[id].launch == Some(lid) then ClosedLaunch(db.launches[lid])
            else db.launches[lid]
  {
  }

  lemma {:induction false} Pass2At(db: Database, ids: seq<string>)
    requires Linked(db)
    ensures SameRows(db, Pass2(db, ids)) && Pass2(db, ids).executions == db.executions
    ensures forall lid | lid in db.launches ::
              Pass2(db, ids).launches[lid]
              == if Owned(db, lid) && lid.execution in ids && !First(db, lid.execution) then ClosedLaunch(db.launches[lid])
                 else db.launches[lid]
  {
    if ids != [] {
      var n := |ids| - 1;
      Pass2At(db, ids[..n]);
      assert ids == ids[..n] + [ids[n]];
    }
  }

  lemma {:induction false} Pass3At(db: Database, lids: seq<LaunchId>)
    ensures SameRows(db, Pass3(db, lids)) && Pass3(db, lids).executions == db.executions
    ensures forall lid | lid in db.launches ::
              Pass3(db, lids).launches[lid]
              == if lid in lids && !Owned(db, lid) && db.launches[lid].number > 6 then ClosedLaunch(db.launches[lid])
                 else db.launches[lid]
  {
    if lids != [] {
      var n := |lids| - 1;
      Pass3At(db, lids[..n]);
      assert lids == lids[..n] + [lids[n]];
    }
  }

  // ---------------------------------------------------------------- the passes together

  lemma InvLinked(w: World)
    requires Inv(w)
    ensures Linked(w.db)
  {
    forall id | id in w.db.executions
      ensures w.db.executions[id].launch != None ==> w.db.executions[id].launch == Some(CandidateLaunch(id))
      ensures w.db.executions[id].launch.Some? ==> CandidateLaunch(id) in w.db.launches
    {
      assert ExecutionOk(w.db, w.released, id);
    }
    forall lid | lid in w.db.launches && lid.Qualification?
      ensures Settled(w.db.launches[lid].state)
    {
      assert LaunchOk(w.db, w.released, lid);
    }
  }

  lemma Pass1Linked(db: Database, ids: seq<string>)
    requires Linked(db)
    ensures Linked(Pass1(db, ids))
  {
    var db1 := Pass1(db, ids);
    Pass1Rows(db, ids);
    forall id | id in db1.executions
      ensures db1.executions[id].launch == db.executions[id].launch
    {
    }
    forall lid | lid in db1.launches && lid.Qualification?
      ensures Settled(db1.launches[lid].state)
    {
      Pass1At(db, ids, lid);
    }
  }

  /** Pass two, seen from before pass one. */
  lemma SecondUnmoved(db: Database, id: string)
    requires Linked(db) && id in db.executionOrder
    ensures Second(Pass1(db, db.executionOrder), id) == Second(db, id)
    ensures Second(db, id) ==> FindingOf(Pass1(db, db.executionOrder), id) == FindingOf(db, id)
  {
    Pass1Rows(db, db.executionOrder);
    if id in db.executions && db.executions[id].launch.Some? {
      Pass1At(db, db.executionOrder, CandidateLaunch(id));
    }
  }

  lemma {:induction false} Found2Unmoved(db: Database, n: nat)
    requires Linked(db) && n <= |db.executionOrder|
    ensures Found2(Pass1(db, db.executionOrder), db.executionOrder[..n]) == Found2(db, db.executionOrder[..n])
  {
    if n > 0 {
      Found2Unmoved(db, n - 1);
      assert db.executionOrder[..n][..n-1] == db.executionOrder[..n-1];
      SecondUnmoved(db, db.executionOrder[n-1]);
    }
  }

  function Passes12(db: Database): Database { Pass2(Pass1(db, db.executionOrder), db.executionOrder) }

  lemma Passes12At(db: Database, lid: LaunchId)
    requires Linked(db) && lid in db.launches && forall id | id in db.executions :: id in db.executionOrder
    ensures SameRows(db, Passes12(db)) && Owned(Passes12(db), lid) == Owned(db, lid)
    ensures Passes12(db).launches[lid] == if Owned(db, lid) then ClosedLaunch(db.launches[lid]) else db.launches[lid]
    ensures Passes12(db).launches[lid].number == db.launches[lid].number
  {
    var db1 := Pass1(db, db.executionOrder);
    Pass1Rows(db, db.executionOrder);
    Pass1Linked(db, db.executionOrder);
    Pass1At(db, db.executionOrder, lid);
    Pass2At(db1, db.executionOrder);
  }

  lemma {:induction false} Found3Unmoved(db: Database, n: nat)
    requires Linked(db) && n <= |db.launchOrder| && forall id | id in db.executions :: id in db.executionOrder
    requires forall lid | lid in db.launchOrder :: lid in db.launches
    ensures Found3(Passes12(db), db.launchOrder[..n]) == Found3(db, db.launchOrder[..n])
  {
    if n > 0 {
      Found3Unmoved(db, n - 1);
      assert db.launchOrder[..n][..n-1] == db.launchOrder[..n-1];
      Passes12At(db, db.launchOrder[n-1]);
    }
  }

  /** Only candidate launches are open, and their numbers come after the six. */
  lemma OpenNumbers(w: World, lid: LaunchId)
    requires Inv(w) && lid in w.db.launches
    ensures Settled(w.db.launches[lid].state) || w.db.launches[lid].number > 6
  {
    LaunchPosition(w.db, lid);
    assert LaunchOk(w.db, w.released, lid);
    var k := w.db.launches[lid].number - 1;
    if k < 6 {
      QualificationPositions(k + 1);
      assert w.db.launchOrder[k] == QUALIFICATION_ORDER[k];
    }
  }

  lemma PassesLaunch(w: World, lid: LaunchId)
    requires Inv(w) && lid in w.db.launches
    ensures var db3 := Pass3(Passes12(w.db), w.db.launchOrder);
            lid in db3.launches && db3.launches[lid] == ClosedLaunch(w.db.launches[lid])
  {
    InvLinked(w);
    Passes12At(w.db, lid);
    Pass3At(Passes12(w.db), w.db.launchOrder);
    OpenNumbers(w, lid);
  }

  lemma PassesRows(db: Database)
    requires Linked(db) && forall id | id in db.executions :: id in db.executionOrder
    ensures var db3 := Pass3(Passes12(db), db.launchOrder);
            SameRows(db, db3) && db3.executions == Reconciled(db).executions
  {
    Pass1Rows(db, db.executionOrder);
    Pass1Linked(db, db.executionOrder);
    Pass2At(Pass1(db, db.executionOrder), db.executionOrder);
    Pass3At(Passes12(db), db.launchOrder);
  }

  /** From every reachable state the three passes together interrupt every active execution and close every open
      launch, and leave every other field alone. */
  lemma PassesReconcile(w: World)
    requires Inv(w)
    ensures Pass3(Passes12(w.db), w.db.launchOrder) == Reconciled(w.db)
  {
    hide Passes12, ClosedLaunch;
    InvLinked(w);
    PassesRows(w.db);
    var db3 := Pass3(Passes12(w.db), w.db.launchOrder);
    assert db3.launches == Reconciled(w.db).launches by {
      forall lid | lid in w.db.launches
        ensures lid in db3.launches && db3.launches[lid] == ClosedLaunch(w.db.launches[lid])
      {
        PassesLaunch(w, lid);
      }
    }
  }

  /** The reconciled store record by record: active executions are INTERRUPTED without result, open launches are
      FINISHED and charged, and nothing else differs. */
  lemma ReconciledExactly(db: Database)
    ensures var db' := Reconciled(db);
            && db'.executions.Keys == db.executions.Keys && db'.launches.Keys == db.launches.Keys
            && (forall id | id in db.executions ::
                  db'.executions[id]
                  == if db.executions[id].status in {Starting, Running}
                     then db.executions[id].(status := Interrupted, result := None, artifacts := map[])
                     else db.executions[id])
            && (forall lid | lid in db.launches ::
                  db'.launches[lid]
                  == if db.launches[lid].state in {Reserved, Started, StartUncertain}
                     then db.launches[lid].(state := Finished, charged := true) else db.launches[lid])
            && db'.executionOrder == db.executionOrder && db'.launchOrder == db.launchOrder
            && db'.maxLaunches == db.maxLaunches && db'.transfers == db.transfers
            && db'.iterations == db.iterations && db'.incumbent == db.incumbent
  {
  }

  lemma {:induction false} Found1Has(db: Database, ids: seq<string>, f: Finding)
    ensures f in Found1(db, ids) <==> exists id :: id in ids && First(db, id) && f == FindingOf(db, id)
  {
    hide First;
    if ids != [] {
      var n := |ids| - 1;
      Found1Has(db, ids[..n], f);
      assert ids == ids[..n] + [ids[n]];
    }
  }

  lemma {:induction false} Found2Has(db: Database, ids: seq<string>, f: Finding)
    ensures f in Found2(db, ids) <==> exists id :: id in ids && Second(db, id) && f == FindingOf(db, id)
  {
    if ids != [] {
      var n := |ids| - 1;
      Found2Has(db, ids[..n], f);
      assert ids == ids[..n] + [ids[n]];
    }
  }

  lemma {:induction false} Found3Has(db: Database, lids: seq<LaunchId>, f: Finding)
    ensures f in Found3(db, lids) <==>
            exists lid :: lid in lids && Third(db, lid) && f == Finding(None, Some(lid), Some(Finished))
  {
    hide Third;
    if lids != [] {
      var n := |lids| - 1;
      Found3Has(db, lids[..n], f);
      assert lids == lids[..n] + [lids[n]];
    }
  }

  /** What a restart finds: every active execution, with its launch, and every open launch, with its owner; each with
      the state that its repair will leave; and nothing else. */
  lemma FindingsExactly(w: World, f: Finding)
    requires Inv(w)
    ensures f in Findings(w.db) <==>
            match f.execution {
              case Some(id) =>
                && id in w.db.executions && f.launch == w.db.executions[id].launch
                && (w.db.executions[id].status in {Starting, Running}
                    || (f.launch.Some? && f.launch.value in w.db.launches
                        && w.db.launches[f.launch.value].state in {Reserved, Started, StartUncertain}))
                && f.launchState
                   == if f.launch == None then None
                      else if f.launch.value in w.db.launches && w.db.launches[f.launch.value].state == NotStarted
                      then Some(NotStarted) else Some(Finished)
              case None =>
                && f.launch.Some? && f.launch.value in w.db.launches && f.launchState == Some(Finished)
                && w.db.launches[f.launch.value].state in {Reserved, Started, StartUncertain}
                && !exists id :: id in w.db.executions && w.db.executions[id].launch == f.launch
            }
  {
    InvLinked(w);
    Found1Has(w.db, w.db.executionOrder, f);
    Found2Has(w.db, w.db.executionOrder, f);
    Found3Has(w.db, w.db.launchOrder, f);
    if f.execution.Some? {
      ExecutionFound(w.db, f);
    } else if f.launch.Some? && f.launch.value in w.db.launches {
      LaunchFound(w, f.launch.value);
    }
  }

  lemma ExecutionFound(db: Database, f: Finding)
    requires Linked(db) && f.execution.Some?
    ensures f.execution.value in db.executions && (First(db, f.execution.value) || Second(db, f.execution.value))
            && f == FindingOf(db, f.execution.value)
       <==> var id := f.execution.value;
            && id in db.executions && f.launch == db.executions[id].launch
            && (db.executions[id].status in {Starting, Running}
                || (f.launch.Some? && f.launch.value in db.launches
                    && db.launches[f.launch.value].state in {Reserved, Started, StartUncertain}))
            && f.launchState
               == if f.launch == None then None
                  else if f.launch.value in db.launches && db.launches[f.launch.value].state == NotStarted
                  then Some(NotStarted) else Some(Finished)
  {
  }

  lemma LaunchFound(w: World, lid: LaunchId)
    requires Inv(w) && Linked(w.db) && lid in w.db.launches
    ensures lid in w.db.launchOrder
    ensures Third(w.db, lid) <==>
            && w.db.launches[lid].state in {Reserved, Started, StartUncertain}
            && !exists id :: id in w.db.executions && w.db.executions[id].launch == Some(lid)
  {
    OpenNumbers(w, lid);
  }

  // ---------------------------------------------------------------- what a restart guarantees

  /** Nothing is left to repair: no active execution, and every launch FINISHED or NOT_STARTED. */
  predicate Clean(db: Database) {
    && (forall id | id in db.executions :: !Unfinished(db.executions[id].status))
    && (forall lid | lid in db.launches :: Settled(db.launches[lid].state))
  }

  lemma ReconciledIsClean(db: Database)
    ensures Clean(Reconciled(db))
  {
  }

  /** A clean store is a fixed point, and nothing is reported about it. */
  lemma CleanIsFixed(w: World)
    requires Inv(w) && Clean(w.db)
    ensures Reconciled(w.db) == w.db && Findings(w.db) == []
  {
    assert Reconciled(w.db).executions == w.db.executions;
    assert Reconciled(w.db).launches == w.db.launches;
    NothingFound(w.db, w.db.executionOrder, w.db.launchOrder);
  }

  lemma {:induction false} NothingFound(db: Database, ids: seq<string>, lids: seq<LaunchId>)
    requires Clean(db)
    ensures Found1(db, ids) == [] && Found2(db, ids) == [] && Found3(db, lids) == []
    decreases |ids| + |lids|
  {
    if ids != [] {
      NothingFound(db, ids[..|ids|-1], lids);
    }
    if lids != [] {
      NothingFound(db, ids, lids[..|lids|-1]);
    }
  }

  /** Reconciling keeps every charge: the ledger rebuilt afterwards is the ledger before. */
  lemma ReconciledKeepsLedger(w: World)
    requires Inv(w)
    ensures Known(Reconciled(w.db).launches, w.db.launchOrder)
    ensures ChargesOf(Reconciled(w.db).launches, w.db.launchOrder) == ChargesOf(w.db.launches, w.db.launchOrder)
    ensures Rebuild(Reconciled(w.db)) == Rebuild(w.db)
    ensures Reconciled(w.db).incumbent == w.db.incumbent
  {
    var db' := Reconciled(w.db);
    forall lid | lid in w.db.launchOrder
      ensures lid in w.db.launches && lid in db'.launches && SameBill(w.db.launches[lid], db'.launches[lid])
    {
      assert LaunchOk(w.db, w.released, lid);
    }
    SameBillsSameLedger(w.db, db');
  }

  lemma SameBillsSameLedger(db: Database, db': Database)
    requires Known(db.launches, db.launchOrder) && Known(db'.launches, db.launchOrder)
    requires forall lid | lid in db.launchOrder :: SameBill(db.launches[lid], db'.launches[lid])
    requires db'.launchOrder == db.launchOrder && db'.iterations == db.iterations && db'.transfers == db.transfers
    requires db'.maxLaunches == db.maxLaunches
    ensures ChargesOf(db'.launches, db.launchOrder) == ChargesOf(db.launches, db.launchOrder)
    ensures Rebuild(db') == Rebuild(db)
  {
    ChargesFrame(db.launches, db'.launches, db.launchOrder);
    assert AllAttributed(db'.launches, db'.launchOrder) == AllAttributed(db.launches, db.launchOrder);
  }
}
