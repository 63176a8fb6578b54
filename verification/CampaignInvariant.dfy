/** The protocol invariant holds in every reachable state. */
module CampaignInvariant {
  import opened Results
  import opened Budgets
  import opened CampaignDatabase
  import opened LedgerRebuild
  import opened CampaignProtocol

  /** The parts of the invariant that only the database and the releases decide. */
  predicate DataOk(db: Database, released: set<string>) {
    && OrderOk(db) && BudgetOk(db) && AllLaunchesOk(db, released) && AllExecutionsOk(db, released)
    && RowsOk(db, released)
  }

  predicate RowsOk(db: Database, released: set<string>) {
    ExecutionOrderOk(db) && (forall id | id in released :: id in db.executions) && db.incumbent.Some?
  }

  lemma RowsStay(db: Database, db': Database, released: set<string>)
    requires RowsOk(db, released) && db'.executions == db.executions && db'.executionOrder == db.executionOrder
    requires db'.incumbent == db.incumbent
    ensures RowsOk(db', released)
  {
  }

  // ---------------------------------------------------------------- launch writes

  lemma StateKeepsOrder(db: Database, lid: LaunchId, to: LaunchState, receipt: Option<nat>)
    requires OrderOk(db) && lid in db.launches
    ensures OrderOk(WithState(db, lid, to, receipt))
  {
  }

  lemma StateKeepsBudget(db: Database, lid: LaunchId, to: LaunchState, receipt: Option<nat>)
    requires OrderOk(db) && BudgetOk(db) && lid in db.launches
    requires (to != NotStarted) == db.launches[lid].charged || to == NotStarted
    ensures OrderOk(WithState(db, lid, to, receipt)) && BudgetOk(WithState(db, lid, to, receipt))
  {
    hide ChargesOf, Used, Limit, NeverOverdrawn;
    var db' := WithState(db, lid, to, receipt);
    StateKeepsOrder(db, lid, to, receipt);
    var charges, charges' := ChargesOf(db.launches, db.launchOrder), ChargesOf(db'.launches, db'.launchOrder);
    forall c: Category
      ensures |charges'| <= |charges| && Used(charges', c) <= Used(charges, c)
    {
      ChargesShrink(db.launches, db'.launches, db.launchOrder, c);
    }
    StateKeepsResearch(db, lid, to, receipt);
    CeilingsKeptBelow(charges, charges', db.transfers, ResearchLaunched(db), ResearchLaunched(db'));
    assert |charges'| <= |charges| by {
      ChargesShrink(db.launches, db'.launches, db.launchOrder, RecoveryReserve);
    }
  }

  lemma StateKeepsResearch(db: Database, lid: LaunchId, to: LaunchState, receipt: Option<nat>)
    requires lid in db.launches
    ensures ResearchLaunched(db) ==> ResearchLaunched(WithState(db, lid, to, receipt))
  {
    if ResearchLaunched(db) {
      var other :| other in db.launches && db.launches[other].key.ResearchKey?;
      assert WithState(db, lid, to, receipt).launches[other].key.ResearchKey?;
    }
  }

  lemma CeilingsKeptBelow(charges: seq<Charge>, charges': seq<Charge>, transfers: seq<Transfer>, research: bool,
                          research': bool)
    requires CeilingsKept(charges, transfers, research) && (research ==> research')
    requires forall c: Category :: Used(charges', c) <= Used(charges, c)
    ensures CeilingsKept(charges', transfers, research')
  {
    forall c: Category
      ensures Used(charges', c) <= Limit(transfers, c) || (research' && c == DiverseInnerScreen)
    {
      assert Used(charges, c) <= Limit(transfers, c) || (research && c == DiverseInnerScreen);
    }
  }

  /** When a launch may take a new state. */
  predicate Movable(db: Database, released: set<string>, lid: LaunchId, to: LaunchState, receipt: Option<nat>)
    requires lid in db.launches
  {
    && lid.CandidateLaunch? && db.launches[lid].state != NotStarted && to != Reserved
    && (to == Started ==> receipt.Some? && Owned(db, lid))
    && (to == NotStarted ==>
          Owned(db, lid) && db.executions[lid.execution].status == Failed && lid.execution !in released)
  }

  lemma StateKeepsLaunch(db: Database, released: set<string>, lid: LaunchId, to: LaunchState, receipt: Option<nat>)
    requires lid in db.launches && LaunchOk(db, released, lid) && Movable(db, released, lid, to, receipt)
    ensures LaunchOk(WithState(db, lid, to, receipt), released, lid)
  {
  }

  lemma StateKeepsOthers(db: Database, released: set<string>, lid: LaunchId, to: LaunchState, receipt: Option<nat>,
                         other: LaunchId)
    requires lid in db.launches && other in db.launches && other != lid && LaunchOk(db, released, other)
    ensures LaunchOk(WithState(db, lid, to, receipt), released, other)
  {
  }

  lemma StateKeepsExecutions(db: Database, released: set<string>, lid: LaunchId, to: LaunchState, receipt: Option<nat>)
    requires lid in db.launches && AllExecutionsOk(db, released)
    ensures AllExecutionsOk(WithState(db, lid, to, receipt), released)
  {
    var db' := WithState(db, lid, to, receipt);
    forall id | id in db'.executions
      ensures ExecutionOk(db', released, id)
    {
      assert ExecutionOk(db, released, id);
    }
  }

  lemma StateKeepsLaunches(db: Database, released: set<string>, lid: LaunchId, to: LaunchState, receipt: Option<nat>)
    requires lid in db.launches && AllLaunchesOk(db, released) && Movable(db, released, lid, to, receipt)
    ensures AllLaunchesOk(WithState(db, lid, to, receipt), released)
  {
    var db' := WithState(db, lid, to, receipt);
    forall other | other in db'.launches
      ensures LaunchOk(db', released, other)
    {
      if other == lid {
        StateKeepsLaunch(db, released, lid, to, receipt);
      } else {
        StateKeepsOthers(db, released, lid, to, receipt, other);
      }
    }
  }

  lemma MovableIsCharged(db: Database, released: set<string>, lid: LaunchId, to: LaunchState, receipt: Option<nat>)
    requires AllLaunchesOk(db, released) && lid in db.launches && Movable(db, released, lid, to, receipt)
    ensures db.launches[lid].charged
  {
    assert LaunchOk(db, released, lid);
  }

  /** What the new state of one launch has to satisfy for everything else to stay as it was. */
  lemma StateKeepsData(db: Database, released: set<string>, lid: LaunchId, to: LaunchState, receipt: Option<nat>)
    requires DataOk(db, released) && lid in db.launches && Movable(db, released, lid, to, receipt)
    ensures DataOk(WithState(db, lid, to, receipt), released)
  {
    MovableIsCharged(db, released, lid, to, receipt);
    StateKeepsBudget(db, lid, to, receipt);
    StateKeepsLaunches(db, released, lid, to, receipt);
    StateKeepsExecutions(db, released, lid, to, receipt);
    RowsStay(db, WithState(db, lid, to, receipt), released);
  }

  lemma LaunchKeepsOrder(db: Database, lid: LaunchId, key: Key, category: Category, original: Category, terms: Terms)
    requires OrderOk(db) && lid !in db.launches
    ensures OrderOk(WithLaunch(db, lid, key, category, original, terms))
  {
    assert lid !in db.launchOrder;
  }

  lemma LaunchAddsCharge(db: Database, lid: LaunchId, key: Key, category: Category, original: Category, terms: Terms)
    requires Known(db.launches, db.launchOrder) && lid !in db.launches
    ensures var db' := WithLaunch(db, lid, key, category, original, terms);
            && Known(db'.launches, db'.launchOrder)
            && ChargesOf(db'.launches, db'.launchOrder) == var charges := ChargesOf(db.launches, db.launchOrder);
               charges + [ChargeOf(|charges| + 1, lid, db'.launches[lid])]
  {
    var db' := WithLaunch(db, lid, key, category, original, terms);
    assert Known(db'.launches, db'.launchOrder);
    ChargesSnoc(db'.launches, db.launchOrder, lid);
    ChargesFrame(db.launches, db'.launches, db.launchOrder);
  }

  lemma ChargeKeepsBudget(db: Database, db': Database, x: Charge)
    requires Known(db.launches, db.launchOrder) && Known(db'.launches, db'.launchOrder) && BudgetOk(db)
    requires db'.maxLaunches == db.maxLaunches && db'.transfers == db.transfers
    requires ChargesOf(db'.launches, db'.launchOrder) == ChargesOf(db.launches, db.launchOrder) + [x]
    requires |ChargesOf(db.launches, db.launchOrder)| < db.maxLaunches
    requires CeilingsKept(ChargesOf(db.launches, db.launchOrder) + [x], db.transfers, ResearchLaunched(db'))
    ensures BudgetOk(db')
  {
  }

  lemma ReserveKeepsBudget(db: Database, spec: Spec, q: Request, remaining: real, reserve: real, terms: Terms)
    requires OrderOk(db) && BudgetOk(db) && CandidateLaunch(spec.id) !in db.launches
    requires ValidRequest(q) && q.Trains() && Rebuild(db).Success?
    requires Admit(Rebuild(db).value, q, remaining, reserve).Allowed()
    ensures var db' := WithLaunch(db, CandidateLaunch(spec.id), KeyOf(spec), q.category.value, OriginalOf(q), terms);
            OrderOk(db') && BudgetOk(db')
  {
    var lid := CandidateLaunch(spec.id);
    var c, o := q.category.value, OriginalOf(q);
    LaunchKeepsOrder(db, lid, KeyOf(spec), c, o, terms);
    LaunchAddsCharge(db, lid, KeyOf(spec), c, o, terms);
    var db' := WithLaunch(db, lid, KeyOf(spec), c, o, terms);
    var x := ChargeOf(|ChargesOf(db.launches, db.launchOrder)| + 1, lid, db'.launches[lid]);
    RebuildParts(db);
    AdmittedFits(Rebuild(db).value, q, remaining, reserve, x);
    ChargeKeepsBudget(db, db', x);
  }

  lemma RebuildParts(db: Database)
    requires Known(db.launches, db.launchOrder) && BudgetOk(db) && Rebuild(db).Success?
    ensures var l := Rebuild(db).value;
            && l.charges == ChargesOf(db.launches, db.launchOrder) && l.transfers == db.transfers
            && l.maxLaunches == db.maxLaunches && WithinCeilings(l.charges, l.transfers)
  {
  }

  /** An admitted request leaves room for its charge. */
  lemma AdmittedFits(l: Ledger, q: Request, remaining: real, reserve: real, x: Charge)
    requires ValidRequest(q) && q.Trains() && x.category == q.category.value
    requires WithinCeilings(l.charges, l.transfers) && Admit(l, q, remaining, reserve).Allowed()
    ensures |l.charges| < l.maxLaunches && WithinCeilings(l.charges + [x], l.transfers)
  {
    forall c: Category
      ensures Used(l.charges + [x], c) <= Limit(l.transfers, c)
    {
      UsedSnoc(l.charges, x, c);
      assert Used(l.charges, c) <= Limit(l.transfers, c);
    }
  }

  lemma UnadmittedKeepsBudget(db: Database, id: string, sources: nat, terms: Terms)
    requires OrderOk(db) && BudgetOk(db) && CandidateLaunch(id) !in db.launches && !LimitReached(db)
    ensures OrderOk(WithResearchLaunch(db, id, sources, terms)) && BudgetOk(WithResearchLaunch(db, id, sources, terms))
  {
    var lid := CandidateLaunch(id);
    LaunchKeepsOrder(db, lid, ResearchKey(id, sources), DiverseInnerScreen, DiverseInnerScreen, terms);
    LaunchAddsCharge(db, lid, ResearchKey(id, sources), DiverseInnerScreen, DiverseInnerScreen, terms);
    var db' := WithResearchLaunch(db, id, sources, terms);
    var charges := ChargesOf(db.launches, db.launchOrder);
    var x := ChargeOf(|charges| + 1, lid, db'.launches[lid]);
    assert db'.launches[lid].key.ResearchKey?;
    ScreenChargeKeepsCeilings(charges, x, db.transfers, ResearchLaunched(db));
    ChargeKeepsBudget(db, db', x);
  }

  lemma ScreenChargeKeepsCeilings(charges: seq<Charge>, x: Charge, transfers: seq<Transfer>, research: bool)
    requires CeilingsKept(charges, transfers, research) && x.category == DiverseInnerScreen
    ensures CeilingsKept(charges + [x], transfers, true)
  {
    forall c: Category
      ensures Used(charges + [x], c) <= Limit(transfers, c) || c == DiverseInnerScreen
    {
      UsedSnoc(charges, x, c);
      assert Used(charges, c) <= Limit(transfers, c) || c == DiverseInnerScreen;
    }
  }

  /** What a reservation has to bring along. */
  predicate Reservation(id: string, key: Key, category: Category, original: Category, terms: Terms) {
    && Identifier(id) && Identifier(terms.purpose) && !key.QualificationKey? && key.execution == id
    && if category == RecoveryReserve then original != RecoveryReserve else original == category
  }

  lemma ReserveKeepsLaunches(db: Database, released: set<string>, id: string, key: Key, category: Category,
                             original: Category, terms: Terms)
    requires AllLaunchesOk(db, released) && AllExecutionsOk(db, released) && CandidateLaunch(id) !in db.launches
    requires Reservation(id, key, category, original, terms)
    ensures AllLaunchesOk(WithLaunch(db, CandidateLaunch(id), key, category, original, terms), released)
  {
    var db' := WithLaunch(db, CandidateLaunch(id), key, category, original, terms);
    if id in db.executions {
      assert ExecutionOk(db, released, id);
    }
    forall other | other in db'.launches
      ensures LaunchOk(db', released, other)
    {
      if other != CandidateLaunch(id) {
        assert LaunchOk(db, released, other);
      }
    }
  }

  lemma ReserveKeepsExecutions(db: Database, released: set<string>, lid: LaunchId, key: Key, category: Category,
                               original: Category, terms: Terms)
    requires AllExecutionsOk(db, released)
    ensures AllExecutionsOk(WithLaunch(db, lid, key, category, original, terms), released)
  {
    var db' := WithLaunch(db, lid, key, category, original, terms);
    forall id | id in db'.executions
      ensures ExecutionOk(db', released, id)
    {
      assert ExecutionOk(db, released, id);
    }
  }

  lemma ReserveKeepsData(db: Database, released: set<string>, id: string, key: Key, category: Category,
                         original: Category, terms: Terms)
    requires DataOk(db, released) && CandidateLaunch(id) !in db.launches
    requires Reservation(id, key, category, original, terms)
    requires var db' := WithLaunch(db, CandidateLaunch(id), key, category, original, terms);
             OrderOk(db') && BudgetOk(db')
    ensures DataOk(WithLaunch(db, CandidateLaunch(id), key, category, original, terms), released)
  {
    hide AllLaunchesOk, AllExecutionsOk, Reservation;
    ReserveKeepsLaunches(db, released, id, key, category, original, terms);
    ReserveKeepsExecutions(db, released, CandidateLaunch(id), key, category, original, terms);
    RowsStay(db, WithLaunch(db, CandidateLaunch(id), key, category, original, terms), released);
  }

  // ---------------------------------------------------------------- execution writes

  lemma CreateKeepsData(db: Database, released: set<string>, spec: Spec)
    requires DataOk(db, released) && spec.id !in db.executions
    requires spec.action == Train ==>
               CandidateLaunch(spec.id) in db.launches && db.launches[CandidateLaunch(spec.id)].state == Reserved
    ensures DataOk(WithExecution(db, spec), released)
  {
    hide AllLaunchesOk, AllExecutionsOk;
    CreateKeepsLaunches(db, released, spec);
    CreateKeepsExecutions(db, released, spec);
    var db' := WithExecution(db, spec);
    assert OrderOk(db') && BudgetOk(db');
    assert ExecutionOrderOk(db');
  }

  lemma CreateKeepsLaunches(db: Database, released: set<string>, spec: Spec)
    requires AllLaunchesOk(db, released) && spec.id !in db.executions && spec.id !in released
    requires spec.action == Train ==>
               CandidateLaunch(spec.id) in db.launches && db.launches[CandidateLaunch(spec.id)].state == Reserved
    ensures AllLaunchesOk(WithExecution(db, spec), released)
  {
    var db' := WithExecution(db, spec);
    forall other | other in db'.launches
      ensures LaunchOk(db', released, other)
    {
      assert LaunchOk(db, released, other);
    }
  }

  lemma CreateKeepsExecutions(db: Database, released: set<string>, spec: Spec)
    requires AllExecutionsOk(db, released) && spec.id !in db.executions && spec.id !in released
    requires spec.action == Train ==> CandidateLaunch(spec.id) in db.launches
    ensures AllExecutionsOk(WithExecution(db, spec), released)
  {
    var db' := WithExecution(db, spec);
    forall id | id in db'.executions
      ensures ExecutionOk(db', released, id)
    {
      if id != spec.id {
        assert ExecutionOk(db, released, id);
      }
    }
  }

  lemma EditKeepsLaunches(db: Database, released: set<string>, id: string, x: Execution)
    requires AllLaunchesOk(db, released) && id in db.executions && Unfinished(db.executions[id].status)
    requires x.launch == db.executions[id].launch
    ensures AllLaunchesOk(db.(executions := db.executions[id := x]), released)
  {
    var db' := db.(executions := db.executions[id := x]);
    forall other | other in db'.launches
      ensures LaunchOk(db', released, other)
    {
      assert LaunchOk(db, released, other);
    }
  }

  lemma EditKeepsExecutions(db: Database, released: set<string>, id: string, x: Execution)
    requires AllExecutionsOk(db, released) && id in db.executions
    requires ExecutionOk(db.(executions := db.executions[id := x]), released, id)
    ensures AllExecutionsOk(db.(executions := db.executions[id := x]), released)
  {
    var db' := db.(executions := db.executions[id := x]);
    forall other | other in db'.executions
      ensures ExecutionOk(db', released, other)
    {
      assert ExecutionOk(db, released, other);
    }
  }

  lemma EditKeepsRows(db: Database, released: set<string>, id: string, x: Execution)
    requires OrderOk(db) && BudgetOk(db) && RowsOk(db, released) && id in db.executions
    ensures var db' := db.(executions := db.executions[id := x]); OrderOk(db') && BudgetOk(db') && RowsOk(db', released)
  {
  }

  /** Rewriting one active execution leaves every launch as it was. */
  lemma ExecutionKeepsData(db: Database, released: set<string>, id: string, x: Execution)
    requires DataOk(db, released) && id in db.executions && Unfinished(db.executions[id].status)
    requires x.launch == db.executions[id].launch
    requires ExecutionOk(db.(executions := db.executions[id := x]), released, id)
    ensures DataOk(db.(executions := db.executions[id := x]), released)
  {
    EditKeepsLaunches(db, released, id, x);
    EditKeepsExecutions(db, released, id, x);
    EditKeepsRows(db, released, id, x);
  }

  lemma ReleaseKeepsData(db: Database, released: set<string>, id: string)
    requires DataOk(db, released) && id in db.executions && db.executions[id].status == Running
    requires db.executions[id].launch.Some? ==>
               && db.executions[id].launch.value in db.launches
               && db.launches[db.executions[id].launch.value].state == Started
    ensures DataOk(db, released + {id})
  {
    assert ExecutionOk(db, released, id);
    forall other | other in db.launches
      ensures LaunchOk(db, released + {id}, other)
    {
      assert LaunchOk(db, released, other);
    }
    forall other | other in db.executions
      ensures ExecutionOk(db, released + {id}, other)
    {
      assert ExecutionOk(db, released, other);
    }
  }

  lemma SettleKeepsData(db: Database, released: set<string>, id: string)
    requires DataOk(db, released) && Awaits(db, id)
    ensures DataOk(Settle(db, id), released)
  {
    var x := db.executions[id];
    var lid := x.launch.value;
    assert ExecutionOk(db, released, id);
    assert lid == CandidateLaunch(id) && Owned(db, lid);
    assert LaunchOk(db, released, lid);
    var to := Desired(x.result.value.released, db.launches[lid].state);
    StateKeepsData(db, released, lid, to, None);
  }

  // ---------------------------------------------------------------- the steps

  lemma InvParts(w: World)
    requires Inv(w)
    ensures DataOk(w.db, w.released) && ControllerOk(w) && ReportsOk(w.reports)
  {
  }

  lemma InvWhole(w: World)
    requires DataOk(w.db, w.released) && ControllerOk(w) && ReportsOk(w.reports)
    ensures Inv(w)
  {
  }

  lemma ReserveIs(w: World, e: Event)
    requires Enabled(w, e) && e.Reserve?
    ensures CandidateLaunch(e.spec.id) !in w.db.launches && ValidRequest(e.request) && e.request.Trains()
    ensures Known(w.db.launches, w.db.launchOrder) && Rebuild(w.db).Success?
    ensures Admit(Rebuild(w.db).value, e.request, e.remaining, e.reserve).Allowed()
    ensures Reservation(e.spec.id, KeyOf(e.spec), e.request.category.value, OriginalOf(e.request), e.terms)
    ensures Next(w, e)
         == w.(db := WithLaunch(w.db, CandidateLaunch(e.spec.id), KeyOf(e.spec), e.request.category.value,
                                OriginalOf(e.request), e.terms))
  {
  }

  lemma ReserveStep(w: World, e: Event)
    requires Inv(w) && Enabled(w, e) && e.Reserve?
    ensures Inv(Next(w, e))
  {
    InvParts(w);
    ReserveIs(w, e);
    ReserveKeepsBudget(w.db, e.spec, e.request, e.remaining, e.reserve, e.terms);
    ReserveKeepsData(w.db, w.released, e.spec.id, KeyOf(e.spec), e.request.category.value, OriginalOf(e.request),
                     e.terms);
    InvWhole(Next(w, e));
  }

  lemma UnadmittedIs(w: World, e: Event)
    requires Enabled(w, e) && e.ReserveUnadmitted?
    ensures CandidateLaunch(e.id) !in w.db.launches && !LimitReached(w.db)
    ensures Reservation(e.id, ResearchKey(e.id, e.sources), DiverseInnerScreen, DiverseInnerScreen, e.terms)
    ensures Next(w, e) == w.(db := WithResearchLaunch(w.db, e.id, e.sources, e.terms))
  {
    hide Identifier, WithResearchLaunch, LimitReached;
    ResearchPurposeIsText();
  }

  lemma ResearchPurposeIsText()
    ensures Identifier(RESEARCH_PURPOSE)
  {
    assert !Blank(RESEARCH_PURPOSE[0]);
  }

  lemma UnadmittedStep(w: World, e: Event)
    requires Inv(w) && Enabled(w, e) && e.ReserveUnadmitted?
    ensures Inv(Next(w, e))
  {
    InvParts(w);
    UnadmittedIs(w, e);
    UnadmittedKeepsBudget(w.db, e.id, e.sources, e.terms);
    ReserveKeepsData(w.db, w.released, e.id, ResearchKey(e.id, e.sources), DiverseInnerScreen, DiverseInnerScreen,
                     e.terms);
    InvWhole(Next(w, e));
  }

  lemma CreateIs(w: World, e: Event)
    requires Enabled(w, e) && e.Create?
    ensures w.controller == Idle && e.spec.id !in w.db.executions
    ensures e.spec.action == Train ==>
              && CandidateLaunch(e.spec.id) in w.db.launches
              && w.db.launches[CandidateLaunch(e.spec.id)].state == Reserved
    ensures Next(w, e) == w.(db := WithExecution(w.db, e.spec), controller := Prepared(e.spec.id))
  {
  }

  lemma CreateStep(w: World, e: Event)
    requires Inv(w) && Enabled(w, e) && e.Create?
    ensures Inv(Next(w, e))
  {
    InvParts(w);
    CreateIs(w, e);
    CreateKeepsData(w.db, w.released, e.spec);
    InvWhole(Next(w, e));
  }

  lemma ReceiptIs(w: World, e: Event)
    requires Enabled(w, e) && e.Receipt?
    ensures w.controller.Prepared? && HasActive(w) && Active(w).status == Starting
    ensures Next(w, e)
         == w.(db := WithReceipt(w.db, w.controller.id, e.process), controller := Receipted(w.controller.id))
  {
  }

  lemma ReceiptControl(w: World, process: nat)
    requires AllExecutionsOk(w.db, w.released) && ControllerOk(w) && w.controller.Prepared?
    ensures Active(w).status == Starting
    ensures var id := w.controller.id;
            && ExecutionOk(WithReceipt(w.db, id, process), w.released, id)
            && ControllerOk(w.(db := WithReceipt(w.db, id, process), controller := Receipted(id)))
  {
    assert ExecutionOk(w.db, w.released, w.controller.id);
  }

  lemma ReceiptStep(w: World, e: Event)
    requires Inv(w) && Enabled(w, e) && e.Receipt?
    ensures Inv(Next(w, e))
  {
    InvParts(w);
    ReceiptIs(w, e);
    ReceiptControl(w, e.process);
    ExecutionKeepsData(w.db, w.released, w.controller.id, Active(w).(status := Running, receipt := Some(e.process)));
    InvWhole(Next(w, e));
  }

  lemma BeginIs(w: World, e: Event)
    requires Enabled(w, e) && e.Begin?
    ensures w.controller.Receipted? && HasActive(w) && Active(w).receipt.Some?
    ensures Active(w).launch.Some? && Active(w).launch.value in w.db.launches
    ensures Next(w, e)
         == w.(db := WithState(w.db, Active(w).launch.value, Started, Active(w).receipt),
               controller := Committed(w.controller.id))
  {
  }

  lemma BeginControl(w: World)
    requires AllExecutionsOk(w.db, w.released) && ControllerOk(w) && w.controller.Receipted?
    requires Active(w).receipt.Some? && Active(w).launch.Some? && Active(w).launch.value in w.db.launches
    ensures Movable(w.db, w.released, Active(w).launch.value, Started, Active(w).receipt)
    ensures ControllerOk(w.(db := WithState(w.db, Active(w).launch.value, Started, Active(w).receipt),
                            controller := Committed(w.controller.id)))
  {
    assert ExecutionOk(w.db, w.released, w.controller.id);
  }

  lemma BeginStep(w: World, e: Event)
    requires Inv(w) && Enabled(w, e) && e.Begin?
    ensures Inv(Next(w, e))
  {
    InvParts(w);
    BeginIs(w, e);
    BeginControl(w);
    StateKeepsData(w.db, w.released, Active(w).launch.value, Started, Active(w).receipt);
    InvWhole(Next(w, e));
  }

  lemma ReleaseControl(w: World)
    requires ControllerOk(w) && w.controller.Committed?
    ensures Active(w).status == Running && ActiveLaunchIn(w, Started)
    ensures var id := w.controller.id; ControllerOk(w.(released := w.released + {id}, controller := Supervising(id)))
  {
  }

  lemma ReleaseStep(w: World, e: Event)
    requires Inv(w) && Enabled(w, e) && e.Release?
    ensures Inv(Next(w, e))
  {
    var id := w.controller.id;
    InvParts(w);
    ReleaseControl(w);
    ReleaseKeepsData(w.db, w.released, id);
    InvWhole(w.(released := w.released + {id}, controller := Supervising(id)));
  }

  /** The record that ends a run. */
  function EndedBy(w: World, validated: bool, artifacts: Artifacts): Database
    requires HasActive(w) && w.controller.Ended?
  {
    WithEnd(w.db, w.controller.id, if validated then Succeeded else Failed, Some(w.controller.verdict), artifacts)
  }

  lemma EndExecutionIs(w: World, e: Event)
    requires Enabled(w, e) && e.EndExecution?
    ensures w.controller.Ended? && HasActive(w) && Unfinished(Active(w).status)
    ensures e.validated ==> w.controller.verdict.succeeded
    ensures Evidence(Active(w).spec.action, e.validated, w.controller.verdict, e.artifacts)
    ensures Next(w, e) == w.(db := EndedBy(w, e.validated, e.artifacts))
  {
  }

  lemma EndControl(w: World, validated: bool, artifacts: Artifacts)
    requires AllExecutionsOk(w.db, w.released) && ControllerOk(w) && w.controller.Ended?
    requires Unfinished(Active(w).status) && (validated ==> w.controller.verdict.succeeded)
    ensures ExecutionOk(EndedBy(w, validated, artifacts), w.released, w.controller.id)
    ensures ControllerOk(w.(db := EndedBy(w, validated, artifacts)))
  {
    assert ExecutionOk(w.db, w.released, w.controller.id);
  }

  lemma EndExecutionStep(w: World, e: Event)
    requires Inv(w) && Enabled(w, e) && e.EndExecution?
    ensures Inv(Next(w, e))
  {
    InvParts(w);
    EndExecutionIs(w, e);
    EndControl(w, e.validated, e.artifacts);
    ExecutionKeepsData(w.db, w.released, w.controller.id,
                       Active(w).(status := if e.validated then Succeeded else Failed,
                                  result := Some(w.controller.verdict), artifacts := e.artifacts));
    InvWhole(Next(w, e));
  }

  lemma SettleIs(w: World, e: Event)
    requires Enabled(w, e) && (e.EndLaunch? || e.Rehydrate?)
    ensures w.controller.Ended? || (e.Rehydrate? && w.controller == Idle)
    ensures Awaits(w.db, if e.EndLaunch? then w.controller.id else e.id)
    ensures Next(w, e) == w.(db := Settle(w.db, if e.EndLaunch? then w.controller.id else e.id))
  {
  }

  /** Settling moves a launch whose execution is over. */
  lemma SettleControl(w: World, id: string)
    requires ControllerOk(w) && Awaits(w.db, id)
    requires w.controller == Idle || (w.controller.Ended? && w.controller.id == id)
    ensures ControllerOk(w.(db := Settle(w.db, id)))
  {
  }

  lemma SettleStep(w: World, e: Event)
    requires Inv(w) && Enabled(w, e) && (e.EndLaunch? || e.Rehydrate?)
    ensures Inv(Next(w, e))
  {
    var id := if e.EndLaunch? then w.controller.id else e.id;
    InvParts(w);
    SettleIs(w, e);
    SettleKeepsData(w.db, w.released, id);
    SettleControl(w, id);
    InvWhole(Next(w, e));
  }

  lemma InterruptIs(w: World, e: Event)
    requires Enabled(w, e) && e.Interrupt?
    ensures w.controller == Restarting && e.id in w.db.executions && Unfinished(w.db.executions[e.id].status)
    ensures Next(w, e)
         == w.(db := WithEnd(w.db, e.id, Interrupted, None, map[]),
               controller := Repairing(Some(e.id), w.db.executions[e.id].launch))
  {
  }

  lemma InterruptStep(w: World, e: Event)
    requires Inv(w) && Enabled(w, e) && e.Interrupt?
    ensures Inv(Next(w, e))
  {
    InvParts(w);
    InterruptIs(w, e);
    var x := w.db.executions[e.id].(status := Interrupted, result := None, artifacts := map[]);
    assert ExecutionOk(w.db, w.released, e.id);
    ExecutionKeepsData(w.db, w.released, e.id, x);
    InvWhole(Next(w, e));
  }

  lemma CloseIs(w: World, e: Event)
    requires Enabled(w, e) && (e.Doubt? || e.Close?)
    ensures InRestart(w.controller) && e.launch in w.db.launches && Closable(w.db, e.launch)
    ensures LegalMove(w.db.launches[e.launch].state, if e.Doubt? then StartUncertain else Finished)
    ensures Next(w, e)
         == w.(db := WithState(w.db, e.launch, if e.Doubt? then StartUncertain else Finished, None),
               controller := Repairing(Owner(w.db, e.launch), Some(e.launch)))
  {
  }

  lemma CloseStep(w: World, e: Event)
    requires Inv(w) && Enabled(w, e) && (e.Doubt? || e.Close?)
    ensures Inv(Next(w, e))
  {
    InvParts(w);
    CloseIs(w, e);
    StateKeepsData(w.db, w.released, e.launch, if e.Doubt? then StartUncertain else Finished, None);
    InvWhole(Next(w, e));
  }

  lemma StopControl(w: World, e: Event)
    requires AllExecutionsOk(w.db, w.released) && ControllerOk(w) && Enabled(w, e) && e.Stop?
    ensures ControllerOk(Next(w, e))
  {
    assert ExecutionOk(w.db, w.released, w.controller.id);
  }

  lemma CommitReturnsControl(w: World, e: Event)
    requires ControllerOk(w) && Enabled(w, e) && e.CommitReturns?
    ensures ControllerOk(Next(w, e))
  {
  }

  lemma VolatileStep(w: World, e: Event)
    requires Inv(w) && Enabled(w, e)
    requires e.CommitReturns? || e.Stop? || e.Leave? || e.Crash? || e.Reopen? || e.Restart? || e.File? || e.Resume?
    ensures Inv(Next(w, e))
  {
    hide DataOk, ControllerOk, Inv, Enabled;
    InvParts(w);
    if e.Stop? {
      StopControl(w, e);
    } else if e.CommitReturns? {
      CommitReturnsControl(w, e);
    } else {
      QuietControl(w, e);
    }
    VolatileReports(w, e);
    InvWhole(Next(w, e));
  }

  lemma QuietControl(w: World, e: Event)
    requires Enabled(w, e)
    requires e.Leave? || e.Crash? || e.Reopen? || e.Restart? || e.File? || e.Resume?
    ensures ControllerOk(Next(w, e))
  {
  }

  lemma VolatileReports(w: World, e: Event)
    requires ReportsOk(w.reports) && Enabled(w, e)
    requires e.CommitReturns? || e.Stop? || e.Leave? || e.Crash? || e.Reopen? || e.Restart? || e.File? || e.Resume?
    ensures ReportsOk(Next(w, e).reports) && Next(w, e).db == w.db && Next(w, e).released == w.released
  {
  }

  lemma ResearchKeepsRecords(db: Database, released: set<string>, iterations: nat, incumbent: string)
    requires AllLaunchesOk(db, released) && AllExecutionsOk(db, released)
    ensures var db' := db.(iterations := iterations, incumbent := Some(incumbent));
            AllLaunchesOk(db', released) && AllExecutionsOk(db', released)
  {
    var db' := db.(iterations := iterations, incumbent := Some(incumbent));
    forall lid | lid in db'.launches
      ensures LaunchOk(db', released, lid)
    {
      assert LaunchOk(db, released, lid);
    }
    forall id | id in db'.executions
      ensures ExecutionOk(db', released, id)
    {
      assert ExecutionOk(db, released, id);
    }
  }

  lemma ResearchKeepsRows(db: Database, released: set<string>, iterations: nat, incumbent: string)
    requires OrderOk(db) && BudgetOk(db) && RowsOk(db, released)
    ensures var db' := db.(iterations := iterations, incumbent := Some(incumbent));
            OrderOk(db') && BudgetOk(db') && RowsOk(db', released)
  {
  }

  lemma ResearchControl(w: World, e: Event)
    requires Enabled(w, e) && e.Research?
    ensures ControllerOk(Next(w, e))
    ensures Next(w, e) == w.(db := w.db.(iterations := e.iterations, incumbent := Some(e.incumbent)))
  {
  }

  lemma ResearchStep(w: World, e: Event)
    requires Inv(w) && Enabled(w, e) && e.Research?
    ensures Inv(Next(w, e))
  {
    hide Enabled, ControllerOk, AllLaunchesOk, AllExecutionsOk, OrderOk, BudgetOk, RowsOk, ReportsOk;
    InvParts(w);
    ResearchKeepsRecords(w.db, w.released, e.iterations, e.incumbent);
    ResearchKeepsRows(w.db, w.released, e.iterations, e.incumbent);
    ResearchControl(w, e);
    InvWhole(Next(w, e));
  }

  lemma LaunchingStep(w: World, e: Event)
    requires Inv(w) && Enabled(w, e)
    requires e.Reserve? || e.ReserveUnadmitted? || e.Create? || e.Receipt? || e.Begin? || e.Release?
    ensures Inv(Next(w, e))
  {
    hide Inv, Enabled, Next;
    match e
    case Reserve(_, _, _, _, _) => ReserveStep(w, e);
    case ReserveUnadmitted(_, _, _) => UnadmittedStep(w, e);
    case Create(_) => CreateStep(w, e);
    case Receipt(_) => ReceiptStep(w, e);
    case Begin => BeginStep(w, e);
    case Release => ReleaseStep(w, e);
  }

  lemma ClosingStep(w: World, e: Event)
    requires Inv(w) && Enabled(w, e)
    requires e.EndExecution? || e.EndLaunch? || e.Rehydrate? || e.Interrupt? || e.Doubt? || e.Close? || e.Research?
    ensures Inv(Next(w, e))
  {
    hide Inv, Enabled, Next;
    match e
    case EndExecution(_, _) => EndExecutionStep(w, e);
    case Interrupt(_) => InterruptStep(w, e);
    case Doubt(_) => CloseStep(w, e);
    case Close(_) => CloseStep(w, e);
    case Research(_, _) => ResearchStep(w, e);
    case _ => SettleStep(w, e);
  }

  /** Every step keeps the invariant. */
  lemma StepKeepsInv(w: World, e: Event)
    requires Inv(w) && Enabled(w, e)
    ensures Inv(Next(w, e))
  {
    hide Inv, Enabled, Next;
    if e.Reserve? || e.ReserveUnadmitted? || e.Create? || e.Receipt? || e.Begin? || e.Release? {
      LaunchingStep(w, e);
    } else if e.EndExecution? || e.EndLaunch? || e.Rehydrate? || e.Interrupt? || e.Doubt? || e.Close? || e.Research? {
      ClosingStep(w, e);
    } else {
      VolatileStep(w, e);
    }
  }

  lemma QualificationPositions(k: nat)
    requires 1 <= k <= 6
    ensures QUALIFICATION_ORDER[k-1] == Qualification(k)
  {
    assert k == 1 || k == 2 || k == 3 || k == 4 || k == 5 || k == 6;
  }

  lemma QualificationOrderOk(launches: map<LaunchId, Launch>)
    requires launches == map n: nat | 1 <= n <= 6 :: Qualification(n) := ImportedLaunch(n, ImportedTerms(n))
    ensures Known(launches, QUALIFICATION_ORDER) && NoRepeats(QUALIFICATION_ORDER)
    ensures forall lid | lid in launches :: lid in QUALIFICATION_ORDER
    ensures forall k: nat | k < 6 :: launches[QUALIFICATION_ORDER[k]] == ImportedLaunch(k + 1, ImportedTerms(k + 1))
  {
    forall k: nat | k < 6
      ensures QUALIFICATION_ORDER[k] == Qualification(k + 1)
    {
      QualificationPositions(k + 1);
    }
    forall lid | lid in launches
      ensures lid in QUALIFICATION_ORDER
    {
      assert QUALIFICATION_ORDER[lid.number - 1] == lid;
    }
  }

  lemma CreatedOrder(maxLaunches: nat, transfers: seq<Transfer>, incumbent: string)
    ensures OrderOk(Created(maxLaunches, transfers, incumbent))
    ensures var db := Created(maxLaunches, transfers, incumbent);
            forall k | 0 <= k < 6 :: db.launches[db.launchOrder[k]] == ImportedLaunch(k + 1, ImportedTerms(k + 1))
  {
    QualificationOrderOk(Created(maxLaunches, transfers, incumbent).launches);
  }

  lemma CreatedBudget(db: Database)
    requires OrderOk(db) && |db.launchOrder| == 6
    requires forall k | 0 <= k < 6 :: db.launches[db.launchOrder[k]] == ImportedLaunch(k + 1, ImportedTerms(k + 1))
    requires QUALIFICATION_LAUNCHES <= db.maxLaunches <= MAX_TRAINING_LAUNCHES
    requires (forall t | t in db.transfers :: ValidTransfer(t)) && NeverOverdrawn(db.transfers)
    requires Limit(db.transfers, BaselineQualificationReplay) >= QUALIFICATION_LAUNCHES
    ensures BudgetOk(db)
  {
    LeadingCharges(db.launches, db.launchOrder, 6);
    var charges := ChargesOf(db.launches, db.launchOrder);
    forall c: Category
      ensures Used(charges, c) <= Limit(db.transfers, c)
    {
      UsedAll(charges, BaselineQualificationReplay, c);
      CeilingsNonNegative(db.transfers, c);
    }
  }

  lemma InitialInv(w: World)
    requires Initial(w)
    ensures Inv(w)
  {
    var db := w.db;
    CreatedOrder(db.maxLaunches, db.transfers, db.incumbent.value);
    CreatedBudget(db);
    forall lid | lid in db.launches
      ensures LaunchOk(db, {}, lid)
    {
      ImportedIdentifier(lid.number);
    }
  }

  lemma ImportedIdentifier(n: nat)
    ensures Identifier(ImportedTerms(n).purpose)
  {
    assert !Blank(ImportedTerms(n).purpose[0]);
  }

  lemma {:induction false} RunsKeepInv(ws: seq<World>, i: nat)
    requires IsRun(ws) && i < |ws|
    ensures Inv(ws[i])
  {
    hide Step, Initial, Inv;
    assert Arises(ws, i);
    if i == 0 {
      InitialInv(ws[0]);
    } else {
      RunsKeepInv(ws, i - 1);
      StepsKeepInv(ws[i-1], ws[i]);
    }
  }

  lemma StepsKeepInv(w: World, w': World)
    requires Inv(w) && Step(w, w')
    ensures Inv(w')
  {
    var e :| Enabled(w, e) && w' == Next(w, e);
    StepKeepsInv(w, e);
  }
}
