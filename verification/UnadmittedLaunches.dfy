/** The launches that the research loop reserves on the campaign's store without asking the ledger
    (src/kuairand_agent/research/loop.py): when they keep the ledger from being rebuilt. */
module UnadmittedLaunches {
  import opened Results
  import opened Budgets
  import opened CampaignDatabase
  import opened LedgerRebuild
  import opened CampaignProtocol
  import opened CampaignInvariant
  import opened CampaignSafety
  import opened CampaignStore

  /** The terms under which `begin_execution` reserves. */
  function ResearchTerms(experiment: string, iteration: nat, seed: nat): Terms {
    Terms(RESEARCH_PURPOSE, Some(experiment), Some(iteration), seed)
  }

  /** The reservation of `begin_execution`: no ceiling is looked at, only the launch limit. */
  method BeginReservation(store: CampaignStore, id: string, sources: nat, experiment: string, iteration: nat, seed: nat)
    returns (ack: Ack)
    requires store.Valid() && store.controller == Idle
    modifies store
    ensures store.Valid() && old(store.trace) <= store.trace
    ensures old(CandidateLaunch(id) in store.db.launches) ==> store.Now() == old(store.Now())
    ensures old(CandidateLaunch(id) in store.db.launches) && ack == Landed ==>
              var l := store.db.launches[CandidateLaunch(id)];
              l.key == ResearchKey(id, sources) && l.terms == ResearchTerms(experiment, iteration, seed)
    ensures !Identifier(id) ==> ack == Rejected && store.Now() == old(store.Now())
    ensures old(CandidateLaunch(id) !in store.db.launches && LimitReached(store.db)) ==>
              ack == Rejected && store.Now() == old(store.Now())
    ensures old(CandidateLaunch(id) !in store.db.launches && !LimitReached(store.db)) && Identifier(id) ==>
              Wrote(old(store.Now()), store.Now(),
                    ReserveUnadmitted(id, sources, ResearchTerms(experiment, iteration, seed)), ack)
    ensures old(CandidateLaunch(id) !in store.db.launches) && ack == Landed ==>
              && store.db.launchOrder == old(store.db.launchOrder) + [CandidateLaunch(id)]
              && CandidateLaunch(id) in store.db.launches
              && store.db.launches[CandidateLaunch(id)]
                 == Launch(|old(store.db.launchOrder)| + 1, ResearchKey(id, sources), Of(DiverseInnerScreen),
                           Of(DiverseInnerScreen),
                           Terms("autonomous generated candidate execution", Some(experiment), Some(iteration), seed),
                           Reserved, true, None)
    ensures store.faults >= old(store.faults)
    ensures store.faults == old(store.faults) && Identifier(id) && old(CandidateLaunch(id) !in store.db.launches) ==>
              ack == if old(LimitReached(store.db)) then Rejected else Landed
  {
    if !Identifier(id) {
      return Rejected;
    }
    var terms := ResearchTerms(experiment, iteration, seed);
    ack := store.ReserveLaunch(id, ResearchKey(id, sources), DiverseInnerScreen, DiverseInnerScreen, terms,
                               ReserveUnadmitted(id, sources, terms));
  }

  /** No more than fifty iterations are closed, and still the ledger cannot be rebuilt. */
  ghost predicate Stuck(db: Database) {
    && Known(db.launches, db.launchOrder) && db.iterations <= MAX_SCIENTIFIC_ITERATIONS
    && Rebuild(db).Failure?
  }

  lemma {:induction false} ScreensBesideQualification(charges: seq<Charge>)
    requires forall i | 0 <= i < QUALIFICATION_LAUNCHES && i < |charges| ::
               charges[i].category == BaselineQualificationReplay
    ensures |charges| >= QUALIFICATION_LAUNCHES ==>
              Used(charges, DiverseInnerScreen) + QUALIFICATION_LAUNCHES <= |charges|
    ensures |charges| < QUALIFICATION_LAUNCHES ==> Used(charges, DiverseInnerScreen) == 0
  {
    if charges != [] {
      ScreensBesideQualification(charges[..|charges|-1]);
    }
  }

  lemma StuckOverruns(w: World)
    requires Inv(w) && Stuck(w.db)
    ensures Limit(w.db.transfers, DiverseInnerScreen) + QUALIFICATION_LAUNCHES < w.db.maxLaunches
  {
    RebuiltLedgerIsValid(w);
    SixLead(w);
    ScreensBesideQualification(ChargesOf(w.db.launches, w.db.launchOrder));
  }

  // ---------------------------------------------------------------- a run of reservations

  /** A world that n reservations of the research loop lead to. */
  ghost predicate Screened(w: World, last: World, n: nat) {
    && last.controller == Idle && last.db.iterations == w.db.iterations
    && last.db.transfers == w.db.transfers && last.db.maxLaunches == w.db.maxLaunches
    && Known(last.db.launches, last.db.launchOrder)
    && |ChargesOf(last.db.launches, last.db.launchOrder)| == QUALIFICATION_LAUNCHES + n
    && Used(ChargesOf(last.db.launches, last.db.launchOrder), DiverseInnerScreen) == n
    && forall id | CandidateLaunch(id) in last.db.launches :: |id| <= n
  }

  lemma CreatedScreened(w: World)
    requires Initial(w)
    ensures Screened(w, w, 0)
  {
    var db := w.db;
    CreatedOrder(db.maxLaunches, db.transfers, db.incumbent.value);
    LeadingCharges(db.launches, db.launchOrder, 6);
    UsedAll(ChargesOf(db.launches, db.launchOrder), BaselineQualificationReplay, DiverseInnerScreen);
  }

  function Letters(n: nat): (s: string)
    ensures |s| == n && forall i | 0 <= i < n :: s[i] == 'a'
  {
    seq(n, _ => 'a')
  }

  /** One more reservation, of an id longer than all before it. */
  function Another(n: nat): Event {
    ReserveUnadmitted(Letters(n + 1), 0, Terms(RESEARCH_PURPOSE, None, None, 0))
  }

  lemma AnotherScreened(w: World, last: World, n: nat)
    requires Screened(w, last, n) && QUALIFICATION_LAUNCHES + n < w.db.maxLaunches
    ensures Enabled(last, Another(n)) && Screened(w, Next(last, Another(n)), n + 1)
  {
    var id := Letters(n + 1);
    assert id[0] == 'a' && Identifier(id);
    var db, lid, terms := last.db, CandidateLaunch(id), Terms(RESEARCH_PURPOSE, None, None, 0);
    var charges := ChargesOf(db.launches, db.launchOrder);
    LaunchAddsCharge(db, lid, ResearchKey(id, 0), DiverseInnerScreen, DiverseInnerScreen, terms);
    var x := ChargeOf(|charges| + 1, lid, WithResearchLaunch(db, id, 0, terms).launches[lid]);
    UsedSnoc(charges, x, DiverseInnerScreen);
  }

  lemma {:induction false} ScreeningRun(w: World, n: nat) returns (ws: seq<World>)
    requires Initial(w) && QUALIFICATION_LAUNCHES + n <= w.db.maxLaunches
    ensures IsRun(ws) && ws[0] == w && Screened(w, ws[|ws|-1], n)
  {
    hide Enabled, Next, Step, Initial, Screened;
    if n == 0 {
      ws := [w];
      assert Arises(ws, 0);
      CreatedScreened(w);
    } else {
      var front := ScreeningRun(w, n - 1);
      var last := front[|front|-1];
      AnotherScreened(w, last, n - 1);
      ExtendRun(front, Another(n - 1));
      ws := front + [Next(last, Another(n - 1))];
    }
  }

  lemma ScreenedIsStuck(w: World, last: World, n: nat)
    requires Initial(w) && Screened(w, last, n) && Inv(last) && n > Limit(w.db.transfers, DiverseInnerScreen)
    ensures Stuck(last.db)
  {
    RebuiltLedgerIsValid(last);
  }

  lemma OverrunningRun(w: World) returns (ws: seq<World>)
    requires Initial(w) && Limit(w.db.transfers, DiverseInnerScreen) + QUALIFICATION_LAUNCHES < w.db.maxLaunches
    ensures IsRun(ws) && ws[0] == w && Stuck(ws[|ws|-1].db)
  {
    hide Limit, Screened, Stuck;
    CeilingsNonNegative(w.db.transfers, DiverseInnerScreen);
    ws := ScreeningRun(w, Limit(w.db.transfers, DiverseInnerScreen) + 1);
    RunsKeepInv(ws, |ws| - 1);
    ScreenedIsStuck(w, ws[|ws|-1], Limit(w.db.transfers, DiverseInnerScreen) + 1);
  }

  lemma StuckRunOverruns(ws: seq<World>)
    requires IsRun(ws) && Stuck(ws[|ws|-1].db)
    ensures Limit(ws[0].db.transfers, DiverseInnerScreen) + QUALIFICATION_LAUNCHES < ws[0].db.maxLaunches
  {
    hide Limit, Stuck;
    RunsKeepInv(ws, |ws| - 1);
    RunsGrow(ws, 0, |ws| - 1);
    StuckOverruns(ws[|ws|-1]);
  }

  /** A created campaign has a run that closes no more than fifty iterations and yet leaves a store whose ledger
      cannot be rebuilt, so that nothing new is admitted on it, if and only if its launch limit exceeds the ceiling
      of screening launches by more than the six qualification launches. */
  lemma OverrunsExactly(w: World)
    requires Initial(w)
    ensures (exists ws: seq<World> :: IsRun(ws) && ws[0] == w && ws[|ws|-1].db.iterations <= 50
                                      && Known(ws[|ws|-1].db.launches, ws[|ws|-1].db.launchOrder)
                                      && Rebuild(ws[|ws|-1].db).Failure?)
       <==> Limit(w.db.transfers, DiverseInnerScreen) + QUALIFICATION_LAUNCHES < w.db.maxLaunches
  {
    hide Initial, Limit, Rebuild;
    if ws: seq<World> :| IsRun(ws) && ws[0] == w && Stuck(ws[|ws|-1].db) {
      StuckRunOverruns(ws);
    }
    if Limit(w.db.transfers, DiverseInnerScreen) + QUALIFICATION_LAUNCHES < w.db.maxLaunches {
      var ws := OverrunningRun(w);
    }
  }
}
