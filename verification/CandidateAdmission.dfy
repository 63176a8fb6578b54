/** When a candidate may start, said of the policy, the request and the stored launches themselves
    (src/kuairand_agent/campaign/candidate_journal.py with campaign/budgets.py). */
module CandidateAdmission {
  import opened Results
  import opened Budgets
  import opened CampaignDatabase
  import opened LedgerRebuild
  import opened CampaignProtocol
  import opened CampaignSafety
  import opened CandidateJournal

  /** The launches that are charged, and those charged to one category. */
  function ChargedTo(launches: map<LaunchId, Launch>, order: seq<LaunchId>, c: Option<Category>): (s: set<LaunchId>)
    requires Known(launches, order)
    ensures forall lid :: lid in s <==>
              lid in order && launches[lid].charged && (c.Some? ==> CategoryOf(launches[lid].category) == c.value)
  {
    set lid | lid in order && launches[lid].charged && (c.Some? ==> CategoryOf(launches[lid].category) == c.value)
  }

  lemma {:induction false} ChargesCount(launches: map<LaunchId, Launch>, order: seq<LaunchId>, c: Category)
    requires Known(launches, order) && NoRepeats(order)
    ensures |ChargesOf(launches, order)| == |ChargedTo(launches, order, None)|
    ensures Used(ChargesOf(launches, order), c) == |ChargedTo(launches, order, Some(c))|
  {
    if order == [] {
      assert ChargedTo(launches, order, None) == {} && ChargedTo(launches, order, Some(c)) == {};
    } else {
      ChargesCount(launches, order[..|order|-1], c);
      ChargedStep(launches, order, None);
      ChargedStep(launches, order, Some(c));
      hide ChargesOf, Used, NoRepeats;
      ChargesLast(launches, order, c);
    }
  }

  lemma ChargesLast(launches: map<LaunchId, Launch>, order: seq<LaunchId>, c: Category)
    requires Known(launches, order) && order != []
    ensures var n := |order| - 1;
            var charges, front := ChargesOf(launches, order), ChargesOf(launches, order[..n]);
            && |charges| == |front| + (if launches[order[n]].charged then 1 else 0)
            && Used(charges, c)
               == Used(front, c)
                  + if launches[order[n]].charged && CategoryOf(launches[order[n]].category) == c then 1 else 0
  {
    var n := |order| - 1;
    var front := ChargesOf(launches, order[..n]);
    UsedSnoc(front, ChargeOf(|front| + 1, order[n], launches[order[n]]), c);
  }

  lemma ChargedStep(launches: map<LaunchId, Launch>, order: seq<LaunchId>, c: Option<Category>)
    requires Known(launches, order) && NoRepeats(order) && order != []
    ensures var n := |order| - 1;
            var lid, before := order[n], ChargedTo(launches, order[..n], c);
            && lid !in before
            && ChargedTo(launches, order, c)
               == if launches[lid].charged && (c.Some? ==> CategoryOf(launches[lid].category) == c.value)
                  then before + {lid} else before
  {
    var n := |order| - 1;
    assert order == order[..n] + [order[n]];
  }

  /** The charges of a reachable store, counted as launches. */
  lemma StoreCounts(w: World, c: Category)
    requires Inv(w)
    ensures |ChargesOf(w.db.launches, w.db.launchOrder)|
         == |set lid | lid in w.db.launches && w.db.launches[lid].charged|
    ensures Used(ChargesOf(w.db.launches, w.db.launchOrder), c)
         == |set lid | lid in w.db.launches && w.db.launches[lid].charged
                       && CategoryOf(w.db.launches[lid].category) == c|
  {
    ChargesCount(w.db.launches, w.db.launchOrder, c);
    assert ChargedTo(w.db.launches, w.db.launchOrder, None)
        == set lid | lid in w.db.launches && w.db.launches[lid].charged;
    assert ChargedTo(w.db.launches, w.db.launchOrder, Some(c))
        == set lid | lid in w.db.launches && w.db.launches[lid].charged && CategoryOf(w.db.launches[lid].category) == c;
  }

  /** Which policies make well-formed requests. */
  lemma RequestExactly(policy: Policy, spec: Spec)
    ensures ValidRequest(RequestOf(policy, spec)) <==>
            && Identifier(spec.id) && Identifier(policy.family) && policy.p95 >= 0.0 && policy.cleanup >= 0.0
            && if spec.action == Train then
                 && policy.category.Some? && (policy.repairChild <==> policy.category == Some(RecoveryReserve))
                 && if policy.repairChild then policy.original.Some? && policy.original != Some(RecoveryReserve)
                    else policy.original == None || policy.original == policy.category
               else policy.category == None && policy.original == None && !policy.repairChild
  {
  }

  /** When a launch stands reserved for just this request. */
  lemma ReservationExactly(w: World, policy: Policy, spec: Spec)
    requires spec.action == Train
    ensures Reservable(w, policy, spec) <==>
            && CandidateLaunch(spec.id) in w.db.launches && policy.category.Some?
            && var l := w.db.launches[CandidateLaunch(spec.id)];
               && l.state == Reserved && l.charged && l.key == CandidateKey(Train, spec.id, spec.sources)
               && l.category == Of(policy.category.value)
               && l.original == Of(if policy.original.Some? then policy.original.value else policy.category.value)
               && l.terms.purpose == policy.family && l.terms.experiment == policy.experiment
               && l.terms.iteration == policy.iteration && l.terms.seed == spec.seed
  {
  }

  /** When a new request is admitted: there is time for it, with the reserve if it is research; the ledger can be
      rebuilt; and a training launch still fits under the launch limit and its category's ceiling. */
  lemma AdmissionExactly(w: World, policy: Policy, spec: Spec, remaining: real, reserve: real)
    requires Inv(w) && ValidRequest(RequestOf(policy, spec))
    ensures Admissible(w, policy, spec, remaining, reserve) <==>
            && 0.0 < remaining && policy.p95 + policy.cleanup <= remaining
            && (policy.phase == WorkPhase.Research ==>
                  reserve < remaining && policy.p95 + policy.cleanup + reserve <= remaining)
            && w.db.iterations <= 50
            && |set lid | lid in w.db.launches && w.db.launches[lid].charged
                          && CategoryOf(w.db.launches[lid].category) == DiverseInnerScreen|
               <= Limit(w.db.transfers, DiverseInnerScreen)
            && (spec.action == Train ==>
                  && |set lid | lid in w.db.launches && w.db.launches[lid].charged| < w.db.maxLaunches
                  && |set lid | lid in w.db.launches && w.db.launches[lid].charged
                                && CategoryOf(w.db.launches[lid].category) == policy.category.value|
                     < Limit(w.db.transfers, policy.category.value))
  {
    hide Inv, Used, Limit, ChargesOf;
    RebuiltLedgerIsValid(w);
    StoreCounts(w, DiverseInnerScreen);
    if policy.category.Some? {
      StoreCounts(w, policy.category.value);
    }
    RebuiltFields(w);
  }

  lemma RebuiltFields(w: World)
    requires Inv(w)
    ensures Known(w.db.launches, w.db.launchOrder)
    ensures Rebuild(w.db).Success? ==>
              && Rebuild(w.db).value.charges == ChargesOf(w.db.launches, w.db.launchOrder)
              && Rebuild(w.db).value.transfers == w.db.transfers && Rebuild(w.db).value.maxLaunches == w.db.maxLaunches
  {
  }

  /** For which reason a new request is refused. */
  lemma RefusalExactly(w: World, policy: Policy, spec: Spec, remaining: real, reserve: real)
    requires Inv(w) && ValidRequest(RequestOf(policy, spec)) && Rebuild(w.db).Success?
    ensures var late := remaining <= 0.0 || policy.p95 + policy.cleanup > remaining;
            var cuts := policy.phase == WorkPhase.Research
                        && (remaining <= reserve || policy.p95 + policy.cleanup + reserve > remaining);
            var full := spec.action == Train
                        && |set lid | lid in w.db.launches && w.db.launches[lid].charged| >= w.db.maxLaunches;
            && (RefusedFor(w, policy, spec, remaining, reserve, HardDeadline) <==> late)
            && (RefusedFor(w, policy, spec, remaining, reserve, FinalizationReserve) <==> !late && cuts)
            && (RefusedFor(w, policy, spec, remaining, reserve, HardLaunchCap) <==> !late && !cuts && full)
            && (RefusedFor(w, policy, spec, remaining, reserve, CategoryCap) <==>
                  && !late && !cuts && !full && spec.action == Train
                  && |set lid | lid in w.db.launches && w.db.launches[lid].charged
                                && CategoryOf(w.db.launches[lid].category) == policy.category.value|
                     >= Limit(w.db.transfers, policy.category.value))
            && !RefusedFor(w, policy, spec, remaining, reserve, ScientificIterationCap)
  {
    hide Inv, Used, Limit, ChargesOf;
    RebuiltFields(w);
    if policy.category.Some? {
      StoreCounts(w, policy.category.value);
    }
  }

  /** Whether a new request gets a verdict at all: exactly if the ledger can be rebuilt. */
  lemma RefusableExactly(w: World, policy: Policy, spec: Spec, remaining: real, reserve: real)
    requires Inv(w)
    ensures Refusable(w, policy, spec, remaining, reserve) <==>
            && !Admissible(w, policy, spec, remaining, reserve)
            && w.db.iterations <= 50
            && |set lid | lid in w.db.launches && w.db.launches[lid].charged
                          && CategoryOf(w.db.launches[lid].category) == DiverseInnerScreen|
               <= Limit(w.db.transfers, DiverseInnerScreen)
  {
    hide Inv, Used, Limit, ChargesOf;
    RebuiltLedgerIsValid(w);
    StoreCounts(w, DiverseInnerScreen);
    RebuiltFields(w);
  }

  /** When a candidate may start at all: it is new and its request well formed, and either a launch stands reserved
      for just this request, or the request is admitted now. */
  lemma StartExactly(w: World, policy: Policy, spec: Spec, remaining: real, reserve: real)
    requires Inv(w)
    ensures Startable(w, policy, spec, remaining, reserve) <==>
            && spec.id !in w.db.executions
            && Identifier(spec.id) && Identifier(policy.family) && policy.p95 >= 0.0 && policy.cleanup >= 0.0
            && (if spec.action == Train then
                  && policy.category.Some? && (policy.repairChild <==> policy.category == Some(RecoveryReserve))
                  && if policy.repairChild then policy.original.Some? && policy.original != Some(RecoveryReserve)
                     else policy.original == None || policy.original == policy.category
                else policy.category == None && policy.original == None && !policy.repairChild)
            && if spec.action == Train && CandidateLaunch(spec.id) in w.db.launches then
                 var l := w.db.launches[CandidateLaunch(spec.id)];
                 && l.state == Reserved && l.charged && l.key == CandidateKey(Train, spec.id, spec.sources)
                 && l.category == Of(policy.category.value)
                 && l.original == Of(if policy.original.Some? then policy.original.value else policy.category.value)
                 && l.terms.purpose == policy.family && l.terms.experiment == policy.experiment
                 && l.terms.iteration == policy.iteration && l.terms.seed == spec.seed
               else
                 && 0.0 < remaining && policy.p95 + policy.cleanup <= remaining
                 && (policy.phase == WorkPhase.Research ==>
                       reserve < remaining && policy.p95 + policy.cleanup + reserve <= remaining)
                 && w.db.iterations <= 50
                 && |set lid | lid in w.db.launches && w.db.launches[lid].charged
                               && CategoryOf(w.db.launches[lid].category) == DiverseInnerScreen|
                    <= Limit(w.db.transfers, DiverseInnerScreen)
                 && (spec.action == Train ==>
                       && |set lid | lid in w.db.launches && w.db.launches[lid].charged| < w.db.maxLaunches
                       && |set lid | lid in w.db.launches && w.db.launches[lid].charged
                                     && CategoryOf(w.db.launches[lid].category) == policy.category.value|
                          < Limit(w.db.transfers, policy.category.value))
  {
    hide Inv, Admissible, Reservable, ValidRequest, RequestOf, Limit, Identifier;
    RequestExactly(policy, spec);
    if spec.action == Train {
      ReservationExactly(w, policy, spec);
    }
    if ValidRequest(RequestOf(policy, spec)) {
      AdmissionExactly(w, policy, spec, remaining, reserve);
    }
  }

  /** At most n charges more, counted as launches. */
  lemma ChargesAtMostExactly(w: World, w': World, n: nat)
    requires Inv(w) && Inv(w')
    ensures ChargesAtMost(w, w', n)
       <==> |set lid | lid in w'.db.launches && w'.db.launches[lid].charged|
            <= |set lid | lid in w.db.launches && w.db.launches[lid].charged| + n
  {
    hide Inv, ChargesOf;
    StoreCounts(w, RecoveryReserve);
    StoreCounts(w', RecoveryReserve);
    KnownLaunches(w);
    KnownLaunches(w');
  }
}
