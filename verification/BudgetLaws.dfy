/** The launch ledger in plain counts and fields: what every operation of `Budgets` asks and leaves behind, said of
    the charges, transfers and requests themselves. */
module BudgetLaws {
  import opened Results
  import opened Budgets

  // ---------------------------------------------------------------- usage and ceilings

  /** Identifiers have some character that is not white space, and no NUL. */
  lemma IdentifiersExactly(s: string)
    ensures Identifier(s)
       <==> && '\0' !in s
            && exists i | 0 <= i < |s| ::
                 s[i] as int !in {0x09, 0x0A, 0x0B, 0x0C, 0x0D, 0x1C, 0x1D, 0x1E, 0x1F, 0x20, 0x85, 0xA0, 0x1680, 0x2000,
                                  0x2001, 0x2002, 0x2003, 0x2004, 0x2005, 0x2006, 0x2007, 0x2008, 0x2009, 0x200A, 0x2028,
                                  0x2029, 0x202F, 0x205F, 0x3000}
  {
    forall i | 0 <= i < |s|
      ensures Blank(s[i])
         <==> s[i] as int in {0x09, 0x0A, 0x0B, 0x0C, 0x0D, 0x1C, 0x1D, 0x1E, 0x1F, 0x20, 0x85, 0xA0, 0x1680, 0x2000,
                              0x2001, 0x2002, 0x2003, 0x2004, 0x2005, 0x2006, 0x2007, 0x2008, 0x2009, 0x200A, 0x2028,
                              0x2029, 0x202F, 0x205F, 0x3000}
    {
    }
  }

  /** The positions of the charges of one category. */
  function PlacesOf(charges: seq<Charge>, c: Category): set<int> {
    set i | 0 <= i < |charges| && charges[i].category == c
  }

  lemma PlacesSnoc(charges: seq<Charge>, c: Category)
    requires charges != []
    ensures var n := |charges| - 1;
            && n !in PlacesOf(charges[..n], c)
            && PlacesOf(charges, c) == if charges[n].category == c then PlacesOf(charges[..n], c) + {n}
                                       else PlacesOf(charges[..n], c)
  {
    var n := |charges| - 1;
    forall i | 0 <= i < n
      ensures charges[..n][i] == charges[i]
    {
    }
  }

  /** Usage is the number of charges with that category. */
  lemma UsageCounts(charges: seq<Charge>, c: Category)
    ensures Used(charges, c) == |set i | 0 <= i < |charges| && charges[i].category == c|
  {
    UsageIsPlaces(charges, c);
    assert PlacesOf(charges, c) == set i | 0 <= i < |charges| && charges[i].category == c;
  }

  lemma {:induction false} UsageIsPlaces(charges: seq<Charge>, c: Category)
    ensures Used(charges, c) == |PlacesOf(charges, c)|
  {
    if charges != [] {
      UsageIsPlaces(charges[..|charges|-1], c);
      hide PlacesOf;
      PlacesSnoc(charges, c);
    } else {
      assert PlacesOf(charges, c) == {};
    }
  }

  /** Every category starts from its published ceiling; each transfer takes its amount from the source and gives it
      to the target, and moves nothing else. */
  lemma CeilingsMove(ts: seq<Transfer>, c: Category)
    ensures Limit([], BaselineQualificationReplay) == 6 && Limit([], DiverseInnerScreen) == 20
    ensures Limit([], TemporalFoldConfirmation) == 6 && Limit([], DistinctOuterPromotion) == 6
    ensures Limit([], MatchedSeedConfirmation) == 5 && Limit([], BlendFusion) == 3
    ensures Limit([], FinalTrainingReplay) == 2 && Limit([], RecoveryReserve) == 2
    ensures forall k: nat | k < |ts| && ts[k].source != ts[k].target ::
              Limit(ts[..k+1], c) - Limit(ts[..k], c)
              == if c == ts[k].target then ts[k].amount else if c == ts[k].source then -ts[k].amount else 0
  {
    forall k: nat | k < |ts|
      ensures ts[..k+1][..k] == ts[..k]
    {
    }
  }

  // ---------------------------------------------------------------- admission

  /** The verdict of `admit` in terms of the request's times and the charges: too little time first, then, for
      research, the reserve; then, for training, the launch limit and the ceiling of the category. */
  lemma AdmissionExactly(l: Ledger, q: Request, remaining: real, reserve: real)
    requires q.kind == FullTrainEvaluate ==> q.category.Some?
    ensures var a, base := Admit(l, q, remaining, reserve), q.p95 + q.cleanup;
            var late := remaining <= 0.0 || base > remaining;
            var cuts := q.phase == Research && (remaining <= reserve || base + reserve > remaining);
            && (a.reason == HardDeadline <==> late)
            && (a.reason == FinalizationReserve <==> !late && cuts)
            && (a.reason == HardLaunchCap <==>
                  !late && !cuts && q.kind == FullTrainEvaluate && |l.charges| >= l.maxLaunches)
            && (a.reason == CategoryCap <==>
                  && !late && !cuts && q.kind == FullTrainEvaluate && |l.charges| < l.maxLaunches
                  && |set i | 0 <= i < |l.charges| && l.charges[i].category == q.category.value|
                     >= Limit(l.transfers, q.category.value))
            && a.reason != ScientificIterationCap
            && a.request == q && a.remaining == remaining
            && a.required == (if q.phase == Research then base + reserve else base)
            && a.projected
               == if a.reason == Reason.Allowed && q.kind == FullTrainEvaluate then Some(|l.charges| + 1) else None
  {
    if q.category.Some? {
      UsageCounts(l.charges, q.category.value);
    }
  }

  // ---------------------------------------------------------------- charging, reallocating, closing

  /** A charged start appends one charge with the next number and the request's own execution, family, category and
      origin, and changes nothing else. It is refused exactly if it was not allowed, is stale or was charged
      before, or if the launch limit or the ceiling of its category is reached by now. */
  lemma StartExactly(l: Ledger, a: Admission)
    requires ValidLedger(l) && ValidRequest(a.request) && a.request.kind == FullTrainEvaluate
    ensures var q := a.request;
            ChargeStarted(l, a).Success? <==>
            && a.reason == Reason.Allowed && a.projected == Some(|l.charges| + 1)
            && (forall i | 0 <= i < |l.charges| :: l.charges[i].execution != q.execution)
            && |l.charges| < l.maxLaunches
            && |set i | 0 <= i < |l.charges| && l.charges[i].category == q.category.value|
               < Limit(l.transfers, q.category.value)
    ensures var q := a.request;
            ChargeStarted(l, a).Success? ==>
              ChargeStarted(l, a).value
              == l.(charges :=
                      l.charges
                      + [Charge(|l.charges| + 1, q.execution, q.family, q.category.value,
                                if q.original.Some? then q.original.value else q.category.value, q.repairChild, false)])
  {
    ChargeSucceedsExactly(l, a);
    UsageCounts(l.charges, a.request.category.value);
  }

  /** Work that trains nothing is let through as it was admitted, and costs nothing. */
  lemma OtherWorkIsFree(l: Ledger, a: Admission)
    requires ValidRequest(a.request) && a.request.kind != FullTrainEvaluate
    ensures ChargeStarted(l, a).Success? <==> a.reason == Reason.Allowed
    ensures ChargeStarted(l, a).Success? ==> ChargeStarted(l, a).value == l
  {
  }

  /** An iteration can be closed exactly while the cap is not reached, and only the count moves. */
  lemma CloseExactly(l: Ledger)
    requires ValidLedger(l)
    ensures CompleteIteration(l).Success? <==> l.iterations < l.maxIterations
    ensures CompleteIteration(l).Success? ==> CompleteIteration(l).value == l.(iterations := l.iterations + 1)
  {
  }

  /** A transfer is approved exactly if it names two categories, a positive amount and a reason, and takes no more
      than its source has not used; then it is appended and nothing else moves. */
  lemma TransferExactly(l: Ledger, t: Transfer)
    requires ValidLedger(l)
    ensures ApproveReallocation(l, t).Success? <==>
            && t.source != t.target && t.amount > 0 && Identifier(t.reason)
            && t.amount + |set i | 0 <= i < |l.charges| && l.charges[i].category == t.source|
               <= Limit(l.transfers, t.source)
    ensures ApproveReallocation(l, t).Success? ==>
              ApproveReallocation(l, t).value == l.(transfers := l.transfers + [t])
  {
    ReallocationSucceedsExactly(l, t);
    UsageCounts(l.charges, t.source);
  }

  // ---------------------------------------------------------------- which ledgers there are

  /** What a ledger has to be. */
  lemma LedgersExactly(l: Ledger)
    ensures ValidLedger(l) <==>
            && 6 <= l.maxLaunches <= 50 && 1 <= l.maxIterations <= 50 && l.iterations <= l.maxIterations
            && |l.charges| <= l.maxLaunches
            && (forall i | 0 <= i < |l.charges| ::
                  l.charges[i].number == i + 1 && Identifier(l.charges[i].execution) && Identifier(l.charges[i].family))
            && (forall i, j | 0 <= i < j < |l.charges| :: l.charges[i].execution != l.charges[j].execution)
            && (forall k | 0 <= k < |l.transfers| ::
                  && l.transfers[k].source != l.transfers[k].target && l.transfers[k].amount > 0
                  && Identifier(l.transfers[k].reason))
            && (forall k: nat | k < |l.transfers| :: Limit(l.transfers[..k+1], l.transfers[k].source) >= 0)
            && (forall c: Category :: |PlacesOf(l.charges, c)| <= Limit(l.transfers, c))
  {
    CeilingsSumToFifty(l.transfers);
    NeverOverdrawnExactly(l.transfers);
    hide Identifier, Limit, NeverOverdrawn, Used, WithinCeilings;
    CeilingsExactly(l.charges, l.transfers);
    EntriesExactly(l);
  }

  lemma CeilingsExactly(charges: seq<Charge>, ts: seq<Transfer>)
    ensures WithinCeilings(charges, ts) <==> forall c: Category :: |PlacesOf(charges, c)| <= Limit(ts, c)
  {
    hide Used, Limit, PlacesOf;
    forall c: Category
      ensures Used(charges, c) == |PlacesOf(charges, c)|
    {
      UsageIsPlaces(charges, c);
    }
  }

  lemma EntriesExactly(l: Ledger)
    ensures (forall charge | charge in l.charges :: ValidCharge(charge)) && Numbered(l.charges) <==>
            forall i | 0 <= i < |l.charges| ::
              l.charges[i].number == i + 1 && Identifier(l.charges[i].execution) && Identifier(l.charges[i].family)
    ensures (forall t | t in l.transfers :: ValidTransfer(t)) <==>
            forall k | 0 <= k < |l.transfers| ::
              && l.transfers[k].source != l.transfers[k].target && l.transfers[k].amount > 0
              && Identifier(l.transfers[k].reason)
  {
    hide Identifier;
    if forall charge | charge in l.charges :: ValidCharge(charge) {
      forall i | 0 <= i < |l.charges|
        ensures Identifier(l.charges[i].execution) && Identifier(l.charges[i].family)
      {
        assert ValidCharge(l.charges[i]);
      }
    }
    if forall t | t in l.transfers :: ValidTransfer(t) {
      forall k | 0 <= k < |l.transfers|
        ensures ValidTransfer(l.transfers[k])
      {
      }
    }
  }

  lemma {:induction false} NeverOverdrawnExactly(ts: seq<Transfer>)
    ensures NeverOverdrawn(ts) <==> forall k: nat | k < |ts| :: Limit(ts[..k+1], ts[k].source) >= 0
  {
    if ts != [] {
      var n := |ts| - 1;
      NeverOverdrawnExactly(ts[..n]);
      forall m: nat | m <= n
        ensures ts[..n][..m] == ts[..m]
      {
      }
      assert ts[..n+1] == ts;
    }
  }

  /** A campaign starts from the six imported charges, under their own names, and nothing else. */
  lemma QualificationExactly(maxLaunches: int, maxIterations: int)
    ensures AfterQualification(maxLaunches, maxIterations).Success? <==> 6 <= maxLaunches <= 50 && 1 <= maxIterations <= 50
    ensures AfterQualification(maxLaunches, maxIterations).Success? ==>
              var l := AfterQualification(maxLaunches, maxIterations).value;
              && l.maxLaunches == maxLaunches && l.maxIterations == maxIterations && l.iterations == 0
              && l.transfers == [] && |l.charges| == 6
              && forall i | 0 <= i < 6 ::
                   l.charges[i] == Charge(i + 1, "qualification-launch-" + ["123456"[i]], "official_starter_fm",
                                          BaselineQualificationReplay, BaselineQualificationReplay, false, true)
  {
    QualificationIsValid(maxLaunches, maxIterations);
  }
}
