/** The launch ledger of src/kuairand_agent/campaign/budgets.py. */
module Budgets {
  import opened Results

  const MAX_TRAINING_LAUNCHES: nat := 50
  const QUALIFICATION_LAUNCHES: nat := 6
  const MAX_SCIENTIFIC_ITERATIONS: nat := 50

  datatype Category =
    | BaselineQualificationReplay
    | DiverseInnerScreen
    | TemporalFoldConfirmation
    | DistinctOuterPromotion
    | MatchedSeedConfirmation
    | BlendFusion
    | FinalTrainingReplay
    | RecoveryReserve

  function Ceiling(c: Category): nat {
    match c
    case BaselineQualificationReplay => 6
    case DiverseInnerScreen => 20
    case TemporalFoldConfirmation => 6
    case DistinctOuterPromotion => 6
    case MatchedSeedConfirmation => 5
    case BlendFusion => 3
    case FinalTrainingReplay => 2
    case RecoveryReserve => 2
  }

  /** The characters that `str.strip` removes. */
  predicate Blank(c: char) {
    var n := c as int;
    || 0x09 <= n <= 0x0D || 0x1C <= n <= 0x20 || n == 0x85 || n == 0xA0 || n == 0x1680 || 0x2000 <= n <= 0x200A
    || n == 0x2028 || n == 0x2029 || n == 0x202F || n == 0x205F || n == 0x3000
  }

  /** Text that is neither blank nor holds a NUL. */
  predicate Identifier(s: string) {
    '\0' !in s && exists i :: 0 <= i < |s| && !Blank(s[i])
  }

  // ---------------------------------------------------------------- category ceilings

  datatype Transfer = Transfer(source: Category, target: Category, amount: int, reason: string)

  predicate ValidTransfer(t: Transfer) { t.source != t.target && t.amount > 0 && Identifier(t.reason) }

  /** What one transfer adds to the ceiling of c. */
  function Flow(t: Transfer, c: Category): int {
    (if t.target == c then t.amount else 0) - (if t.source == c then t.amount else 0)
  }

  /** The ceiling of c after every transfer. */
  function Limit(ts: seq<Transfer>, c: Category): int {
    if ts == [] then Ceiling(c) else Limit(ts[..|ts|-1], c) + Flow(ts[|ts|-1], c)
  }

  /** No transfer takes more than its source's ceiling at that point. */
  predicate NeverOverdrawn(ts: seq<Transfer>) {
    ts != [] ==> NeverOverdrawn(ts[..|ts|-1]) && Limit(ts, ts[|ts|-1].source) >= 0
  }

  /** `effective_ceilings`: the local dictionary updated transfer by transfer. */
  method EffectiveCeilings(ts: seq<Transfer>) returns (r: Result<map<Category, int>, string>)
    requires forall t | t in ts :: t.source != t.target
    ensures r.Success? <==> NeverOverdrawn(ts)
    ensures r.Success? ==> forall c :: c in r.value && r.value[c] == Limit(ts, c)
  {
    var limits: map<Category, int> :=
      map[BaselineQualificationReplay := 6, DiverseInnerScreen := 20, TemporalFoldConfirmation := 6,
          DistinctOuterPromotion := 6, MatchedSeedConfirmation := 5, BlendFusion := 3, FinalTrainingReplay := 2,
          RecoveryReserve := 2];
    forall c: Category
      ensures c in limits && limits[c] == Limit(ts[..0], c)
    {
      match c
      case BaselineQualificationReplay | DiverseInnerScreen | TemporalFoldConfirmation | DistinctOuterPromotion =>
      case MatchedSeedConfirmation | BlendFusion | FinalTrainingReplay | RecoveryReserve =>
    }
    for k := 0 to |ts|
      invariant forall c :: c in limits && limits[c] == Limit(ts[..k], c)
      invariant NeverOverdrawn(ts[..k])
    {
      var t := ts[k];
      assert ts[..k+1][..k] == ts[..k];
      limits := limits[t.source := limits[t.source] - t.amount];
      limits := limits[t.target := limits[t.target] + t.amount];
      if limits[t.source] < 0 {
        OverdrawnPrefix(ts, k + 1);
        return Failure("reallocation makes a category ceiling negative");
      }
    }
    assert ts[..|ts|] == ts;
    return Success(limits);
  }

  lemma {:induction false} OverdrawnPrefix(ts: seq<Transfer>, k: nat)
    requires k <= |ts| && !NeverOverdrawn(ts[..k])
    ensures !NeverOverdrawn(ts)
    decreases |ts| - k
  {
    if k == |ts| {
      assert ts[..k] == ts;
    } else {
      assert ts[..k+1][..k] == ts[..k];
      OverdrawnPrefix(ts, k + 1);
    }
  }

  function LimitTotal(ts: seq<Transfer>): int {
    Limit(ts, BaselineQualificationReplay) + Limit(ts, DiverseInnerScreen) + Limit(ts, TemporalFoldConfirmation)
    + Limit(ts, DistinctOuterPromotion) + Limit(ts, MatchedSeedConfirmation) + Limit(ts, BlendFusion)
    + Limit(ts, FinalTrainingReplay) + Limit(ts, RecoveryReserve)
  }

  /** Transfers conserve the total: the ceilings always sum to fifty. */
  lemma {:induction false} CeilingsSumToFifty(ts: seq<Transfer>)
    ensures LimitTotal(ts) == MAX_TRAINING_LAUNCHES
  {
    if ts != [] {
      CeilingsSumToFifty(ts[..|ts|-1]);
    }
  }

  lemma {:induction false} CeilingsNonNegative(ts: seq<Transfer>, c: Category)
    requires NeverOverdrawn(ts) && forall t | t in ts :: ValidTransfer(t)
    ensures Limit(ts, c) >= 0
  {
    if ts != [] {
      assert ValidTransfer(ts[|ts|-1]);
      CeilingsNonNegative(ts[..|ts|-1], c);
    }
  }

  // ---------------------------------------------------------------- the ledger

  datatype Charge = Charge(number: int, execution: string, family: string, category: Category, original: Category,
                           repairChild: bool, imported: bool)

  datatype Ledger = Ledger(charges: seq<Charge>, iterations: nat, transfers: seq<Transfer>, maxLaunches: int,
                           maxIterations: int)

  function Used(charges: seq<Charge>, c: Category): (n: nat)
    ensures n <= |charges|
  {
    if charges == [] then 0
    else Used(charges[..|charges|-1], c) + if charges[|charges|-1].category == c then 1 else 0
  }

  predicate ValidCharge(charge: Charge) { charge.number > 0 && Identifier(charge.execution) && Identifier(charge.family) }

  predicate Numbered(charges: seq<Charge>) { forall i | 0 <= i < |charges| :: charges[i].number == i + 1 }

  predicate DistinctExecutions(charges: seq<Charge>) {
    forall i, j | 0 <= i < j < |charges| :: charges[i].execution != charges[j].execution
  }

  predicate WithinCeilings(charges: seq<Charge>, ts: seq<Transfer>) {
    forall c: Category :: Used(charges, c) <= Limit(ts, c)
  }

  /** Everything that constructing a ledger checks, of it and of its parts. */
  predicate ValidLedger(l: Ledger) {
    && QUALIFICATION_LAUNCHES <= l.maxLaunches <= MAX_TRAINING_LAUNCHES
    && 1 <= l.maxIterations <= MAX_SCIENTIFIC_ITERATIONS
    && l.iterations <= l.maxIterations
    && |l.charges| <= l.maxLaunches
    && (forall charge | charge in l.charges :: ValidCharge(charge))
    && (forall t | t in l.transfers :: ValidTransfer(t))
    && Numbered(l.charges)
    && DistinctExecutions(l.charges)
    && NeverOverdrawn(l.transfers)
    && WithinCeilings(l.charges, l.transfers)
    && LimitTotal(l.transfers) == MAX_TRAINING_LAUNCHES
  }

  /** `__post_init__`: every construction and every `replace` goes through it. */
  function Checked(l: Ledger): Result<Ledger, string> {
    if ValidLedger(l) then Success(l) else Failure("invalid ledger")
  }

  function QualificationName(i: nat): string
    requires 1 <= i <= QUALIFICATION_LAUNCHES
  {
    "qualification-launch-" + ["123456"[i - 1]]
  }

  function QualificationCharge(i: nat): Charge
    requires 1 <= i <= QUALIFICATION_LAUNCHES
  {
    Charge(i, QualificationName(i), "official_starter_fm", BaselineQualificationReplay, BaselineQualificationReplay,
           false, true)
  }

  function QualificationCharges(): (charges: seq<Charge>)
    ensures |charges| == QUALIFICATION_LAUNCHES
    ensures forall i | 0 <= i < QUALIFICATION_LAUNCHES :: charges[i] == QualificationCharge(i + 1)
  {
    [QualificationCharge(1), QualificationCharge(2), QualificationCharge(3), QualificationCharge(4),
     QualificationCharge(5), QualificationCharge(6)]
  }

  function AfterQualification(maxLaunches: int, maxIterations: int): Result<Ledger, string> {
    Checked(Ledger(QualificationCharges(), 0, [], maxLaunches, maxIterations))
  }

  /** The six imported charges lead, and no later charge claims to be imported. */
  predicate Qualified(charges: seq<Charge>) {
    && |charges| >= QUALIFICATION_LAUNCHES
    && (forall i | 0 <= i < QUALIFICATION_LAUNCHES :: charges[i].category == BaselineQualificationReplay)
    && (forall i | 0 <= i < |charges| :: charges[i].imported <==> i < QUALIFICATION_LAUNCHES)
  }

  // ---------------------------------------------------------------- admission

  datatype WorkKind = FullTrainEvaluate | CheckpointInferenceReplay | StaticCheck | SyntheticSmoke | ProviderAction

  datatype WorkPhase = Research | RequiredConfirmation | Finalization

  datatype Reason = Allowed | HardLaunchCap | CategoryCap | ScientificIterationCap | HardDeadline | FinalizationReserve

  datatype Request = Request(execution: string, family: string, kind: WorkKind, phase: WorkPhase, p95: real,
                             cleanup: real, category: Option<Category>, original: Option<Category>, repairChild: bool) {
    predicate Trains() { kind == FullTrainEvaluate }
  }

  predicate ValidRequest(q: Request) {
    && Identifier(q.execution) && Identifier(q.family) && q.p95 >= 0.0 && q.cleanup >= 0.0
    && (q.Trains() ==>
          && q.category.Some?
          && (q.repairChild ==>
                q.category.value == RecoveryReserve && q.original.Some? && q.original.value != RecoveryReserve)
          && (!q.repairChild ==> q.original == None || q.original == q.category)
          && (q.category.value == RecoveryReserve ==> q.repairChild))
    && (!q.Trains() ==> q.category == None && q.original == None && !q.repairChild)
  }

  datatype Admission = Admission(reason: Reason, request: Request, remaining: real, required: real,
                                 projected: Option<nat>) {
    predicate Allowed() { reason == Reason.Allowed }
  }

  /** The time gate of `admit`. */
  function TimeGate(q: Request, remaining: real, reserve: real): Reason {
    var base := q.p95 + q.cleanup;
    if base > remaining || remaining <= 0.0 then HardDeadline
    else if q.phase == Research && (remaining <= reserve || base + reserve > remaining) then FinalizationReserve
    else Reason.Allowed
  }

  /** The launch caps of `admit`. */
  function LaunchGate(l: Ledger, q: Request): Reason {
    if !q.Trains() || q.category == None then Reason.Allowed
    else if |l.charges| >= l.maxLaunches then HardLaunchCap
    else if Limit(l.transfers, q.category.value) - Used(l.charges, q.category.value) <= 0 then CategoryCap
    else Reason.Allowed
  }

  function Admit(l: Ledger, q: Request, remaining: real, reserve: real): Admission {
    var time := TimeGate(q, remaining, reserve);
    var reason := if time != Reason.Allowed then time else LaunchGate(l, q);
    Admission(reason, q, remaining, q.p95 + q.cleanup + (if q.phase == Research then reserve else 0.0),
              if reason == Reason.Allowed && q.Trains() then Some(|l.charges| + 1) else None)
  }

  function OriginalOf(q: Request): Category
    requires q.category.Some?
  {
    if q.original.Some? then q.original.value else q.category.value
  }

  function NewCharge(n: int, q: Request): Charge
    requires q.category.Some?
  {
    Charge(n, q.execution, q.family, q.category.value, OriginalOf(q), q.repairChild, false)
  }

  predicate AlreadyCharged(charges: seq<Charge>, execution: string) {
    exists i :: 0 <= i < |charges| && charges[i].execution == execution
  }

  /** `charge_started_launch` */
  function ChargeStarted(l: Ledger, a: Admission): Result<Ledger, string>
    requires ValidRequest(a.request)
  {
    if !a.Allowed() then Failure("cannot charge a rejected launch admission")
    else if !a.request.Trains() then Success(l)
    else if a.projected != Some(|l.charges| + 1) then Failure("stale launch admission")
    else if AlreadyCharged(l.charges, a.request.execution) then Failure("execution already charged")
    else Checked(l.(charges := l.charges + [NewCharge(|l.charges| + 1, a.request)]))
  }

  /** `approve_reallocation` */
  function ApproveReallocation(l: Ledger, t: Transfer): Result<Ledger, string> {
    if !ValidTransfer(t) then Failure("invalid transfer")
    else if t.amount > Limit(l.transfers, t.source) - Used(l.charges, t.source) then Failure("only the unused part")
    else Checked(l.(transfers := l.transfers + [t]))
  }

  /** `complete_scientific_iteration` */
  function CompleteIteration(l: Ledger): Result<Ledger, string> {
    if l.iterations >= l.maxIterations then Failure("scientific iteration cap reached")
    else Checked(l.(iterations := l.iterations + 1))
  }

  // ---------------------------------------------------------------- what each operation needs

  lemma UsedSnoc(charges: seq<Charge>, x: Charge, c: Category)
    ensures Used(charges + [x], c) == Used(charges, c) + if x.category == c then 1 else 0
  {
    assert (charges + [x])[..|charges|] == charges;
  }

  lemma LimitSnoc(ts: seq<Transfer>, t: Transfer, c: Category)
    ensures Limit(ts + [t], c) == Limit(ts, c) + Flow(t, c)
  {
    assert (ts + [t])[..|ts|] == ts;
  }

  /** A start is charged exactly when it was allowed, is not stale, is new, and both caps still have room: the
      category cap is looked at again when the new ledger is built, so a stale admission cannot exceed it. */
  lemma ChargeSucceedsExactly(l: Ledger, a: Admission)
    requires ValidLedger(l) && ValidRequest(a.request) && a.request.Trains()
    ensures var q := a.request;
            ChargeStarted(l, a).Success? <==>
            && a.Allowed() && a.projected == Some(|l.charges| + 1) && !AlreadyCharged(l.charges, q.execution)
            && |l.charges| < l.maxLaunches && Used(l.charges, q.category.value) < Limit(l.transfers, q.category.value)
  {
    var q := a.request;
    var x := NewCharge(|l.charges| + 1, q);
    var charges := l.charges + [x];
    forall c: Category
      ensures Used(charges, c) == Used(l.charges, c) + if q.category.value == c then 1 else 0
    {
      UsedSnoc(l.charges, x, c);
    }
    hide Used, Limit, NeverOverdrawn;
    assert ValidCharge(x);
    assert Numbered(charges);
    if !AlreadyCharged(l.charges, q.execution) {
      assert DistinctExecutions(charges);
    }
    assert WithinCeilings(charges, l.transfers) <==> Used(l.charges, q.category.value) < Limit(l.transfers, q.category.value) by {
      assert Used(l.charges, q.category.value) <= Limit(l.transfers, q.category.value);
    }
  }

  /** A fresh admission charged at once never fails, and appends exactly the admitted start. */
  lemma FreshAdmissionCharges(l: Ledger, q: Request, remaining: real, reserve: real)
    requires ValidLedger(l) && ValidRequest(q) && q.Trains()
    requires Admit(l, q, remaining, reserve).Allowed() && !AlreadyCharged(l.charges, q.execution)
    ensures ChargeStarted(l, Admit(l, q, remaining, reserve))
         == Success(l.(charges := l.charges + [NewCharge(|l.charges| + 1, q)]))
  {
    ChargeSucceedsExactly(l, Admit(l, q, remaining, reserve));
  }

  /** A new request is admitted exactly when there is time for it and charging it at once would succeed. */
  lemma AdmittedExactlyWhenChargeable(l: Ledger, q: Request, remaining: real, reserve: real)
    requires ValidLedger(l) && ValidRequest(q) && q.Trains() && !AlreadyCharged(l.charges, q.execution)
    ensures Admit(l, q, remaining, reserve).Allowed() <==>
            && TimeGate(q, remaining, reserve) == Reason.Allowed
            && ChargeStarted(l, Admission(Reason.Allowed, q, remaining, 0.0, Some(|l.charges| + 1))).Success?
  {
    ChargeSucceedsExactly(l, Admission(Reason.Allowed, q, remaining, 0.0, Some(|l.charges| + 1)));
  }

  /** A transfer of unused ceiling is always approved: it can never overdraw its source or strand a charge. */
  lemma ReallocationSucceedsExactly(l: Ledger, t: Transfer)
    requires ValidLedger(l)
    ensures ApproveReallocation(l, t).Success? <==>
            ValidTransfer(t) && t.amount <= Limit(l.transfers, t.source) - Used(l.charges, t.source)
    ensures ApproveReallocation(l, t).Success? ==>
              ApproveReallocation(l, t).value == l.(transfers := l.transfers + [t])
  {
    if ValidTransfer(t) && t.amount <= Limit(l.transfers, t.source) - Used(l.charges, t.source) {
      var ts := l.transfers + [t];
      assert ts[..|l.transfers|] == l.transfers;
      forall c: Category
        ensures Limit(ts, c) == Limit(l.transfers, c) + Flow(t, c) && Used(l.charges, c) <= Limit(ts, c)
      {
        LimitSnoc(l.transfers, t, c);
        assert Used(l.charges, c) <= Limit(l.transfers, c);
      }
      CeilingsSumToFifty(ts);
      assert NeverOverdrawn(ts);
    }
  }

  lemma QualificationIsValid(maxLaunches: int, maxIterations: int)
    ensures AfterQualification(maxLaunches, maxIterations).Success? <==>
            && QUALIFICATION_LAUNCHES <= maxLaunches <= MAX_TRAINING_LAUNCHES
            && 1 <= maxIterations <= MAX_SCIENTIFIC_ITERATIONS
  {
    QualificationChargesAreValid();
    CeilingsSumToFifty([]);
  }

  lemma QualificationChargesAreValid()
    ensures DistinctExecutions(QualificationCharges()) && WithinCeilings(QualificationCharges(), [])
    ensures forall charge | charge in QualificationCharges() :: ValidCharge(charge)
  {
    var charges := QualificationCharges();
    forall i, j | 0 <= i < j < |charges|
      ensures charges[i].execution != charges[j].execution
    {
      assert charges[i].execution[21] == "123456"[i] && charges[j].execution[21] == "123456"[j];
    }
    forall c: Category
      ensures Used(charges, c) <= Limit([], c)
    {
      UsedAll(charges, BaselineQualificationReplay, c);
    }
    forall i: nat | 1 <= i <= QUALIFICATION_LAUNCHES
      ensures ValidCharge(QualificationCharge(i))
    {
      QualificationChargeIsValid(i);
    }
  }

  lemma QualificationChargeIsValid(i: nat)
    requires 1 <= i <= QUALIFICATION_LAUNCHES
    ensures ValidCharge(QualificationCharge(i))
  {
    var x := QualificationCharge(i);
    assert x.family[0] == 'o' && x.execution[0] == 'q';
    assert forall k | 0 <= k < |"123456"| :: "123456"[k] != '\0';
  }

  lemma {:induction false} UsedAll(charges: seq<Charge>, all: Category, c: Category)
    requires forall i | 0 <= i < |charges| :: charges[i].category == all
    ensures Used(charges, c) == if c == all then |charges| else 0
  {
    if charges != [] {
      UsedAll(charges[..|charges|-1], all, c);
    }
  }

  // ---------------------------------------------------------------- runs

  datatype Operation = Start(admission: Admission) | Reallocate(transfer: Transfer) | CloseIteration

  predicate WellFormed(op: Operation) { op.Start? ==> ValidRequest(op.admission.request) }

  function Apply(l: Ledger, op: Operation): Result<Ledger, string>
    requires WellFormed(op)
  {
    match op
    case Start(a) => ChargeStarted(l, a)
    case Reallocate(t) => ApproveReallocation(l, t)
    case CloseIteration => CompleteIteration(l)
  }

  /** The ledger after a sequence of operations; one that raises leaves the ledger as it was. */
  function Play(l: Ledger, ops: seq<Operation>): Ledger
    requires forall op | op in ops :: WellFormed(op)
  {
    if ops == [] then l
    else
      var before := Play(l, ops[..|ops|-1]);
      var r := Apply(before, ops[|ops|-1]);
      if r.Success? then r.value else before
  }

  /** What any admission may claim: stale, forged or fresh, no operation ever yields an invalid ledger, the six
      imported charges stay in front, and charges are only ever appended. */
  lemma {:induction false} LedgerStaysValid(l: Ledger, ops: seq<Operation>)
    requires ValidLedger(l) && Qualified(l.charges) && forall op | op in ops :: WellFormed(op)
    ensures ValidLedger(Play(l, ops)) && Qualified(Play(l, ops).charges)
    ensures l.charges <= Play(l, ops).charges
    ensures Play(l, ops).maxLaunches == l.maxLaunches && Play(l, ops).maxIterations == l.maxIterations
  {
    if ops != [] {
      LedgerStaysValid(l, ops[..|ops|-1]);
      var before := Play(l, ops[..|ops|-1]);
      StepKeepsValid(before, ops[|ops|-1]);
    }
  }

  lemma StepKeepsValid(l: Ledger, op: Operation)
    requires ValidLedger(l) && Qualified(l.charges) && WellFormed(op)
    ensures var r := Apply(l, op);
            r.Success? ==>
              && ValidLedger(r.value) && Qualified(r.value.charges) && l.charges <= r.value.charges
              && r.value.maxLaunches == l.maxLaunches && r.value.maxIterations == l.maxIterations
  {
  }

  /** One training admission is charged at most once, whatever happens in between. */
  lemma ChargedAtMostOnce(l: Ledger, a: Admission, ops: seq<Operation>)
    requires ValidLedger(l) && Qualified(l.charges) && forall op | op in ops :: WellFormed(op)
    requires ValidRequest(a.request) && a.request.Trains() && ChargeStarted(l, a).Success?
    ensures ChargeStarted(Play(ChargeStarted(l, a).value, ops), a).Failure?
  {
    var next := ChargeStarted(l, a).value;
    StepKeepsValid(l, Start(a));
    LedgerStaysValid(next, ops);
    assert |Play(next, ops).charges| > |l.charges|;
  }

  /** From qualification on: at most fifty starts, and at most its current ceiling in every category. */
  lemma RunsStayWithinBudget(maxLaunches: int, maxIterations: int, ops: seq<Operation>, c: Category)
    requires AfterQualification(maxLaunches, maxIterations).Success? && forall op | op in ops :: WellFormed(op)
    ensures var l := Play(AfterQualification(maxLaunches, maxIterations).value, ops);
            && |l.charges| <= maxLaunches <= MAX_TRAINING_LAUNCHES
            && Used(l.charges, c) <= Limit(l.transfers, c)
            && LimitTotal(l.transfers) == MAX_TRAINING_LAUNCHES
            && QualificationCharges() <= l.charges
            && l.iterations <= maxIterations
  {
    var l0 := AfterQualification(maxLaunches, maxIterations).value;
    QualificationIsValid(maxLaunches, maxIterations);
    LedgerStaysValid(l0, ops);
  }
}
