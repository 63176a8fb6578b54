/** The frozen convergence rule of src/kuairand_agent/campaign/convergence.py. */
module Convergence {
  import opened Results

  const EPSILON: real := 0.002
  const PATIENCE: nat := 3
  const MAX_UNMEASURED_STREAK: nat := 6

  /** No run takes more updates than this. */
  const UPDATE_BOUND: nat := 9000

  predicate Primary(x: real) { 0.0 <= x <= 1.0 }

  datatype State = State(best: real, nonMaterial: nat, unmeasured: nat, completed: nat, pending: bool) {
    predicate Converged() { nonMaterial >= PATIENCE }

    predicate UnmeasuredExhausted() { unmeasured >= MAX_UNMEASURED_STREAK }

    predicate Terminal() { Converged() || UnmeasuredExhausted() }

    predicate ShouldStop() { Terminal() && !pending }
  }

  predicate Valid(s: State) { Primary(s.best) && s.nonMaterial <= s.completed && s.unmeasured <= s.completed }

  function Initial(best: real): State { State(best, 0, 0, 0, false) }

  predicate Material(s: State, observed: Option<real>) { observed.Some? && observed.value - s.best > EPSILON }

  /** `update_after_iteration`; no observation stands for a failed, rejected or non-promoted iteration. */
  function Update(s: State, observed: Option<real>, pending: Option<bool>): Result<State, string> {
    if s.Terminal() then Failure("cannot launch a scientific iteration after convergence")
    else if observed.Some? && !Primary(observed.value) then Failure("eligible_outer_primary must be finite in [0, 1]")
    else
      Success(State(if observed.Some? && observed.value > s.best then observed.value else s.best,
                    if observed == None then s.nonMaterial else if Material(s, observed) then 0 else s.nonMaterial + 1,
                    if observed == None then s.unmeasured + 1 else 0,
                    s.completed + 1,
                    if pending.Some? then pending.value else s.pending))
  }

  /** `reserve_required_completion` */
  function Reserve(s: State): Result<State, string> {
    if s.Terminal() then Failure("cannot reserve new work after convergence") else Success(s.(pending := true))
  }

  /** `finish_required_completion` */
  function Finish(s: State): Result<State, string> {
    if !s.pending then Failure("no required completion is pending") else Success(s.(pending := false))
  }

  datatype Operation = Iterate(observed: Option<real>, pending: Option<bool>) | ReserveCompletion | FinishCompletion

  function Apply(s: State, op: Operation): Result<State, string> {
    match op
    case Iterate(observed, pending) => Update(s, observed, pending)
    case ReserveCompletion => Reserve(s)
    case FinishCompletion => Finish(s)
  }

  /** The state after a sequence of calls; one that raises changes nothing. */
  function Play(s: State, ops: seq<Operation>): State {
    if ops == [] then s
    else
      var before := Play(s, ops[..|ops|-1]);
      var r := Apply(before, ops[|ops|-1]);
      if r.Success? then r.value else before
  }

  /** How many of the calls close an iteration. */
  function Updates(s: State, ops: seq<Operation>): (n: nat)
    ensures n <= |ops|
  {
    if ops == [] then 0
    else
      var before, op := Play(s, ops[..|ops|-1]), ops[|ops|-1];
      Updates(s, ops[..|ops|-1]) + if op.Iterate? && Apply(before, op).Success? then 1 else 0
  }

  // ---------------------------------------------------------------- the bound

  /** How many steps of more than EPSILON still fit between best and one. */
  function Room(best: real): nat {
    var x := 500.0 * (1.0 - best);
    if x <= 0.0 then 0 else -((-x).Floor) - 1
  }

  lemma RoomShrinks(best: real, next: real)
    requires Primary(best) && best <= next <= 1.0
    ensures Room(next) <= Room(best)
    ensures next - best > EPSILON ==> Room(next) + 1 <= Room(best)
  {
    var x, y := 500.0 * (1.0 - best), 500.0 * (1.0 - next);
    assert (-x).Floor as real <= -x < ((-x).Floor + 1) as real;
    assert (-y).Floor as real <= -y < ((-y).Floor + 1) as real;
  }

  /** At most 2 non-material measurements fit between material ones, and 5 unmeasured iterations before each
      measurement. */
  function Rank(s: State): int { 6 * (3 * Room(s.best) + 3 - s.nonMaterial) - s.unmeasured }

  /** Every closed iteration uses up some of the rank; nothing else changes it. */
  lemma StepUsesRank(s: State, op: Operation)
    requires Valid(s) && Apply(s, op).Success?
    ensures Valid(Apply(s, op).value)
    ensures op.Iterate? ==> Rank(Apply(s, op).value) <= Rank(s) - 1
    ensures !op.Iterate? ==> Rank(Apply(s, op).value) == Rank(s) && Apply(s, op).value.Terminal() == s.Terminal()
  {
    if op.Iterate? {
      RoomShrinks(s.best, Apply(s, op).value.best);
    }
  }

  lemma {:induction false} RunUsesRank(s: State, ops: seq<Operation>)
    requires Valid(s)
    ensures Valid(Play(s, ops)) && Rank(Play(s, ops)) + Updates(s, ops) <= Rank(s)
    ensures Play(s, ops).completed == s.completed + Updates(s, ops)
  {
    if ops != [] {
      var front := ops[..|ops|-1];
      RunUsesRank(s, front);
      if Apply(Play(s, front), ops[|ops|-1]).Success? {
        StepUsesRank(Play(s, front), ops[|ops|-1]);
      }
    }
  }

  /** What is left of the rank: an open state has some, a terminal one owes less than one more update. */
  lemma RankFloor(s: State)
    requires s.nonMaterial <= PATIENCE && s.unmeasured <= MAX_UNMEASURED_STREAK
    requires s.Converged() ==> s.unmeasured == 0
    ensures !s.Terminal() ==> Rank(s) >= 1
    ensures s.Terminal() ==> Rank(s) >= 0
  {
  }

  /** Streaks never run past their limits, and a converged state has just been measured. */
  predicate Bounded(s: State) {
    s.nonMaterial <= PATIENCE && s.unmeasured <= MAX_UNMEASURED_STREAK && (s.Converged() ==> s.unmeasured == 0)
  }

  lemma {:induction false} RunStaysBounded(s: State, ops: seq<Operation>)
    requires Bounded(s)
    ensures Bounded(Play(s, ops))
  {
    if ops != [] {
      RunStaysBounded(s, ops[..|ops|-1]);
    }
  }

  /** Research always ends: no run, however its completions are reserved and finished, closes more than 9000
      iterations; there is no iteration cap in the rule itself. */
  lemma ResearchEnds(best: real, ops: seq<Operation>)
    requires Primary(best)
    ensures Updates(Initial(best), ops) <= Rank(Initial(best)) <= UPDATE_BOUND
  {
    var s := Initial(best);
    RunUsesRank(s, ops);
    RunStaysBounded(s, ops);
    RankFloor(Play(s, ops));
    RoomShrinks(0.0, best);
    RoomAtZero();
  }

  lemma RoomAtZero()
    ensures Room(0.0) == 499
  {
    assert (-500.0).Floor == -500;
  }

  predicate ValidObservations(ops: seq<Operation>) {
    forall op | op in ops && op.Iterate? && op.observed.Some? :: Primary(op.observed.value)
  }

  function Attempts(ops: seq<Operation>): nat {
    if ops == [] then 0 else Attempts(ops[..|ops|-1]) + if ops[|ops|-1].Iterate? then 1 else 0
  }

  /** A terminal state is never left. */
  lemma {:induction false} TerminalAbsorbs(s: State, ops: seq<Operation>)
    requires s.Terminal()
    ensures Play(s, ops).Terminal() && Play(s, ops).completed == s.completed && Play(s, ops).best == s.best
  {
    if ops != [] {
      TerminalAbsorbs(s, ops[..|ops|-1]);
    }
  }

  lemma StaysTerminal(s: State, ops: seq<Operation>)
    requires ops != []
    ensures Play(s, ops[..|ops|-1]).Terminal() ==> Play(s, ops).Terminal()
  {
  }

  /** Until then, every attempt with a valid observation succeeds. */
  lemma {:induction false} OpenRunsCountAttempts(s: State, ops: seq<Operation>)
    requires ValidObservations(ops) && !Play(s, ops).Terminal()
    ensures Updates(s, ops) == Attempts(ops)
  {
    if ops != [] {
      var front := ops[..|ops|-1];
      assert ValidObservations(front);
      StaysTerminal(s, ops);
      OpenRunsCountAttempts(s, front);
    }
  }

  /** After 9000 attempts with valid observations every campaign is terminal. */
  lemma EnoughAttemptsTerminate(best: real, ops: seq<Operation>)
    requires Primary(best) && ValidObservations(ops) && Attempts(ops) >= UPDATE_BOUND
    ensures Play(Initial(best), ops).Terminal()
  {
    var s := Initial(best);
    if !Play(s, ops).Terminal() {
      OpenRunsCountAttempts(s, ops);
      RunUsesRank(s, ops);
      RunStaysBounded(s, ops);
      RankFloor(Play(s, ops));
      ResearchEnds(best, ops);
    }
  }

  // ---------------------------------------------------------------- the bound is attained

  const MATERIAL_STEP: real := 1.0 / 499.0

  function Rejections(n: nat): (ops: seq<Operation>)
    ensures |ops| == n
  {
    if n == 0 then [] else Rejections(n - 1) + [Iterate(None, None)]
  }

  /** Five rejections and one measurement. */
  function Slow(x: real): (ops: seq<Operation>)
    ensures |ops| == 6
  {
    Rejections(5) + [Iterate(Some(x), None)]
  }

  lemma PlayLast(s: State, ops: seq<Operation>)
    requires ops != []
    ensures var front, op := ops[..|ops|-1], ops[|ops|-1];
            var r := Apply(Play(s, front), op);
            && Play(s, ops) == (if r.Success? then r.value else Play(s, front))
            && Updates(s, ops) == Updates(s, front) + if op.Iterate? && r.Success? then 1 else 0
  {
  }

  lemma {:induction false} PlayConcat(s: State, a: seq<Operation>, b: seq<Operation>)
    ensures Play(s, a + b) == Play(Play(s, a), b)
    ensures Updates(s, a + b) == Updates(s, a) + Updates(Play(s, a), b)
  {
    if b == [] {
      assert a + b == a;
    } else {
      hide Apply, Updates, Play;
      PlayLast(s, a + b);
      PlayLast(Play(s, a), b);
      var m := |b| - 1;
      PlayConcat(s, a, b[..m]);
      assert (a + b)[..|a| + m] == a + b[..m];
    }
  }

  lemma {:induction false} PlayRejections(s: State, n: nat)
    requires n <= 5 && s.unmeasured == 0 && !s.Converged()
    ensures Play(s, Rejections(n)) == s.(unmeasured := n, completed := s.completed + n)
    ensures Updates(s, Rejections(n)) == n
  {
    if n > 0 {
      PlayRejections(s, n - 1);
      assert Rejections(n)[..n-1] == Rejections(n - 1);
    }
  }

  lemma PlaySlow(s: State, x: real)
    requires s.unmeasured == 0 && !s.Converged() && Primary(x) && s.best <= x
    ensures Play(s, Slow(x)) == s.(best := x, completed := s.completed + 6,
                                   nonMaterial := if x - s.best > EPSILON then 0 else s.nonMaterial + 1)
    ensures Updates(s, Slow(x)) == 6
  {
    PlayRejections(s, 5);
    assert Slow(x)[..5] == Rejections(5);
  }

  /** Two measurements that gain nothing and one that gains just enough. */
  function Group(b: real, c: real): seq<Operation> { Slow(b) + Slow(b) + Slow(c) }

  lemma PlayGroup(s: State, c: real)
    requires s.unmeasured == 0 && s.nonMaterial == 0 && Primary(s.best) && Primary(c) && c - s.best > EPSILON
    ensures Play(s, Group(s.best, c)) == s.(best := c, completed := s.completed + 18)
    ensures Updates(s, Group(s.best, c)) == 18
  {
    var b := s.best;
    PlaySlow(s, b);
    PlaySlow(Play(s, Slow(b)), b);
    PlayConcat(s, Slow(b), Slow(b));
    PlaySlow(Play(s, Slow(b) + Slow(b)), c);
    PlayConcat(s, Slow(b) + Slow(b), Slow(c));
  }

  /** The best score after k material steps. */
  function Level(k: nat): real { k as real * MATERIAL_STEP }

  function Slowest(k: nat): seq<Operation> {
    if k == 0 then [] else Slowest(k - 1) + Group(Level(k - 1), Level(k))
  }

  lemma LevelBounds(k: nat)
    requires 0 < k <= 499
    ensures Primary(Level(k - 1)) && Primary(Level(k)) && Level(k) - Level(k - 1) > EPSILON
  {
    assert (k - 1) as real * MATERIAL_STEP == k as real * MATERIAL_STEP - MATERIAL_STEP;
    assert k as real * MATERIAL_STEP <= 499.0 * MATERIAL_STEP == 1.0;
    assert (k - 1) as real * MATERIAL_STEP >= 0.0;
  }

  lemma {:induction false} PlaySlowest(k: nat)
    requires k <= 499
    ensures Play(Initial(0.0), Slowest(k)) == State(Level(k), 0, 0, 18 * k, false)
    ensures Updates(Initial(0.0), Slowest(k)) == 18 * k
  {
    if k > 0 {
      PlaySlowest(k - 1);
      LevelBounds(k);
      PlayGroup(State(Level(k - 1), 0, 0, 18 * (k - 1), false), Level(k));
      PlayConcat(Initial(0.0), Slowest(k - 1), Group(Level(k - 1), Level(k)));
    }
  }

  /** The bound cannot be lowered: this campaign closes its 9000th iteration and only then converges. */
  lemma BoundIsAttained()
    ensures var ops := Slowest(499) + Slow(1.0) + Slow(1.0) + Slow(1.0);
            Updates(Initial(0.0), ops) == UPDATE_BOUND && Play(Initial(0.0), ops).Converged()
  {
    PlaySlowest(499);
    var s := State(1.0, 0, 0, 8982, false);
    PlaySlow(s, 1.0);
    PlaySlow(Play(s, Slow(1.0)), 1.0);
    PlaySlow(Play(Play(s, Slow(1.0)), Slow(1.0)), 1.0);
    PlayConcat(Initial(0.0), Slowest(499), Slow(1.0));
    PlayConcat(Initial(0.0), Slowest(499) + Slow(1.0), Slow(1.0));
    PlayConcat(Initial(0.0), Slowest(499) + Slow(1.0) + Slow(1.0), Slow(1.0));
  }

  // ---------------------------------------------------------------- what the best score means

  /** The best score is the largest of the start and of all accepted observations. */
  lemma {:induction false} BestIsMaximum(s: State, ops: seq<Operation>, i: nat)
    requires Valid(s) && i < |ops| && ops[i].Iterate? && ops[i].observed.Some?
    requires Apply(Play(s, ops[..i]), ops[i]).Success?
    ensures s.best <= Play(s, ops[..i]).best <= Play(s, ops).best && ops[i].observed.value <= Play(s, ops).best
    decreases |ops|
  {
    var n := |ops| - 1;
    BestGrows(s, ops[..i]);
    if i < n {
      assert ops[..n][..i] == ops[..i];
      BestIsMaximum(s, ops[..n], i);
    }
  }

  lemma {:induction false} BestGrows(s: State, ops: seq<Operation>)
    ensures s.best <= Play(s, ops).best
  {
    if ops != [] {
      BestGrows(s, ops[..|ops|-1]);
    }
  }

  /** And it is the start or one of the observations. */
  lemma {:induction false} BestIsAttained(s: State, ops: seq<Operation>)
    ensures Play(s, ops).best == s.best
         || exists i :: 0 <= i < |ops| && ops[i].Iterate? && ops[i].observed == Some(Play(s, ops).best)
  {
    if ops != [] {
      var front := ops[..|ops|-1];
      BestIsAttained(s, front);
      if Play(s, ops).best == Play(s, front).best {
        if Play(s, ops).best != s.best {
          var i :| 0 <= i < |front| && front[i].Iterate? && front[i].observed == Some(Play(s, front).best);
          assert ops[i] == front[i];
        }
      } else {
        assert ops[|ops|-1].observed == Some(Play(s, ops).best);
      }
    }
  }

  // ---------------------------------------------------------------- the rule over whole runs

  /** Each operation on the fields of a state: when it is refused, what it changes, and when the campaign stops. */
  lemma OperationsExactly(s: State, op: Operation)
    ensures Apply(s, op).Success?
       <==> match op {
              case Iterate(x, _) => s.nonMaterial < 3 && s.unmeasured < 6 && (x.Some? ==> 0.0 <= x.value <= 1.0)
              case ReserveCompletion => s.nonMaterial < 3 && s.unmeasured < 6
              case FinishCompletion => s.pending
            }
    ensures Apply(s, op).Success? ==>
              var t := Apply(s, op).value;
              match op {
                case Iterate(None, pending) =>
                  && t.best == s.best && t.nonMaterial == s.nonMaterial && t.unmeasured == s.unmeasured + 1
                  && t.completed == s.completed + 1 && t.pending == if pending.Some? then pending.value else s.pending
                case Iterate(Some(x), pending) =>
                  && (t.best == x > s.best || t.best == s.best >= x) && t.unmeasured == 0
                  && t.nonMaterial == (if x > s.best + 0.002 then 0 else s.nonMaterial + 1)
                  && t.completed == s.completed + 1 && t.pending == if pending.Some? then pending.value else s.pending
                case ReserveCompletion => t == s.(pending := true)
                case FinishCompletion => t == s.(pending := false)
              }
    ensures s.ShouldStop() <==> (3 <= s.nonMaterial || 6 <= s.unmeasured) && !s.pending
  {
  }

  /** What the closed iterations observed, in order. */
  function Closed(s: State, ops: seq<Operation>): (c: seq<Option<real>>)
    ensures |c| == Updates(s, ops)
  {
    if ops == [] then []
    else
      var before, op := Play(s, ops[..|ops|-1]), ops[|ops|-1];
      Closed(s, ops[..|ops|-1]) + if op.Iterate? && Apply(before, op).Success? then [op.observed] else []
  }

  function Measured(c: seq<Option<real>>): seq<real> {
    if c == [] then []
    else Measured(c[..|c|-1]) + if c[|c|-1].Some? then [c[|c|-1].value] else []
  }

  /** The largest of the start and the measurements. */
  function Top(best: real, m: seq<real>): (x: real)
    ensures x == best || x in m
    ensures best <= x && forall y | y in m :: y <= x
  {
    if m == [] then best
    else
      var x := Top(best, m[..|m|-1]);
      assert m == m[..|m|-1] + [m[|m|-1]];
      if m[|m|-1] > x then m[|m|-1] else x
  }

  /** The last n iterations were not measured, the one before them was. */
  predicate UnmeasuredTail(c: seq<Option<real>>, n: nat) {
    n <= |c| && (forall i | |c| - n <= i < |c| :: c[i] == None) && (n < |c| ==> c[|c| - n - 1].Some?)
  }

  /** Each of the last n measurements was at most EPSILON above all before it, the one before them was more. */
  predicate NonMaterialTail(best: real, m: seq<real>, n: nat) {
    && n <= |m| && (forall i | |m| - n <= i < |m| :: m[i] <= Top(best, m[..i]) + 0.002)
    && (n < |m| ==> m[|m| - n - 1] > Top(best, m[..|m| - n - 1]) + 0.002)
  }

  lemma {:induction false} RuleByTails(best: real, ops: seq<Operation>)
    ensures var t, c := Play(Initial(best), ops), Closed(Initial(best), ops);
            && t.completed == |c| && t.best == Top(best, Measured(c))
            && UnmeasuredTail(c, t.unmeasured) && NonMaterialTail(best, Measured(c), t.nonMaterial)
  {
    hide *;
    if ops == [] {
      RuleAtStart(best);
    } else {
      var s, front, op := Initial(best), ops[..|ops|-1], ops[|ops|-1];
      RuleByTails(best, front);
      ClosedStep(s, ops);
      var before, c := Play(s, front), Closed(s, front);
      if op.Iterate? && Apply(before, op).Success? {
        OperationsExactly(before, op);
        MeasuredStep(c, op.observed);
        UnmeasuredGrows(c, before.unmeasured, op.observed);
        if op.observed.Some? {
          NonMaterialGrows(best, Measured(c), before.nonMaterial, op.observed.value);
        }
      }
    }
  }

  /** Over every run, all four figures are functions of what the closed iterations observed: their number, the largest
      measurement, how many iterations went unmeasured since the last measurement, and how many measurements went by
      since the last one that was more than 0.002 above all before it. */
  lemma RuleExactly(best: real, ops: seq<Operation>)
    ensures var t, c := Play(Initial(best), ops), Closed(Initial(best), ops);
            var m, u, w := Measured(c), t.unmeasured, t.nonMaterial;
            && t.completed == |c| && t.best == Top(best, m)
            && u <= |c| && (forall i | |c| - u <= i < |c| :: c[i] == None) && (u < |c| ==> c[|c| - u - 1].Some?)
            && w <= |m| && (forall i | |m| - w <= i < |m| :: m[i] <= Top(best, m[..i]) + 0.002)
            && (w < |m| ==> m[|m| - w - 1] > Top(best, m[..|m| - w - 1]) + 0.002)
  {
    hide Play, Closed, Measured, Top;
    RuleByTails(best, ops);
  }

  lemma RuleAtStart(best: real)
    ensures var t, c := Play(Initial(best), []), Closed(Initial(best), []);
            && t.completed == |c| && t.best == Top(best, Measured(c))
            && UnmeasuredTail(c, t.unmeasured) && NonMaterialTail(best, Measured(c), t.nonMaterial)
  {
  }

  lemma ClosedStep(s: State, ops: seq<Operation>)
    requires ops != []
    ensures var front, op := ops[..|ops|-1], ops[|ops|-1];
            var before, r := Play(s, front), Apply(Play(s, front), op);
            if op.Iterate? && r.Success?
            then Play(s, ops) == r.value && Closed(s, ops) == Closed(s, front) + [op.observed]
            else && Play(s, ops).(pending := before.pending) == before && Closed(s, ops) == Closed(s, front)
  {
  }

  lemma MeasuredStep(c: seq<Option<real>>, x: Option<real>)
    ensures Measured(c + [x]) == if x.Some? then Measured(c) + [x.value] else Measured(c)
  {
    assert (c + [x])[..|c|] == c;
  }

  lemma UnmeasuredGrows(c: seq<Option<real>>, n: nat, x: Option<real>)
    requires UnmeasuredTail(c, n)
    ensures UnmeasuredTail(c + [x], if x == None then n + 1 else 0)
  {
    var d := c + [x];
    if x == None {
      forall i | |d| - (n + 1) <= i < |d|
        ensures d[i] == None
      {
        assert i < |c| ==> d[i] == c[i];
      }
    }
  }

  lemma NonMaterialGrows(best: real, m: seq<real>, n: nat, x: real)
    requires NonMaterialTail(best, m, n)
    ensures Top(best, m + [x]) == if x > Top(best, m) then x else Top(best, m)
    ensures NonMaterialTail(best, m + [x], if x > Top(best, m) + 0.002 then 0 else n + 1)
  {
    var k := m + [x];
    assert k[..|m|] == m;
    assert NonMaterialTail(best, k, if x > Top(best, m) + 0.002 then 0 else n + 1) by {
      hide Top;
      forall i | 0 <= i < |m|
        ensures k[..i] == m[..i] && k[i] == m[i]
      {
      }
    }
  }

  /** The value an operation gives the pending flag, if it sets it. */
  function Sets(op: Operation): Option<bool> {
    match op
    case Iterate(_, pending) => pending
    case ReserveCompletion => Some(true)
    case FinishCompletion => Some(false)
  }

  predicate SetsAt(s: State, ops: seq<Operation>, k: nat, flag: bool)
    requires k < |ops|
  {
    Sets(ops[k]) == Some(flag) && Apply(Play(s, ops[..k]), ops[k]).Success?
  }

  lemma SetsInFront(s: State, ops: seq<Operation>, k: nat, flag: bool)
    requires k < |ops| - 1
    ensures SetsAt(s, ops[..|ops|-1], k, flag) == SetsAt(s, ops, k, flag)
  {
    assert ops[..|ops|-1][..k] == ops[..k];
  }

  /** Over every run a completion is pending if and only if the last operation that set the flag reserved it, or it was
      pending at the start and no operation finished it. */
  lemma {:induction false} PendingExactly(s: State, ops: seq<Operation>)
    ensures Play(s, ops).pending
       <==> || (s.pending && forall k | 0 <= k < |ops| :: !SetsAt(s, ops, k, false))
            || exists k | 0 <= k < |ops| ::
                 SetsAt(s, ops, k, true) && forall j | k < j < |ops| :: !SetsAt(s, ops, j, false)
  {
    hide SetsAt;
    if ops != [] {
      var n := |ops| - 1;
      PendingExactly(s, ops[..n]);
      PendingStep(s, ops);
      forall k, flag | 0 <= k < n
        ensures SetsAt(s, ops[..n], k, flag) == SetsAt(s, ops, k, flag)
      {
        SetsInFront(s, ops, k, flag);
      }
    }
  }

  lemma PendingStep(s: State, ops: seq<Operation>)
    requires ops != []
    ensures var n := |ops| - 1;
            Play(s, ops).pending
            <==> SetsAt(s, ops, n, true) || (Play(s, ops[..n]).pending && !SetsAt(s, ops, n, false))
  {
  }
}
