/** The campaign deadline of src/kuairand_agent/campaign/clock.py. Times are real seconds; the monotonic clock
    counts nanoseconds. */
module Clock {
  import opened Results
  import Budgets

  const MAX_WALL_CLOCK_SECONDS: nat := 21600
  const MIN_FINALIZATION_RESERVE_SECONDS: nat := 600
  const NANOSECONDS_PER_SECOND: nat := 1_000_000_000

  datatype State = State(wall: nat, reserve: nat, startedUtc: real, utcDeadline: real, boot: string, monoStarted: int,
                         monoDeadline: int, lastUtc: real, lastMono: int, elapsed: real)

  /** `__post_init__` */
  predicate Valid(s: State) {
    && 1 <= s.wall <= MAX_WALL_CLOCK_SECONDS
    && MIN_FINALIZATION_RESERVE_SECONDS <= s.reserve < s.wall
    && s.utcDeadline == s.startedUtc + s.wall as real
    && s.lastUtc >= s.startedUtc
    && Budgets.Identifier(s.boot)
    && s.monoStarted >= 0 && s.monoDeadline == s.monoStarted + s.wall * NANOSECONDS_PER_SECOND
    && s.lastMono >= s.monoStarted
    && 0.0 <= s.elapsed <= s.wall as real
  }

  /** What the three clocks say at one moment. */
  datatype Reading = Reading(utc: real, mono: int, boot: string)

  datatype Observation = Observation(state: State, elapsed: real, remaining: real, sameBoot: bool) {
    predicate HardExpired() { remaining <= 0.0 }

    predicate ReserveActive() { remaining <= state.reserve as real }
  }

  function Max(x: real, y: real): real { if x >= y then x else y }

  function Min(x: real, y: real): real { if x <= y then x else y }

  function Start(now: Reading, wall: nat, reserve: nat): Result<State, string> {
    var s := State(wall, reserve, now.utc, now.utc + wall as real, now.boot, now.mono,
                   now.mono + wall * NANOSECONDS_PER_SECOND, now.utc, now.mono, 0.0);
    if Valid(s) then Success(s) else Failure("invalid deadline")
  }

  /** Elapsed time as far as the reading can be compared with the start. */
  function Elapsed(s: State, now: Reading): real {
    var utc := Max(0.0, now.utc - s.startedUtc);
    var raw :=
      if now.boot == s.boot then Max(Max(s.elapsed, utc), (now.mono - s.monoStarted) as real / 1_000_000_000.0)
      else Max(s.elapsed, utc);
    Min(s.wall as real, raw)
  }

  /** `observe` */
  function Observe(s: State, now: Reading): Result<Observation, string> {
    var sameBoot := now.boot == s.boot;
    if now.utc < s.lastUtc then Failure("UTC wall clock moved backwards; deadline fails closed")
    else if now.mono < 0 || !Budgets.Identifier(now.boot) then Failure("invalid clock reading")
    else if sameBoot && now.mono < s.lastMono then Failure("monotonic clock moved backwards; deadline fails closed")
    else
      var elapsed := Elapsed(s, now);
      Success(Observation(s.(lastUtc := now.utc, lastMono := if sameBoot then now.mono else s.lastMono,
                             elapsed := elapsed),
                          elapsed, Max(0.0, s.wall as real - elapsed), sameBoot))
  }

  /** The fields that fix the budget for good. */
  predicate SameBudget(s: State, t: State) {
    && t.wall == s.wall && t.reserve == s.reserve && t.startedUtc == s.startedUtc && t.utcDeadline == s.utcDeadline
    && t.boot == s.boot && t.monoStarted == s.monoStarted && t.monoDeadline == s.monoDeadline
  }

  /** One observation never gives time back, accounts for the whole budget, and counts at least the wall time
      since the start. */
  lemma ObservationIsConservative(s: State, now: Reading)
    requires Valid(s) && Observe(s, now).Success?
    ensures var o := Observe(s, now).value;
            && Valid(o.state) && SameBudget(s, o.state) && o.state.lastUtc >= s.lastUtc && o.state.lastMono >= s.lastMono
            && o.elapsed == o.state.elapsed && s.elapsed <= o.elapsed
            && o.elapsed + o.remaining == s.wall as real && o.remaining >= 0.0
            && o.elapsed >= Min(s.wall as real, now.utc - s.startedUtc)
            && (now.boot == s.boot ==>
                  o.elapsed >= Min(s.wall as real, (now.mono - s.monoStarted) as real / 1_000_000_000.0))
  {
  }

  /** Nor does it take more time away than some clock says: elapsed is one of the times it compares. */
  lemma ObservationIsExact(s: State, now: Reading)
    requires Valid(s) && Observe(s, now).Success?
    ensures var e := Observe(s, now).value.elapsed;
            || e == s.elapsed || e == s.wall as real || e == now.utc - s.startedUtc
            || (now.boot == s.boot && e == (now.mono - s.monoStarted) as real / 1_000_000_000.0)
    ensures var e := Observe(s, now).value.elapsed;
            e == s.wall as real && s.elapsed < e ==>
              || now.utc - s.startedUtc >= e
              || (now.boot == s.boot && (now.mono - s.monoStarted) as real / 1_000_000_000.0 >= e)
    ensures var o := Observe(s, now).value;
            && (o.sameBoot <==> now.boot == s.boot) && o.state.lastUtc == now.utc
            && o.state.lastMono == if now.boot == s.boot then now.mono else s.lastMono
  {
  }

  /** A state is valid if and only if its budget is one that some start fixes, its clocks are not before that start
      and its elapsed time is within the budget. */
  lemma ValidExactly(s: State)
    ensures Valid(s)
       <==> && Start(Reading(s.startedUtc, s.monoStarted, s.boot), s.wall, s.reserve).Success?
            && SameBudget(Start(Reading(s.startedUtc, s.monoStarted, s.boot), s.wall, s.reserve).value, s)
            && s.lastUtc >= s.startedUtc && s.lastMono >= s.monoStarted && 0.0 <= s.elapsed <= s.wall as real
  {
  }

  // ---------------------------------------------------------------- runs of observations

  /** The persisted state after a sequence of readings; one that fails closed leaves it as it was. */
  function Play(s: State, readings: seq<Reading>): State {
    if readings == [] then s
    else
      var before := Play(s, readings[..|readings|-1]);
      var r := Observe(before, readings[|readings|-1]);
      if r.Success? then r.value.state else before
  }

  lemma {:induction false} TimeNeverComesBack(s: State, readings: seq<Reading>)
    requires Valid(s)
    ensures Valid(Play(s, readings)) && SameBudget(s, Play(s, readings))
    ensures s.elapsed <= Play(s, readings).elapsed && s.lastUtc <= Play(s, readings).lastUtc
  {
    if readings != [] {
      var before := Play(s, readings[..|readings|-1]);
      TimeNeverComesBack(s, readings[..|readings|-1]);
      if Observe(before, readings[|readings|-1]).Success? {
        ObservationIsConservative(before, readings[|readings|-1]);
      }
    }
  }

  // ---------------------------------------------------------------- which readings are accepted

  predicate Accepted(s: State, readings: seq<Reading>, k: nat)
    requires k < |readings|
  {
    Observe(Play(s, readings[..k]), readings[k]).Success?
  }

  predicate Readable(r: Reading) { r.mono >= 0 && Budgets.Identifier(r.boot) }

  /** Neither clock runs back from one reading to the other. Only readings of the campaign's first boot have
      monotonic clocks that can be compared. */
  predicate InOrder(s: State, first: Reading, second: Reading) {
    && first.utc <= second.utc
    && (first.boot == s.boot && second.boot == s.boot ==> first.mono <= second.mono)
  }

  predicate Pairwise(s: State, readings: seq<Reading>) {
    forall i, k | 0 <= i < k < |readings| :: InOrder(s, readings[i], readings[k])
  }

  /** What the state itself remembers. */
  function Remembered(s: State): Reading { Reading(s.lastUtc, s.lastMono, s.boot) }

  lemma PlayStep(s: State, readings: seq<Reading>)
    requires readings != []
    ensures var n := |readings| - 1;
            var before := Play(s, readings[..n]);
            Accepted(s, readings, n) == Observe(before, readings[n]).Success? &&
            Play(s, readings) == if Accepted(s, readings, n) then Observe(before, readings[n]).value.state else before
  {
  }

  lemma AcceptedInFront(s: State, readings: seq<Reading>, k: nat)
    requires k < |readings| - 1
    ensures Accepted(s, readings[..|readings|-1], k) == Accepted(s, readings, k)
  {
    assert readings[..|readings|-1][..k] == readings[..k];
  }

  /** The reading is in order with every accepted one. */
  predicate AfterAll(s: State, readings: seq<Reading>, now: Reading) {
    forall k | 0 <= k < |readings| && Accepted(s, readings, k) :: InOrder(s, readings[k], now)
  }

  lemma AfterAllStep(s: State, readings: seq<Reading>, now: Reading)
    requires readings != []
    ensures var n := |readings| - 1;
            AfterAll(s, readings, now)
            <==> AfterAll(s, readings[..n], now) && (Accepted(s, readings, n) ==> InOrder(s, readings[n], now))
  {
    hide Accepted, InOrder;
    var n := |readings| - 1;
    forall k | 0 <= k < n
      ensures Accepted(s, readings[..n], k) == Accepted(s, readings, k)
    {
      AcceptedInFront(s, readings, k);
    }
    if AfterAll(s, readings, now) {
      forall k | 0 <= k < n && Accepted(s, readings[..n], k)
        ensures InOrder(s, readings[..n][k], now)
      {
        assert Accepted(s, readings, k);
      }
    }
  }

  /** The two remembered clocks are the latest that were ever accepted. */
  lemma {:induction false} RemembersAccepted(s: State, readings: seq<Reading>, now: Reading)
    ensures Play(s, readings).boot == s.boot
    ensures InOrder(s, Remembered(Play(s, readings)), now)
       <==> InOrder(s, Remembered(s), now) && AfterAll(s, readings, now)
  {
    if readings != [] {
      hide Accepted, InOrder, Play, Observe, AfterAll;
      var n := |readings| - 1;
      PlayStep(s, readings);
      RemembersAccepted(s, readings[..n], now);
      AfterAllStep(s, readings, now);
      if Accepted(s, readings, n) {
        AcceptedMoves(s, Play(s, readings[..n]), readings[n], now);
      }
    }
  }

  lemma AcceptedMoves(s: State, before: State, r: Reading, now: Reading)
    requires before.boot == s.boot && Observe(before, r).Success?
    ensures Observe(before, r).value.state.boot == s.boot
    ensures InOrder(s, Remembered(Observe(before, r).value.state), now)
       <==> InOrder(s, Remembered(before), now) && InOrder(s, r, now)
  {
  }

  /** After any history, failed readings included, a reading is accepted if and only if it can be read and is in
      order with the state the history began with and with every reading accepted since. */
  lemma AcceptedExactly(s: State, readings: seq<Reading>, now: Reading)
    ensures Observe(Play(s, readings), now).Success?
       <==> Readable(now) && InOrder(s, Remembered(s), now) && AfterAll(s, readings, now)
  {
    RemembersAccepted(s, readings, now);
  }

  /** So a whole series is accepted if and only if all its readings can be read and are pairwise in order. */
  lemma SeriesAcceptedExactly(s: State, readings: seq<Reading>)
    ensures (forall k | 0 <= k < |readings| :: Accepted(s, readings, k))
       <==> && (forall k | 0 <= k < |readings| :: Readable(readings[k]) && InOrder(s, Remembered(s), readings[k]))
            && Pairwise(s, readings)
  {
    hide Accepted, InOrder, Readable, Play, Observe;
    forall k | 0 <= k < |readings|
      ensures Accepted(s, readings, k)
         <==> && Readable(readings[k]) && InOrder(s, Remembered(s), readings[k])
              && forall i | 0 <= i < k && Accepted(s, readings, i) :: InOrder(s, readings[i], readings[k])
    {
      AcceptedIs(s, readings, k);
    }
    EachInTurn(s, readings, |readings|);
  }

  /** A deadline starts exactly from a readable clock with both limits in range; and then all its readings are
      accepted if and only if they can be read and no clock ever runs back, from the start on. */
  lemma StartedSeriesExactly(now: Reading, wall: nat, reserve: nat, readings: seq<Reading>)
    ensures Start(now, wall, reserve).Success?
       <==> now.mono >= 0 && Budgets.Identifier(now.boot) && 600 <= reserve < wall <= 21600
    ensures Start(now, wall, reserve).Success? ==>
              Start(now, wall, reserve).value
              == State(wall, reserve, now.utc, now.utc + wall as real, now.boot, now.mono,
                       now.mono + wall * 1_000_000_000, now.utc, now.mono, 0.0)
    ensures Start(now, wall, reserve).Success? ==>
              var s, all := Start(now, wall, reserve).value, [now] + readings;
              (forall k | 0 <= k < |readings| :: Accepted(s, readings, k))
              <==> && (forall k | 0 <= k < |readings| :: Readable(readings[k]))
                   && Pairwise(s, all)
  {
    hide Accepted, InOrder, Budgets.Identifier;
    if Start(now, wall, reserve).Success? {
      var s, all := Start(now, wall, reserve).value, [now] + readings;
      StartRemembers(now, wall, reserve);
      SeriesAcceptedExactly(s, readings);
      if Pairwise(s, all) {
        PairwiseAfter(s, now, readings);
      } else if Pairwise(s, readings) && forall k | 0 <= k < |readings| :: InOrder(s, now, readings[k]) {
        PairwiseFrom(s, now, readings);
      }
    }
  }

  lemma StartRemembers(now: Reading, wall: nat, reserve: nat)
    requires Start(now, wall, reserve).Success?
    ensures Remembered(Start(now, wall, reserve).value) == now
  {
  }

  lemma PairwiseAfter(s: State, now: Reading, readings: seq<Reading>)
    requires Pairwise(s, [now] + readings)
    ensures Pairwise(s, readings) && forall k | 0 <= k < |readings| :: InOrder(s, now, readings[k])
  {
    hide InOrder;
    var all := [now] + readings;
    forall i, k | 0 <= i < k < |readings|
      ensures InOrder(s, readings[i], readings[k])
    {
      assert InOrder(s, all[i + 1], all[k + 1]);
    }
    forall k | 0 <= k < |readings|
      ensures InOrder(s, now, readings[k])
    {
      assert InOrder(s, all[0], all[k + 1]);
    }
  }

  lemma PairwiseFrom(s: State, now: Reading, readings: seq<Reading>)
    requires Pairwise(s, readings) && forall k | 0 <= k < |readings| :: InOrder(s, now, readings[k])
    ensures Pairwise(s, [now] + readings)
  {
    hide InOrder;
    var all := [now] + readings;
    forall i, k | 0 <= i < k < |all|
      ensures InOrder(s, all[i], all[k])
    {
      assert all[k] == readings[k - 1];
      if i > 0 {
        assert all[i] == readings[i - 1];
      }
    }
  }

  lemma AcceptedIs(s: State, readings: seq<Reading>, k: nat)
    requires k < |readings|
    ensures Accepted(s, readings, k)
       <==> && Readable(readings[k]) && InOrder(s, Remembered(s), readings[k])
            && forall i | 0 <= i < k && Accepted(s, readings, i) :: InOrder(s, readings[i], readings[k])
  {
    AcceptedExactly(s, readings[..k], readings[k]);
    forall i | 0 <= i < k
      ensures Accepted(s, readings[..k], i) == Accepted(s, readings, i)
    {
      assert readings[..k][..i] == readings[..i];
    }
  }

  lemma {:induction false} EachInTurn(s: State, readings: seq<Reading>, n: nat)
    requires n <= |readings|
    requires forall k | 0 <= k < |readings| ::
               Accepted(s, readings, k)
               <==> && Readable(readings[k]) && InOrder(s, Remembered(s), readings[k])
                    && forall i | 0 <= i < k && Accepted(s, readings, i) :: InOrder(s, readings[i], readings[k])
    ensures (forall k | 0 <= k < |readings| :: Readable(readings[k]) && InOrder(s, Remembered(s), readings[k]))
         && Pairwise(s, readings)
         ==> forall k | 0 <= k < n :: Accepted(s, readings, k)
  {
    if n > 0 {
      EachInTurn(s, readings, n - 1);
    }
  }

  /** Once seen, the active reserve and the expired deadline are seen by every later observation, over any
      readings and reboots in between. */
  lemma ReserveAndExpiryLatch(s: State, first: Reading, between: seq<Reading>, later: Reading)
    requires Valid(s) && Observe(s, first).Success?
    requires Observe(Play(Observe(s, first).value.state, between), later).Success?
    ensures var o := Observe(s, first).value;
            var p := Observe(Play(o.state, between), later).value;
            && p.elapsed >= o.elapsed && p.remaining <= o.remaining
            && (o.ReserveActive() ==> p.ReserveActive()) && (o.HardExpired() ==> p.HardExpired())
  {
    var o := Observe(s, first).value;
    ObservationIsConservative(s, first);
    TimeNeverComesBack(o.state, between);
    ObservationIsConservative(Play(o.state, between), later);
  }

  // ---------------------------------------------------------------- how much time is left

  /** By each clock that can be compared with the start, x seconds of the budget are left. */
  predicate Leaves(s: State, r: Reading, x: real) {
    && r.utc - s.startedUtc + x <= s.wall as real
    && (r.boot == s.boot ==> (r.mono - s.monoStarted) as real / 1_000_000_000.0 + x <= s.wall as real)
  }

  lemma LeavesStep(s: State, before: State, r: Reading, x: real)
    requires SameBudget(s, before) && Observe(before, r).Success? && 0.0 < x
    ensures Observe(before, r).value.state.elapsed + x <= s.wall as real
       <==> before.elapsed + x <= s.wall as real && x <= s.wall as real && Leaves(s, r, x)
  {
  }

  lemma {:induction false} SameBudgetAlong(s: State, readings: seq<Reading>)
    ensures SameBudget(s, Play(s, readings))
  {
    if readings != [] {
      SameBudgetAlong(s, readings[..|readings|-1]);
    }
  }

  /** After any history, failed readings included, x seconds are left if and only if they were left at the beginning
      and every reading accepted since leaves them. */
  lemma {:induction false} RemainingExactly(s: State, readings: seq<Reading>, x: real)
    requires 0.0 < x && 0.0 <= s.elapsed
    ensures Play(s, readings).elapsed + x <= s.wall as real
       <==> && s.elapsed + x <= s.wall as real
            && forall k | 0 <= k < |readings| && Accepted(s, readings, k) ::
                 && readings[k].utc - s.startedUtc + x <= s.wall as real
                 && (readings[k].boot == s.boot ==>
                       (readings[k].mono - s.monoStarted) as real / 1_000_000_000.0 + x <= s.wall as real)
  {
    hide Play, Observe, Accepted;
    if readings == [] {
      PlayNothing(s);
    } else {
      var n := |readings| - 1;
      var front := readings[..n];
      RemainingExactly(s, front, x);
      PlayStep(s, readings);
      SameBudgetAlong(s, front);
      forall k | 0 <= k < n
        ensures Accepted(s, front, k) == Accepted(s, readings, k)
      {
        AcceptedInFront(s, readings, k);
      }
      if Accepted(s, readings, n) {
        LeavesStep(s, Play(s, front), readings[n], x);
      }
    }
  }

  lemma PlayNothing(s: State)
    ensures Play(s, []) == s
  {
  }

  // ---------------------------------------------------------------- admission

  datatype Reason = Allowed | HardDeadline | FinalizationReserve

  /** `admit_research` */
  function AdmitResearch(o: Observation, p95: real, cleanup: real): Reason {
    var base := p95 + cleanup;
    if o.HardExpired() || base > o.remaining then HardDeadline
    else if o.ReserveActive() || base + o.state.reserve as real > o.remaining then FinalizationReserve
    else Allowed
  }

  /** `admit_required_completion` */
  function AdmitRequiredCompletion(o: Observation, p95: real, cleanup: real): Reason {
    if !o.HardExpired() && p95 + cleanup <= o.remaining then Allowed else HardDeadline
  }

  /** Both gates at every observation: a completion needs some time left and as much as it takes, research also needs
      more than the reserve left and the reserve left over. */
  lemma AdmissionsExactly(o: Observation, p95: real, cleanup: real)
    ensures var left, need, reserve := o.remaining, p95 + cleanup, o.state.reserve as real;
            && (AdmitRequiredCompletion(o, p95, cleanup) == Allowed <==> 0.0 < left && need <= left)
            && AdmitRequiredCompletion(o, p95, cleanup) != FinalizationReserve
            && (AdmitResearch(o, p95, cleanup) == HardDeadline <==> left <= 0.0 || left < need)
            && (AdmitResearch(o, p95, cleanup) == Allowed
                <==> 0.0 < left && reserve < left && need <= left && reserve <= left - need)
  {
  }

  /** From the beginning on, every reading that was accepted leaves x seconds. */
  predicate AllLeave(s: State, readings: seq<Reading>, x: real) {
    && s.elapsed + x <= s.wall as real
    && forall k | 0 <= k < |readings| && Accepted(s, readings, k) :: Leaves(s, readings[k], x)
  }

  /** Both gates over whole runs, on what the clocks said: a completion is allowed if and only if all readings so far
      leave some time that is enough for it, research if and only if they leave more than the reserve, and enough for it
      and the reserve. */
  lemma AdmittedExactly(s: State, readings: seq<Reading>, now: Reading, p95: real, cleanup: real)
    requires Valid(s) && Observe(Play(s, readings), now).Success?
    ensures var o, all, reserve := Observe(Play(s, readings), now).value, readings + [now], s.reserve as real;
            && (AdmitRequiredCompletion(o, p95, cleanup) == Allowed
                <==> exists x :: AllLeave(s, all, x) && 0.0 < x && p95 + cleanup <= x)
            && (AdmitResearch(o, p95, cleanup) == Allowed
                <==> exists x :: AllLeave(s, all, x) && reserve < x && p95 + cleanup <= x
                                 && p95 + cleanup + reserve <= x)
  {
    hide Accepted, Play, Observe, Valid, AllLeave, Leaves;
    var o, all := Observe(Play(s, readings), now).value, readings + [now];
    LastObservation(s, readings, now);
    AdmissionsExactly(o, p95, cleanup);
    forall x: real | 0.0 < x
      ensures AllLeave(s, all, x) <==> x <= o.remaining
    {
      AllLeaveExactly(s, all, x);
    }
    assert o.remaining > 0.0 ==> AllLeave(s, all, o.remaining);
  }

  lemma AllLeaveExactly(s: State, readings: seq<Reading>, x: real)
    requires 0.0 < x && 0.0 <= s.elapsed
    ensures AllLeave(s, readings, x) <==> Play(s, readings).elapsed + x <= s.wall as real
  {
    hide Accepted, Play, Observe;
    RemainingExactly(s, readings, x);
  }

  /** What an observation leaves is what the readings up to it leave. */
  lemma LastObservation(s: State, readings: seq<Reading>, now: Reading)
    requires Valid(s) && Observe(Play(s, readings), now).Success?
    ensures var o := Observe(Play(s, readings), now).value;
            && Play(s, readings + [now]).elapsed + o.remaining == s.wall as real && o.remaining >= 0.0
            && o.state.reserve == s.reserve && s.reserve > 0 && 0.0 <= s.elapsed
  {
    var all := readings + [now];
    assert all[..|all|-1] == readings;
    TimeNeverComesBack(s, readings);
    ObservationIsConservative(Play(s, readings), now);
  }

  /** Research admitted now and finished within its p95 and cleanup time leaves the whole reserve, whatever was
      observed in between. */
  lemma AdmittedResearchLeavesReserve(s: State, now: Reading, between: seq<Reading>, later: Reading, p95: real,
                                      cleanup: real)
    requires Valid(s) && p95 >= 0.0 && cleanup >= 0.0 && Observe(s, now).Success?
    requires AdmitResearch(Observe(s, now).value, p95, cleanup) == Allowed
    requires Observe(Play(Observe(s, now).value.state, between), later).Success?
    requires Observe(Play(Observe(s, now).value.state, between), later).value.elapsed
             <= Observe(s, now).value.elapsed + p95 + cleanup
    ensures var p := Observe(Play(Observe(s, now).value.state, between), later).value;
            p.remaining >= p.state.reserve as real > 0.0 && !p.HardExpired()
            && AdmitRequiredCompletion(p, p.state.reserve as real, 0.0) == Allowed
  {
    var o := Observe(s, now).value;
    ObservationIsConservative(s, now);
    TimeNeverComesBack(o.state, between);
    ObservationIsConservative(Play(o.state, between), later);
  }

  function LedgerReason(r: Reason): Budgets.Reason {
    match r
    case Allowed => Budgets.Reason.Allowed
    case HardDeadline => Budgets.Reason.HardDeadline
    case FinalizationReserve => Budgets.Reason.FinalizationReserve
  }

  /** The ledger's time gate, fed with an observation, decides as the clock does. */
  lemma LedgerAgreesWithClock(o: Observation, q: Budgets.Request)
    ensures Budgets.TimeGate(q, o.remaining, o.state.reserve as real)
         == LedgerReason(if q.phase == Budgets.Research then AdmitResearch(o, q.p95, q.cleanup)
                         else AdmitRequiredCompletion(o, q.p95, q.cleanup))
  {
  }
}
