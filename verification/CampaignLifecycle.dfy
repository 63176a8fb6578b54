/** The campaign states of src/kuairand_agent/campaign/models.py and the dispositions of a resume in
    src/kuairand_agent/campaign/controller.py, together with the moves of research and finalization. */
module CampaignLifecycle {
  import opened Results
  import Clock
  import Convergence

  datatype Status = Created | Running | Paused | FinalizationRequired | Finalizing | Completed | Incomplete

  /** `_CAMPAIGN_TRANSITIONS` */
  predicate LegalTransition(from: Status, to: Status) {
    match from
    case Created => to == Running || to == FinalizationRequired || to == Incomplete
    case Running => to == Paused || to == FinalizationRequired || to == Incomplete
    case Paused => to == Running || to == FinalizationRequired || to == Incomplete
    case FinalizationRequired => to == Finalizing || to == Incomplete
    case Finalizing => to == Completed || to == Incomplete
    case Completed => false
    case Incomplete => false
  }

  /** The table as a set of pairs. */
  lemma TransitionsExactly(from: Status, to: Status)
    ensures LegalTransition(from, to)
       <==> (from, to) in {(Created, Running), (Running, Paused), (Paused, Running),
                           (Created, FinalizationRequired), (Running, FinalizationRequired),
                           (Paused, FinalizationRequired), (FinalizationRequired, Finalizing), (Finalizing, Completed)}
            || (from !in {Completed, Incomplete} && to == Incomplete)
  {
  }

  predicate Terminal(s: Status) { s == Completed || s == Incomplete }

  /** States in which research may still be admitted. */
  predicate Researching(s: Status) { s == Created || s == Running || s == Paused }

  datatype Snapshot = Snapshot(status: Status, phase: string, launchesUsed: nat, maxLaunches: nat,
                               convergence: Convergence.State)

  datatype Disposition = Disposition(phase: string, status: Status)

  predicate MustFinalize(s: Snapshot, o: Clock.Observation, maxIterations: nat) {
    o.ReserveActive() || s.launchesUsed >= s.maxLaunches || s.convergence.ShouldStop()
    || s.convergence.completed >= maxIterations
  }

  /** `_next_campaign_disposition` */
  function NextDisposition(s: Snapshot, o: Clock.Observation, maxIterations: nat, unsafeCleanup: bool)
    : Option<Disposition>
  {
    if Terminal(s.status) then None
    else if unsafeCleanup then Some(Disposition("reconciliation_failed", Incomplete))
    else if o.HardExpired() then Some(Disposition("deadline_exhausted", Incomplete))
    else if s.status == Finalizing then None
    else if MustFinalize(s, o, maxIterations) then
      if s.status == FinalizationRequired then None
      else Some(Disposition("finalization_required", FinalizationRequired))
    else if s.status == FinalizationRequired then None
    else if s.status == Running && s.phase == "researching" then None
    else Some(Disposition("researching", Running))
  }

  datatype Campaign = Campaign(deadline: Clock.State, snapshot: Snapshot, maxIterations: nat)

  /** What may happen to a campaign: a resume, and what research and finalization do between resumes. */
  datatype Event =
    | Resumed(reading: Clock.Reading, unsafeCleanup: bool)
    | Researched(launchesUsed: nat, convergence: Convergence.State)
    | ResearchClosed
    | FinalizationBegun
    | BundlePublished

  /** The status part of `resume`. A terminal campaign is only looked at; a clock that fails closed changes
      nothing. */
  function Resume(c: Campaign, reading: Clock.Reading, unsafeCleanup: bool): Campaign {
    if Terminal(c.snapshot.status) then c
    else
      var o := Clock.Observe(c.deadline, reading);
      if o.Failure? then c
      else
        var d := NextDisposition(c.snapshot, o.value, c.maxIterations, unsafeCleanup);
        c.(deadline := o.value.state,
           snapshot := if d == None then c.snapshot else c.snapshot.(phase := d.value.phase, status := d.value.status))
  }

  function Apply(c: Campaign, e: Event): Campaign {
    var s := c.snapshot;
    match e
    case Resumed(reading, unsafeCleanup) => Resume(c, reading, unsafeCleanup)
    case Researched(launchesUsed, convergence) =>
      if s.status == Running then c.(snapshot := s.(launchesUsed := launchesUsed, convergence := convergence)) else c
    case ResearchClosed =>
      if Researching(s.status)
      then c.(snapshot := s.(phase := "finalization_required", status := FinalizationRequired)) else c
    case FinalizationBegun =>
      if s.status == FinalizationRequired then c.(snapshot := s.(phase := "finalizing", status := Finalizing)) else c
    case BundlePublished =>
      if s.status == Finalizing then c.(snapshot := s.(phase := "completed", status := Completed)) else c
  }

  function Play(c: Campaign, events: seq<Event>): Campaign {
    if events == [] then c else Apply(Play(c, events[..|events|-1]), events[|events|-1])
  }

  /** The store takes any status; the controller only ever writes the same one or a legal successor. */
  lemma EveryStepIsLegal(c: Campaign, e: Event)
    ensures var s, t := c.snapshot.status, Apply(c, e).snapshot.status; t == s || LegalTransition(s, t)
    ensures Clock.Valid(c.deadline) ==> Clock.Valid(Apply(c, e).deadline) && Apply(c, e).deadline.elapsed >= c.deadline.elapsed
    ensures Apply(c, e).deadline.wall == c.deadline.wall && Apply(c, e).deadline.reserve == c.deadline.reserve
    ensures var s, t := c.snapshot, Apply(c, e).snapshot;
            && t.maxLaunches == s.maxLaunches && Apply(c, e).maxIterations == c.maxIterations
            && (t.launchesUsed, t.convergence)
               == if e.Researched? && s.status == Running then (e.launchesUsed, e.convergence)
                  else (s.launchesUsed, s.convergence)
    ensures var o := if e.Resumed? then Clock.Observe(c.deadline, e.reading) else Failure("no reading");
            Apply(c, e).deadline
            == if o.Success? && c.snapshot.status !in {Completed, Incomplete} then o.value.state else c.deadline
  {
    if e.Resumed? && Clock.Valid(c.deadline) && Clock.Observe(c.deadline, e.reading).Success? {
      Clock.ObservationIsConservative(c.deadline, e.reading);
    }
  }

  /** Over every run: terminal campaigns stay as they are, and research that has ended never begins again. */
  lemma {:induction false} NoWayBack(c: Campaign, events: seq<Event>)
    ensures Terminal(c.snapshot.status) ==> Play(c, events) == c
    ensures !Researching(c.snapshot.status) ==> !Researching(Play(c, events).snapshot.status)
    ensures c.snapshot.status == FinalizationRequired ==> Play(c, events).snapshot.status != Running
    ensures c.snapshot.status == Finalizing ==>
              Play(c, events).snapshot.status == Finalizing || Terminal(Play(c, events).snapshot.status)
  {
    if events != [] {
      NoWayBack(c, events[..|events|-1]);
      EveryStepIsLegal(Play(c, events[..|events|-1]), events[|events|-1]);
    }
  }

  lemma {:induction false} RunsAdvanceTime(c: Campaign, events: seq<Event>)
    requires Clock.Valid(c.deadline)
    ensures Clock.Valid(Play(c, events).deadline) && Play(c, events).deadline.elapsed >= c.deadline.elapsed
    ensures Play(c, events).deadline.wall == c.deadline.wall && Play(c, events).deadline.reserve == c.deadline.reserve
  {
    if events != [] {
      RunsAdvanceTime(c, events[..|events|-1]);
      EveryStepIsLegal(Play(c, events[..|events|-1]), events[|events|-1]);
    }
  }

  /** Once the recorded time alone shows the reserve to be active, the next resume whose clock can be read ends research
      for good. */
  lemma ReserveEndsResearch(c: Campaign, before: seq<Event>, reading: Clock.Reading, unsafeCleanup: bool,
                            after: seq<Event>)
    requires Clock.Valid(c.deadline)
    requires c.deadline.wall as real - c.deadline.elapsed <= c.deadline.reserve as real
    requires Clock.Observe(Play(c, before).deadline, reading).Success?
    ensures !Researching(Play(Resume(Play(c, before), reading, unsafeCleanup), after).snapshot.status)
  {
    RunsAdvanceTime(c, before);
    var d := Play(c, before);
    Clock.ObservationIsConservative(d.deadline, reading);
    NoWayBack(Resume(d, reading, unsafeCleanup), after);
  }

  // ---------------------------------------------------------------- which status a run has come to

  /** What the clock says to a resume, if it can be read. */
  function Seen(c: Campaign, e: Event): Option<Clock.Observation> {
    if e.Resumed? && Clock.Observe(c.deadline, e.reading).Success?
    then Some(Clock.Observe(c.deadline, e.reading).value) else None
  }

  /** The resume meets an unsafe cleanup or an expired deadline. */
  predicate Fails(c: Campaign, e: Event) {
    Seen(c, e).Some? && (e.unsafeCleanup || Seen(c, e).value.remaining <= 0.0)
  }

  /** The resume meets an active reserve, a spent launch limit, convergence with its completion done or the iteration
      cap. */
  predicate CallsForEnd(c: Campaign, e: Event) {
    var s := c.snapshot;
    && Seen(c, e).Some?
    && (|| Seen(c, e).value.remaining <= c.deadline.reserve as real || s.launchesUsed >= s.maxLaunches
        || (s.convergence.Terminal() && !s.convergence.pending) || s.convergence.completed >= c.maxIterations)
  }

  /** The event brings the campaign to the status. */
  predicate Enters(t: Status, c: Campaign, e: Event) {
    var from := c.snapshot.status;
    match t
    case Created => false
    case Paused => false
    case Running => from in {Created, Running, Paused} && Seen(c, e).Some? && !Fails(c, e) && !CallsForEnd(c, e)
    case FinalizationRequired => from in {Created, Running, Paused} && (e.ResearchClosed? || (CallsForEnd(c, e) && !Fails(c, e)))
    case Finalizing => from == FinalizationRequired && e.FinalizationBegun?
    case Completed => from == Finalizing && e.BundlePublished?
    case Incomplete => from !in {Completed, Incomplete} && Fails(c, e)
  }

  /** The event takes a campaign away from the status. */
  predicate Leaves(t: Status, c: Campaign, e: Event) {
    match t
    case Created => e.ResearchClosed? || Seen(c, e).Some?
    case Paused => e.ResearchClosed? || Seen(c, e).Some?
    case Running => e.ResearchClosed? || Fails(c, e) || CallsForEnd(c, e)
    case FinalizationRequired => e.FinalizationBegun? || Fails(c, e)
    case Finalizing => e.BundlePublished? || Fails(c, e)
    case Completed => false
    case Incomplete => false
  }

  predicate EntersAt(t: Status, c: Campaign, events: seq<Event>, k: nat)
    requires k < |events|
  {
    Enters(t, Play(c, events[..k]), events[k])
  }

  predicate LeavesAt(t: Status, c: Campaign, events: seq<Event>, k: nat)
    requires k < |events|
  {
    Leaves(t, Play(c, events[..k]), events[k])
  }

  /** Event k brings the campaign to the status, and nothing has taken it away since. */
  predicate HoldsSince(t: Status, c: Campaign, events: seq<Event>, k: nat)
    requires k < |events|
  {
    EntersAt(t, c, events, k) && forall j :: k < j < |events| ==> !LeavesAt(t, c, events, j)
  }

  lemma StatusMove(t: Status, c: Campaign, e: Event)
    ensures Apply(c, e).snapshot.status == t <==> Enters(t, c, e) || (c.snapshot.status == t && !Leaves(t, c, e))
  {
    hide Clock.Observe;
    SeenKeepsReserve(c, e);
  }

  lemma SeenKeepsReserve(c: Campaign, e: Event)
    ensures Seen(c, e).Some? ==> Seen(c, e).value.state.reserve == c.deadline.reserve
  {
  }

  lemma StatusStep(t: Status, c: Campaign, events: seq<Event>)
    requires events != []
    ensures var n := |events| - 1;
            Play(c, events).snapshot.status == t
            <==> || EntersAt(t, c, events, n)
                 || (Play(c, events[..n]).snapshot.status == t && !LeavesAt(t, c, events, n))
  {
    hide Apply, Enters, Leaves;
    StatusMove(t, Play(c, events[..|events|-1]), events[|events|-1]);
  }

  lemma StatusFront(t: Status, c: Campaign, events: seq<Event>, k: nat)
    requires k < |events| - 1
    ensures EntersAt(t, c, events[..|events|-1], k) == EntersAt(t, c, events, k)
    ensures LeavesAt(t, c, events[..|events|-1], k) == LeavesAt(t, c, events, k)
  {
    assert events[..|events|-1][..k] == events[..k];
  }

  lemma HoldsSinceLast(t: Status, c: Campaign, events: seq<Event>)
    requires events != []
    ensures HoldsSince(t, c, events, |events| - 1) == EntersAt(t, c, events, |events| - 1)
  {
  }

  lemma HoldsSinceFront(t: Status, c: Campaign, events: seq<Event>, k: nat)
    requires k < |events| - 1
    ensures HoldsSince(t, c, events, k)
       <==> HoldsSince(t, c, events[..|events|-1], k) && !LeavesAt(t, c, events, |events| - 1)
  {
    hide EntersAt, LeavesAt;
    var front := events[..|events|-1];
    forall j | 0 <= j < |front|
      ensures EntersAt(t, c, front, j) == EntersAt(t, c, events, j) && LeavesAt(t, c, front, j) == LeavesAt(t, c, events, j)
    {
      StatusFront(t, c, events, j);
    }
  }

  /** Over every run and for each of the seven statuses: a campaign has it if and only if some event brought it there,
      or it had it at the start, and nothing has taken it away since. */
  lemma {:induction false} StatusExactly(t: Status, c: Campaign, events: seq<Event>)
    ensures Play(c, events).snapshot.status == t
       <==> || (c.snapshot.status == t && forall j :: 0 <= j < |events| ==> !LeavesAt(t, c, events, j))
            || exists k :: 0 <= k < |events| && HoldsSince(t, c, events, k)
  {
    hide EntersAt, LeavesAt, HoldsSince, Apply;
    if events != [] {
      var n := |events| - 1;
      var front := events[..n];
      StatusExactly(t, c, front);
      StatusStep(t, c, events);
      HoldsSinceLast(t, c, events);
      forall k | 0 <= k < n
        ensures LeavesAt(t, c, front, k) == LeavesAt(t, c, events, k)
        ensures HoldsSince(t, c, events, k) <==> HoldsSince(t, c, front, k) && !LeavesAt(t, c, events, n)
      {
        StatusFront(t, c, events, k);
        HoldsSinceFront(t, c, events, k);
      }
    }
  }

  /** The phase that the campaign's status shows. */
  predicate PhaseTells(s: Snapshot) {
    match s.status
    case Created => true
    case Paused => true
    case Running => s.phase == "researching"
    case FinalizationRequired => s.phase == "finalization_required"
    case Finalizing => s.phase == "finalizing"
    case Completed => s.phase == "completed"
    case Incomplete => s.phase == "reconciliation_failed" || s.phase == "deadline_exhausted"
  }

  /** Over every run the phase follows the status. */
  lemma {:induction false} PhaseFollowsStatus(c: Campaign, events: seq<Event>)
    requires PhaseTells(c.snapshot)
    ensures PhaseTells(Play(c, events).snapshot)
  {
    hide Clock.Observe;
    if events != [] {
      PhaseFollowsStatus(c, events[..|events|-1]);
    }
  }

  /** Event k is a resume with a readable clock that meets an open campaign with an unsafe cleanup or an expired
      deadline. */
  predicate FailsAt(c: Campaign, events: seq<Event>, k: nat)
    requires k < |events|
  {
    var before := Play(c, events[..k]);
    && events[k].Resumed? && !Terminal(before.snapshot.status)
    && Clock.Observe(before.deadline, events[k].reading).Success?
    && (events[k].unsafeCleanup || Clock.Observe(before.deadline, events[k].reading).value.remaining <= 0.0)
  }

  /** The phase that a failing resume leaves: an unsafe cleanup comes before an expired deadline. */
  function FailedPhase(e: Event): string
    requires e.Resumed?
  {
    if e.unsafeCleanup then "reconciliation_failed" else "deadline_exhausted"
  }

  lemma FailingStep(c: Campaign, events: seq<Event>)
    requires events != []
    ensures var n := |events| - 1;
            var before, after := Play(c, events[..n]).snapshot, Play(c, events).snapshot;
            && (after.status == Incomplete <==> before.status == Incomplete || FailsAt(c, events, n))
            && (FailsAt(c, events, n) ==> before.status != Incomplete && after.phase == FailedPhase(events[n]))
            && (before.status == Incomplete ==> after == before)
  {
    hide Clock.Observe;
  }

  lemma FailsAtFront(c: Campaign, events: seq<Event>, k: nat)
    requires k < |events| - 1
    ensures FailsAt(c, events[..|events|-1], k) == FailsAt(c, events, k)
  {
    assert events[..|events|-1][..k] == events[..k];
  }

  /** Over every run: a campaign ends INCOMPLETE if and only if one of its resumes failed it so; research, finalization
      and unreadable clocks never do. One resume does, and the phase says why. */
  lemma {:induction false} FailsExactly(c: Campaign, events: seq<Event>)
    requires c.snapshot.status != Incomplete
    ensures Play(c, events).snapshot.status == Incomplete <==> exists k :: 0 <= k < |events| && FailsAt(c, events, k)
    ensures forall k :: 0 <= k < |events| && FailsAt(c, events, k) ==>
              Play(c, events).snapshot.phase
              == if events[k].unsafeCleanup then "reconciliation_failed" else "deadline_exhausted"
    ensures forall j, k :: 0 <= j < k < |events| ==> !FailsAt(c, events, j) || !FailsAt(c, events, k)
  {
    hide FailsAt, Apply, Play;
    if events != [] {
      var n := |events| - 1;
      FailsExactly(c, events[..n]);
      FailingStep(c, events);
      forall k | 0 <= k < n
        ensures FailsAt(c, events[..n], k) == FailsAt(c, events, k)
      {
        FailsAtFront(c, events, k);
      }
    } else {
      assert Play(c, events) == c by {
        PlayNothing(c);
      }
    }
  }

  lemma PlayNothing(c: Campaign)
    ensures Play(c, []) == c
  {
  }
}
