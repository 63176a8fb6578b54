/** The campaign database as an object: each method is one transaction, which may be refused, land and be
    acknowledged, land without an acknowledgement, or be the last thing its process does. */
module CampaignStore {
  import opened Results
  import opened Budgets
  import opened CampaignDatabase
  import opened CampaignProtocol
  import opened CampaignInvariant

  datatype Ack = Landed | Rejected | Lost | Died

  lemma ExtendRun(ws: seq<World>, e: Event)
    requires IsRun(ws) && Enabled(ws[|ws|-1], e)
    ensures IsRun(ws + [Next(ws[|ws|-1], e)])
  {
    EnabledSteps(ws[|ws|-1], e);
    ExtendRunTo(ws, Next(ws[|ws|-1], e));
  }

  lemma EnabledSteps(w: World, e: Event)
    requires Enabled(w, e)
    ensures Step(w, Next(w, e))
  {
  }

  lemma ExtendRunTo(ws: seq<World>, next: World)
    requires IsRun(ws) && Step(ws[|ws|-1], next)
    ensures IsRun(ws + [next])
  {
    hide Step, Initial;
    var ws' := ws + [next];
    forall i | 0 <= i < |ws'|
      ensures Arises(ws', i)
    {
      if i < |ws| {
        assert Arises(ws, i);
        assert ws'[..|ws|] == ws;
      }
    }
  }

  /** What a transaction that performs one step may have done by the time it returns. */
  ghost predicate Wrote(before: World, after: World, e: Event, ack: Ack) {
    match ack
    case Landed => Enabled(before, e) && after == Next(before, e)
    case Lost => Enabled(before, e) && after == Next(before, e)
    case Rejected => after == before
    case Died =>
      || after == before.(controller := Down)
      || (Enabled(before, e) && after == Next(before, e).(controller := Down))
  }

  /** What such a transaction adds to the history: the step, if it landed, and the death of the process, if it died. */
  ghost predicate Logged(before: seq<World>, after: seq<World>, e: Event, ack: Ack)
    requires before != []
  {
    var w := before[|before|-1];
    match ack
    case Landed => Enabled(w, e) && after == before + [Next(w, e)]
    case Lost => Enabled(w, e) && after == before + [Next(w, e)]
    case Rejected => after == before
    case Died =>
      || after == before + [w.(controller := Down)]
      || (Enabled(w, e) && after == before + [Next(w, e), Next(w, e).(controller := Down)])
  }

  /** Whether the step is enabled and its effect on disk is exactly the given database. */
  ghost predicate Writes(w: World, e: Event, next: Database) {
    Enabled(w, e) && Next(w, e).db == next && Next(w, e).reports == w.reports
  }

  /** A launch may enter the state, and STARTED has its receipt. */
  predicate Transition(launch: Launch, to: LaunchState, receipt: Option<nat>) {
    LegalMove(launch.state, to) && (to == Started ==> receipt.Some? || launch.receipt.Some?)
  }

  /** A reservation key determines its launch. */
  lemma KeyNamesLaunch(w: World, key: Key)
    requires Inv(w) && !key.QualificationKey?
    ensures forall other | other in w.db.launches && w.db.launches[other].key == key ::
              other == CandidateLaunch(key.execution)
  {
    forall other | other in w.db.launches && w.db.launches[other].key == key
      ensures other == CandidateLaunch(key.execution)
    {
      assert LaunchOk(w.db, w.released, other);
    }
  }

  class CampaignStore {
    var db: Database
    var reports: seq<Report>
    ghost var released: set<string>
    ghost var controller: Controller
    ghost var trace: seq<World>
    /** How many transactions failed for a reason outside this program: refused, unacknowledged or cut off. */
    ghost var faults: nat

    ghost function Now(): World
      reads this
    {
      World(db, reports, released, controller)
    }

    /** Everything that happened so far is a run of the protocol that ends here. */
    ghost predicate Valid()
      reads this
    {
      trace != [] && IsRun(trace) && trace[|trace|-1] == Now()
    }

    constructor (maxLaunches: nat, transfers: seq<Transfer>, incumbent: string)
      requires QUALIFICATION_LAUNCHES <= maxLaunches <= MAX_TRAINING_LAUNCHES
      requires (forall t | t in transfers :: ValidTransfer(t)) && NeverOverdrawn(transfers)
      requires Limit(transfers, BaselineQualificationReplay) >= QUALIFICATION_LAUNCHES
      ensures Valid() && Initial(Now()) && controller == Idle
      ensures db == Created(maxLaunches, transfers, incumbent) && reports == [] && released == {}
    {
      db := Created(maxLaunches, transfers, incumbent);
      reports := [];
      released := {};
      controller := Idle;
      trace := [World(Created(maxLaunches, transfers, incumbent), [], {}, Idle)];
      faults := 0;
    }

    /** The invariant of the reachable states, for the state this store is in. */
    lemma Reachable()
      requires Valid()
      ensures Inv(Now())
    {
      RunsKeepInv(trace, |trace| - 1);
    }

    /** A step of the live process that writes nothing. */
    ghost method Move(e: Event)
      requires Valid() && Enabled(Now(), e) && Next(Now(), e).db == db && Next(Now(), e).reports == reports
      modifies this`released, this`controller, this`trace
      ensures Valid() && Now() == Next(old(Now()), e) && trace == old(trace) + [Now()]
    {
      ExtendRun(trace, e);
      var w := Next(Now(), e);
      released := w.released;
      controller := w.controller;
      trace := trace + [w];
    }

    /** The process dies. */
    ghost method Die()
      requires Valid()
      modifies this`controller, this`trace, this`faults
      ensures Valid() && Now() == old(Now()).(controller := Down) && trace == old(trace) + [Now()]
      ensures faults == old(faults) + 1
    {
      ExtendRun(trace, Crash);
      faults := faults + 1;
      controller := Down;
      trace := trace + [Now()];
    }

    /** Takes on a state that continues the run. */
    method Become(next: Database, ghost w: World)
      requires IsRun(trace + [w]) && w.db == next && w.reports == reports
      modifies this`db, this`released, this`controller, this`trace
      ensures Valid() && Now() == w && trace == old(trace) + [w]
    {
      db := next;
      released := w.released;
      controller := w.controller;
      trace := trace + [w];
    }

    method Apply(next: Database, ghost e: Event)
      requires Valid() && Writes(Now(), e, next)
      modifies this`db, this`released, this`controller, this`trace
      ensures Valid() && Now() == Next(old(Now()), e) && trace == old(trace) + [Now()]
    {
      ExtendRun(trace, e);
      Become(next, Next(Now(), e));
    }

    /** Another transaction fails for a reason outside this program. */
    ghost method Fail()
      modifies this`faults
      ensures faults == old(faults) + 1
    {
      faults := faults + 1;
    }

    /** One write transaction: without a fault it lands. */
    method Write(next: Database, ghost e: Event) returns (ack: Ack)
      requires Valid() && Writes(Now(), e, next)
      modifies this`db, this`released, this`controller, this`trace, this`faults
      ensures faults == old(faults) + if ack == Landed then 0 else 1
      ensures Valid() && old(trace) <= trace
      ensures Wrote(old(Now()), Now(), e, ack) && Logged(old(trace), trace, e, ack)
    {
      hide IsRun, Enabled, Next;
      if * {
        Fail();
        return Rejected;
      }
      if * {
        Die();
        return Died;
      }
      Apply(next, e);
      if * {
        Die();
        return Died;
      }
      if * {
        Fail();
        return Lost;
      }
      return Landed;
    }

    /** `reserve_launch`: a retry with the same key returns the launch it finds and charges nothing; a new key
        takes the next number, unless the campaign's launches are all charged. */
    method ReserveLaunch(id: string, key: Key, category: Category, original: Category, terms: Terms, ghost e: Event)
      returns (ack: Ack)
      requires Valid() && !key.QualificationKey? && key.execution == id
      requires CandidateLaunch(id) !in db.launches && !LimitReached(db) ==>
                 Writes(Now(), e, WithLaunch(db, CandidateLaunch(id), key, category, original, terms))
      modifies this`db, this`released, this`controller, this`trace, this`faults
      ensures Valid() && old(trace) <= trace
      ensures old(CandidateLaunch(id) in db.launches) ==>
                var l := old(db.launches)[CandidateLaunch(id)];
                && Now() == old(Now()) && faults == old(faults)
                && ack == if l.key == key && l.category == Of(category) && l.original == Of(original) && l.terms == terms
                          then Landed else Rejected
      ensures old(CandidateLaunch(id) !in db.launches) ==>
                Wrote(old(Now()), Now(), e, ack) && Logged(old(trace), trace, e, ack)
      ensures old(CandidateLaunch(id) !in db.launches && LimitReached(db)) ==> ack == Rejected && faults == old(faults)
      ensures old(CandidateLaunch(id) !in db.launches && !LimitReached(db)) ==>
                faults == old(faults) + if ack == Landed then 0 else 1
    {
      var lid := CandidateLaunch(id);
      Reachable();
      KeyNamesLaunch(Now(), key);
      if exists other :: other in db.launches && db.launches[other].key == key {
        var l := db.launches[lid];
        if l.category == Of(category) && l.original == Of(original) && l.terms == terms {
          return Landed;
        }
        return Rejected;
      }
      if lid in db.launches || LimitReached(db) {
        return Rejected;
      }
      ack := Write(WithLaunch(db, lid, key, category, original, terms), e);
    }

    /** `transition_launch`: the transition table, the receipt that STARTED needs, and one appended event. A retry
        into the state already held appends nothing; it is acknowledged if it repeats the receipt and the metadata
        of the latest event. */
    method TransitionLaunch(lid: LaunchId, to: LaunchState, receipt: Option<nat>, sameMetadata: bool, ghost e: Event)
      returns (ack: Ack)
      requires Valid() && lid in db.launches
      requires Transition(db.launches[lid], to, receipt) ==> Writes(Now(), e, WithState(db, lid, to, receipt))
      modifies this`db, this`released, this`controller, this`trace, this`faults
      ensures Valid() && old(trace) <= trace
      ensures old(db.launches[lid].state == to) ==>
                && trace == old(trace) && faults == old(faults)
                && ack == if sameMetadata && (receipt == None || receipt == old(db.launches[lid].receipt)) then Landed
                          else Rejected
      ensures old(db.launches[lid].state != to) ==>
                Wrote(old(Now()), Now(), e, ack) && Logged(old(trace), trace, e, ack)
      ensures old(db.launches[lid].state != to && !Transition(db.launches[lid], to, receipt)) ==>
                ack == Rejected && faults == old(faults)
      ensures old(db.launches[lid].state != to && Transition(db.launches[lid], to, receipt)) ==>
                faults == old(faults) + if ack == Landed then 0 else 1
    {
      var launch := db.launches[lid];
      if launch.state == to {
        return if (receipt.Some? && launch.receipt != receipt) || !sameMetadata then Rejected else Landed;
      }
      if !Transition(launch, to, receipt) {
        return Rejected;
      }
      ack := Write(WithState(db, lid, to, receipt), e);
    }

    /** `create_execution`: execution ids are primary keys. */
    method CreateExecution(spec: Spec, ghost e: Event) returns (ack: Ack)
      requires Valid() && (spec.id !in db.executions ==> Writes(Now(), e, WithExecution(db, spec)))
      modifies this`db, this`released, this`controller, this`trace, this`faults
      ensures Valid() && old(trace) <= trace
      ensures Wrote(old(Now()), Now(), e, ack) && Logged(old(trace), trace, e, ack)
      ensures old(spec.id in db.executions) ==> ack == Rejected && faults == old(faults)
      ensures old(spec.id !in db.executions) ==> faults == old(faults) + if ack == Landed then 0 else 1
    {
      if spec.id in db.executions {
        return Rejected;
      }
      ack := Write(WithExecution(db, spec), e);
    }

    /** `transition_execution` into RUNNING: only from STARTING, with the process receipt. */
    method ReceiptExecution(id: string, process: nat, ghost e: Event) returns (ack: Ack)
      requires Valid() && id in db.executions
      requires db.executions[id].status == Starting ==> Writes(Now(), e, WithReceipt(db, id, process))
      modifies this`db, this`released, this`controller, this`trace, this`faults
      ensures Valid() && old(trace) <= trace
      ensures old(db.executions[id].status == Starting) ==>
                && Wrote(old(Now()), Now(), e, ack) && Logged(old(trace), trace, e, ack)
                && faults == old(faults) + if ack == Landed then 0 else 1
      ensures old(db.executions[id].status != Starting) ==> trace == old(trace) && faults == old(faults)
      ensures old(db.executions[id].status != Starting) ==>
                ack == if old(db.executions[id].status == Running && db.executions[id].receipt == Some(process))
                       then Landed else Rejected
    {
      var x := db.executions[id];
      if x.status == Running && x.receipt == Some(process) {
        return Landed;
      }
      if x.status != Starting {
        return Rejected;
      }
      ack := Write(WithReceipt(db, id, process), e);
    }

    /** `transition_execution` into a terminal status: only from the active status the caller saw. A retry of a
        transition that has landed is acknowledged if it repeats the result and the finish time. */
    method EndExecution(id: string, from: Status, to: Status, result: Option<Verdict>, artifacts: Artifacts,
                        sameFinish: bool, ghost e: Event)
      returns (ack: Ack)
      requires Valid() && id in db.executions && Unfinished(from) && !Unfinished(to)
      requires db.executions[id].status == from ==> Writes(Now(), e, WithEnd(db, id, to, result, artifacts))
      modifies this`db, this`released, this`controller, this`trace, this`faults
      ensures Valid() && old(trace) <= trace
      ensures old(db.executions[id].status == from) ==>
                && Wrote(old(Now()), Now(), e, ack) && Logged(old(trace), trace, e, ack)
                && faults == old(faults) + if ack == Landed then 0 else 1
      ensures old(db.executions[id].status != from) ==> trace == old(trace) && faults == old(faults)
      ensures old(db.executions[id].status != from) ==>
                ack == if old(db.executions[id].status == to && db.executions[id].result == result) && sameFinish
                       then Landed else Rejected
    {
      var x := db.executions[id];
      if x.status == to {
        return if x.result == result && sameFinish then Landed else Rejected;
      }
      if x.status != from {
        return Rejected;
      }
      ack := Write(WithEnd(db, id, to, result, artifacts), e);
    }

    /** A new report file. Its name carries its sequence number, so it is never overwritten. */
    method WriteReport(report: Report) returns (ack: Ack)
      requires Valid() && Repaired(Now()) && report == DueReport(Now())
      modifies this`reports, this`controller, this`trace, this`faults
      ensures faults == old(faults) + if ack == Landed then 0 else 1
      ensures Valid() && old(trace) <= trace
      ensures Wrote(old(Now()), Now(), File, ack) && Logged(old(trace), trace, File, ack)
    {
      if * {
        Fail();
        return Rejected;
      }
      if * {
        Die();
        return Died;
      }
      ExtendRun(trace, File);
      reports := reports + [report];
      controller := Restarting;
      trace := trace + [Now()];
      if * {
        Die();
        return Died;
      }
      if * {
        Fail();
        return Lost;
      }
      return Landed;
    }
  }
}
