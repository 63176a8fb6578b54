/** The chained deadline checkpoints of src/kuairand_agent/campaign/controller.py. */
module DeadlineChain {
  import opened Results
  import opened Clock

  /** A digest names its content. */
  datatype Digest = Digest(sequence: nat, previous: Option<Digest>, state: State)

  datatype Checkpoint = Checkpoint(sequence: nat, previous: Option<Digest>, state: State)

  function DigestOf(c: Checkpoint): Digest { Digest(c.sequence, c.previous, c.state) }

  /** What loading demands of one checkpoint after another. */
  predicate Follows(previous: Checkpoint, c: Checkpoint) {
    && c.previous == Some(DigestOf(previous)) && Valid(c.state) && SameBudget(previous.state, c.state)
    && c.state.elapsed >= previous.state.elapsed && c.state.lastUtc >= previous.state.lastUtc
  }

  predicate ChainOk(files: seq<Checkpoint>) {
    && files != []
    && files[0].previous == None && Valid(files[0].state)
    && (forall i: nat | i < |files| :: files[i].sequence == i)
    && (forall i: nat | 0 < i < |files| :: Follows(files[i-1], files[i]))
  }

  /** `_load_deadline`: the loop over the sorted files. */
  method LoadDeadline(files: seq<Checkpoint>) returns (r: Result<Checkpoint, string>)
    ensures r.Success? <==> ChainOk(files)
    ensures r.Success? ==> r.value == files[|files|-1]
  {
    if files == [] {
      return Failure("deadline evidence has no checkpoint");
    }
    var previous: Option<Checkpoint> := None;
    for expected := 0 to |files|
      invariant expected == 0 ==> previous == None
      invariant expected > 0 ==> previous == Some(files[expected-1]) && files[0].previous == None && Valid(files[0].state)
      invariant forall i: nat | i < expected :: files[i].sequence == i
      invariant forall i: nat | 0 < i < expected :: Follows(files[i-1], files[i])
    {
      var c := files[expected];
      if c.sequence != expected {
        return Failure("deadline checkpoint sequence mismatch");
      }
      if c.previous != (if previous == None then None else Some(DigestOf(previous.value))) {
        return Failure("deadline checkpoint chain is broken");
      }
      if !Valid(c.state) {
        return Failure("deadline checkpoint state is invalid");
      }
      if previous.Some? {
        if !SameBudget(previous.value.state, c.state) {
          return Failure("deadline checkpoint reset an immutable field");
        }
        if c.state.elapsed < previous.value.state.elapsed || c.state.lastUtc < previous.value.state.lastUtc {
          return Failure("deadline time moved backwards");
        }
      }
      previous := Some(c);
    }
    return Success(files[|files|-1]);
  }

  /** The checkpoint that `_append_deadline` writes. */
  function Appended(previous: Checkpoint, o: Observation): Checkpoint {
    Checkpoint(previous.sequence + 1, Some(DigestOf(previous)), o.state)
  }

  /** Appending an observation of the last checkpoint keeps the chain loadable. */
  lemma AppendKeepsChain(files: seq<Checkpoint>, now: Reading)
    requires ChainOk(files) && Observe(files[|files|-1].state, now).Success?
    ensures ChainOk(files + [Appended(files[|files|-1], Observe(files[|files|-1].state, now).value)])
  {
    var last := files[|files|-1];
    assert last.sequence == |files| - 1;
    if |files| > 1 {
      assert Follows(files[|files|-2], last);
    }
    ObservationIsConservative(last.state, now);
  }

  /** What a resume's turn to the clock comes to. `Broken`: writing the checkpoint raised, or the process died in it. */
  datatype Turn = Observed(observation: Observation) | Refused(reason: string) | Broken

  /** The directory of one campaign's checkpoints. A checkpoint gets its final name before its content, so the last
      file may be `torn`. */
  class DeadlineDirectory {
    var files: seq<Checkpoint>
    var torn: bool
    /** How many writes broke off. */
    ghost var faults: nat

    ghost predicate Loadable()
      reads this
    {
      !torn && ChainOk(files)
    }

    /** The state that a load finds. */
    ghost function Loaded(): State
      requires Loadable()
      reads this
    {
      files[|files|-1].state
    }

    constructor (initial: State)
      requires Valid(initial)
      ensures Loadable() && files == [Checkpoint(0, None, initial)]
    {
      files := [Checkpoint(0, None, initial)];
      torn := false;
      faults := 0;
    }

    /** `_load_deadline` on the directory as it is. */
    method Load() returns (r: Result<Checkpoint, string>)
      ensures r.Success? <==> Loadable()
      ensures r.Success? ==> r.value == files[|files|-1]
    {
      if torn {
        return Failure("deadline checkpoint is not canonical");
      }
      r := LoadDeadline(files);
    }

    /** `_append_deadline`: the name, then the content. */
    method Append(c: Checkpoint) returns (done: bool)
      requires !torn
      modifies this
      ensures done ==> files == old(files) + [c] && !torn
      ensures !done ==> files == old(files) || (files == old(files) + [c] && !torn)
      ensures faults == old(faults) + if done then 0 else 1
    {
      if * {
        faults := faults + 1;
        return false;
      }
      torn := true;
      if * {
        faults := faults + 1;
        return false;
      }
      files, torn := files + [c], false;
      if * {
        faults := faults + 1;
        return false;
      }
      done := true;
    }

    /** The clock part of `resume`: load, observe, append. A directory that does not load is refused as it is, and
        so is a reading on which the clock fails closed; a turn that breaks off leaves the old checkpoints, the new
        one as well, or a torn file, which every later turn refuses. */
    method Advance(now: Reading) returns (turn: Turn)
      modifies this
      ensures old(files) <= files
      ensures old(!Loadable()) ==> turn.Refused?
      ensures turn.Refused? ==> files == old(files) && torn == old(torn)
      ensures faults == old(faults) + if turn == Broken then 1 else 0
      ensures old(Loadable()) ==>
                var last := old(files)[|old(files)|-1];
                match Observe(last.state, now) {
                  case Failure(reason) => turn == Refused(reason)
                  case Success(o) =>
                    || (turn == Observed(o) && Loadable() && files == old(files) + [Appended(last, o)])
                    || (turn == Broken && torn && files == old(files))
                    || (turn == Broken && Loadable() && files == old(files))
                    || (turn == Broken && Loadable() && files == old(files) + [Appended(last, o)])
                }
    {
      var loaded := Load();
      if loaded.Failure? {
        return Refused(loaded.error);
      }
      var observed := Observe(loaded.value.state, now);
      if observed.Failure? {
        return Refused(observed.error);
      }
      AppendKeepsChain(files, now);
      var done := Append(Appended(loaded.value, observed.value));
      turn := if done then Observed(observed.value) else Broken;
    }

    /** Any number of resumes up to the first that breaks off: as long as none does, the loaded state is the one
        that the readings lead to; afterwards the directory loads as if the resume that broke off had happened, or
        as if it had not, or is refused for good. */
    method Replay(readings: seq<Reading>) returns (n: nat)
      requires Loadable()
      modifies this
      ensures n <= |readings| && old(files) <= files
      ensures n == |readings| ==> Loadable()
      ensures Loadable() ==>
                || Loaded() == Play(old(Loaded()), readings[..n])
                || (n < |readings| && Loaded() == Play(old(Loaded()), readings[..n+1]))
      ensures n == |readings| ==> Loaded() == Play(old(Loaded()), readings)
      ensures faults == old(faults) ==> n == |readings|
    {
      hide Observe, Valid, Follows;
      n := 0;
      while n < |readings|
        invariant n <= |readings| && Loadable() && old(files) <= files
        invariant Loaded() == Play(old(Loaded()), readings[..n])
        invariant faults == old(faults)
      {
        assert readings[..n+1][..n] == readings[..n];
        var turn := Advance(readings[n]);
        if turn == Broken {
          return;
        }
        n := n + 1;
      }
      assert readings[..|readings|] == readings;
    }
  }

  /** Along any loadable chain the budget is fixed and elapsed time only grows. */
  lemma {:induction false} ChainIsMonotone(files: seq<Checkpoint>, i: nat, j: nat)
    requires ChainOk(files) && i <= j < |files|
    ensures var s, t := files[i].state, files[j].state;
            && t.wall == s.wall && t.reserve == s.reserve && t.startedUtc == s.startedUtc
            && t.utcDeadline == s.utcDeadline && t.boot == s.boot && t.monoStarted == s.monoStarted
            && t.monoDeadline == s.monoDeadline
    ensures files[i].state.elapsed <= files[j].state.elapsed
    ensures files[i].state.lastUtc <= files[j].state.lastUtc && Valid(files[j].state)
    ensures files[j].sequence == j && (files[j].previous == None <==> j == 0)
  {
    hide Valid;
    assert files[j].sequence == j;
    if j > 0 {
      assert Follows(files[j-1], files[j]);
    }
    if i < j {
      ChainIsMonotone(files, i, j - 1);
    }
  }

  /** Tampering is seen: two loadable chains with the same last digest are the same chain. */
  lemma {:induction false} LastDigestFixesChain(a: seq<Checkpoint>, b: seq<Checkpoint>)
    requires ChainOk(a) && ChainOk(b) && DigestOf(a[|a|-1]) == DigestOf(b[|b|-1])
    ensures a == b
    decreases |a|
  {
    assert |a| - 1 == a[|a|-1].sequence && |b| - 1 == b[|b|-1].sequence;
    if |a| > 1 {
      var n := |a| - 1;
      assert Follows(a[n-1], a[n]) && Follows(b[n-1], b[n]);
      LastDigestFixesChain(a[..n], b[..n]);
      assert a == a[..n] + [a[n]] && b == b[..n] + [b[n]];
    }
  }
}
