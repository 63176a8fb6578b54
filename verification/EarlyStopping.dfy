/** Early stopping: `fit` of src/kuairand_agent/baselines/starter_fm.py and `run_fm` of
    kuairand-starter-kit/baseline.py. A state is whatever the model holds after an epoch; training from the same
    seed gives both loops the same states. */
module EarlyStopping {
  import opened Results

  const MAX_EPOCHS: nat := 40
  const PATIENCE: nat := 4
  const THRESHOLD: real := 0.00001

  /** Where the search stands after some epochs. */
  datatype Search = Search(best: real, bestEpoch: nat, bad: nat)

  const START: Search := Search(-1.0, 0, 0)

  function Judge(s: Search, epoch: nat, score: real): Search {
    if score > s.best + THRESHOLD then Search(score, epoch, 0) else s.(bad := s.bad + 1)
  }

  /** The search after the first n epochs, ignoring patience. */
  function After(scores: seq<real>, n: nat): Search
    requires n <= |scores|
  {
    if n == 0 then START else Judge(After(scores, n - 1), n, scores[n-1])
  }

  predicate OutOfPatience(scores: seq<real>, n: nat)
    requires n <= |scores|
  {
    After(scores, n).bad >= PATIENCE
  }

  /** The epoch at which training stops. */
  predicate StopsAt(scores: seq<real>, n: nat) {
    && 1 <= n <= |scores|
    && (forall m | 1 <= m < n :: !OutOfPatience(scores, m))
    && (n == |scores| || OutOfPatience(scores, n))
  }

  /** What the loop calls: a state's predictions on the validation rows, the protected scorer, and its primary score. */
  datatype Scorer<!S, !P, !M> = Scorer(predict: S -> P, evaluate: P -> M, primary: M -> real)

  function ScoreOf<S, P, M>(sc: Scorer<S, P, M>, state: S): real { sc.primary(sc.evaluate(sc.predict(state))) }

  function Scores<S, P, M>(sc: Scorer<S, P, M>, states: seq<S>): (scores: seq<real>)
    ensures |scores| == |states|
    ensures forall e | 0 <= e < |states| :: scores[e] == ScoreOf(sc, states[e])
  {
    seq(|states|, e requires 0 <= e < |states| => ScoreOf(sc, states[e]))
  }

  datatype EpochTrace<P, M> = EpochTrace(epoch: nat, batchCount: nat, optimizerSteps: nat, metrics: M, predictions: P,
                                         improved: bool, bad: nat)

  datatype Run<S, P, M> = Run(kept: S, bestEpoch: nat, epochs: nat, optimizerSteps: nat, predictions: P, metrics: M,
                              trace: seq<EpochTrace<P, M>>)

  /** Forty epochs, none with a score below zero. */
  predicate Schedule(scores: seq<real>) { |scores| == MAX_EPOCHS && forall e | 0 <= e < MAX_EPOCHS :: scores[e] >= 0.0 }

  /** One line of the trace: the epoch's own predictions and metrics, and how the search judged them. */
  predicate EpochOk<S, P(==), M(==)>(t: EpochTrace<P, M>, sc: Scorer<S, P, M>, states: seq<S>, e: nat, batches: nat)
    requires e < |states|
  {
    var s := After(Scores(sc, states), e + 1);
    && t.epoch == e + 1 && t.batchCount == batches && t.optimizerSteps == (e + 1) * batches
    && t.predictions == sc.predict(states[e]) && t.metrics == sc.evaluate(t.predictions)
    && t.improved == (s.bestEpoch == e + 1) && t.bad == s.bad
  }

  predicate TraceOk<S, P(==), M(==)>(trace: seq<EpochTrace<P, M>>, sc: Scorer<S, P, M>, states: seq<S>, batches: nat) {
    |trace| <= |states| && forall e | 0 <= e < |trace| :: EpochOk(trace[e], sc, states, e, batches)
  }

  // ---------------------------------------------------------------- the evidence checks

  /** The consistency checks that constructing a `StarterFMRun` makes. */
  predicate RunChecks<S, P(==), M(==)>(r: Run<S, P, M>) {
    && r.trace != [] && r.epochs == |r.trace|
    && (forall e | 0 <= e < |r.trace| :: r.trace[e].epoch == e + 1)
    && r.trace[|r.trace|-1].optimizerSteps == r.optimizerSteps
    && (forall e | 0 <= e < |r.trace| ::
          r.trace[e].optimizerSteps - (if e == 0 then 0 else r.trace[e-1].optimizerSteps) == r.trace[e].batchCount)
    && 1 <= r.bestEpoch <= |r.trace|
    && r.trace[r.bestEpoch - 1].predictions == r.predictions && r.trace[r.bestEpoch - 1].metrics == r.metrics
  }

  lemma StepsDiffer(e: nat, batches: nat)
    ensures (e + 1) * batches - e * batches == batches
  {
  }

  /** What `fit` returns: the state of the best epoch up to the one stopping epoch, its predictions and metrics
      computed again, and the trace of every epoch run. */
  predicate Faithful<S(==), P(==), M(==)>(r: Run<S, P, M>, sc: Scorer<S, P, M>, states: seq<S>, batches: nat) {
    var scores := Scores(sc, states);
    && StopsAt(scores, r.epochs)
    && r.bestEpoch == After(scores, r.epochs).bestEpoch && 1 <= r.bestEpoch <= r.epochs
    && r.kept == states[r.bestEpoch - 1]
    && r.predictions == sc.predict(r.kept) && r.metrics == sc.evaluate(r.predictions)
    && |r.trace| == r.epochs && TraceOk(r.trace, sc, states, batches)
    && r.optimizerSteps == r.epochs * batches
  }

  /** Every such run passes all the checks. */
  lemma FitPassesItsChecks<S, P, M>(r: Run<S, P, M>, sc: Scorer<S, P, M>, states: seq<S>, batches: nat)
    requires Faithful(r, sc, states, batches)
    ensures RunChecks(r)
  {
    hide After, Scores, StopsAt;
    forall e: nat | e < |r.trace|
      ensures r.trace[e].epoch == e + 1
      ensures r.trace[e].optimizerSteps - (if e == 0 then 0 else r.trace[e-1].optimizerSteps) == r.trace[e].batchCount
    {
      assert EpochOk(r.trace[e], sc, states, e, batches);
      assert e > 0 ==> EpochOk(r.trace[e-1], sc, states, e - 1, batches);
      StepsDiffer(e, batches);
    }
    assert EpochOk(r.trace[r.epochs - 1], sc, states, r.epochs - 1, batches);
    assert EpochOk(r.trace[r.bestEpoch - 1], sc, states, r.bestEpoch - 1, batches);
  }

  // ---------------------------------------------------------------- the two loops

  lemma BestScore(scores: seq<real>, n: nat)
    requires n <= |scores|
    ensures var s := After(scores, n);
            && s.bestEpoch <= n && (s.bestEpoch > 0 ==> s.best == scores[s.bestEpoch - 1])
            && (s.bestEpoch == 0 ==> s.best == -1.0)
  {
  }

  /** One pass of the loop. */
  lemma EpochStep<S, P, M>(sc: Scorer<S, P, M>, states: seq<S>, e: nat)
    requires e < |states| && Schedule(Scores(sc, states))
    ensures var scores := Scores(sc, states);
            var s, score := After(scores, e), ScoreOf(sc, states[e]);
            && After(scores, e + 1)
               == (if score > s.best + THRESHOLD then Search(score, e + 1, 0) else s.(bad := s.bad + 1))
            && After(scores, e + 1).bestEpoch >= 1
            && (After(scores, e + 1).bestEpoch == e + 1 <==> score > s.best + THRESHOLD)
  {
    BestScore(Scores(sc, states), e);
    assert Scores(sc, states)[e] >= 0.0;
  }

  /** The trusted loop: patience is tested after every epoch. At the end the best state is restored, its predictions
      and metrics are computed again, and the evidence is checked; none of these checks fails. */
  method Fit<S(==), P(==), M(==)>(sc: Scorer<S, P, M>, states: seq<S>, batches: nat)
    returns (r: Result<Run<S, P, M>, string>)
    requires Schedule(Scores(sc, states))
    ensures r.Success? && Faithful(r.value, sc, states, batches)
  {
    hide Schedule, StopsAt;
    var loop := RunEpochs(sc, states, batches);
    if loop.best == None {
      return Failure("organizer FM did not produce a restorable best state");
    }
    var kept := loop.best.value;
    var predictions := sc.predict(kept);
    if predictions != loop.trace[loop.bestEpoch - 1].predictions {
      return Failure("best-state restore did not reproduce exact validation predictions");
    }
    var metrics := sc.evaluate(predictions);
    if metrics != loop.trace[loop.bestEpoch - 1].metrics {
      return Failure("protected scorer changed for identical restored predictions");
    }
    var run := Run(kept, loop.bestEpoch, |loop.trace|, loop.steps, predictions, metrics, loop.trace);
    FitPassesItsChecks(run, sc, states, batches);
    if !RunChecks(run) {
      return Failure("inconsistent starter FM run");
    }
    return Success(run);
  }

  /** Where the loop ends. */
  datatype Loop<S, P, M> = Loop(best: Option<S>, bestEpoch: nat, steps: nat, trace: seq<EpochTrace<P, M>>)

  /** The loop ends at the stopping epoch, with the best state so far and a full trace. */
  predicate LoopOk<S(==), P(==), M(==)>(l: Loop<S, P, M>, sc: Scorer<S, P, M>, states: seq<S>, batches: nat) {
    var n := |l.trace|;
    && n <= |states| && l.bestEpoch == After(Scores(sc, states), n).bestEpoch <= n
    && (n > 0 ==> l.bestEpoch > 0 && l.best == Some(states[l.bestEpoch - 1]))
    && TraceOk(l.trace, sc, states, batches) && l.steps == n * batches
  }

  lemma OneMoreEpoch(e: nat, batches: nat)
    ensures e * batches + batches == (e + 1) * batches
  {
  }

  method RunEpochs<S(==), P(==), M(==)>(sc: Scorer<S, P, M>, states: seq<S>, batches: nat) returns (l: Loop<S, P, M>)
    requires Schedule(Scores(sc, states))
    ensures LoopOk(l, sc, states, batches) && l.trace != [] && StopsAt(Scores(sc, states), |l.trace|)
  {
    ghost var scores := Scores(sc, states);
    var best, bad := -1.0, 0;
    l := Loop(None, 0, 0, []);
    while |l.trace| < MAX_EPOCHS
      invariant LoopOk(l, sc, states, batches)
      invariant After(scores, |l.trace|) == Search(best, l.bestEpoch, bad)
      invariant forall m | 1 <= m <= |l.trace| :: !OutOfPatience(scores, m)
      decreases MAX_EPOCHS - |l.trace|
    {
      hide Scores, After, Schedule;
      var e := |l.trace|;
      EpochStep(sc, states, e);
      var predictions := sc.predict(states[e]);
      var metrics := sc.evaluate(predictions);
      var score := sc.primary(metrics);
      var improved := score > best + THRESHOLD;
      if improved {
        best, bad := score, 0;
        l := l.(best := Some(states[e]), bestEpoch := e + 1);
      } else {
        bad := bad + 1;
      }
      OneMoreEpoch(e, batches);
      var steps := l.steps + batches;
      var line := EpochTrace(e + 1, batches, steps, metrics, predictions, improved, bad);
      assert EpochOk(line, sc, states, e, batches);
      l := l.(steps := steps, trace := l.trace + [line]);
      if bad >= PATIENCE {
        break;
      }
    }
  }

  /** The organizer's loop: patience is tested only when an epoch did not improve. */
  method RunFm<S>(states: seq<S>, scores: seq<real>) returns (kept: S, epochs: nat)
    requires |states| == |scores| && Schedule(scores)
    ensures StopsAt(scores, epochs) && 1 <= After(scores, epochs).bestEpoch <= epochs
    ensures kept == states[After(scores, epochs).bestEpoch - 1]
  {
    var best, bad := -1.0, 0;
    var bestState: Option<S> := None;
    ghost var bestEpoch := 0;
    epochs := 0;
    while epochs < MAX_EPOCHS
      invariant epochs <= MAX_EPOCHS && After(scores, epochs) == Search(best, bestEpoch, bad)
      invariant forall m | 1 <= m <= epochs :: !OutOfPatience(scores, m)
      invariant bestEpoch <= epochs && (epochs > 0 ==> bestEpoch > 0)
      invariant bestEpoch > 0 ==> bestState == Some(states[bestEpoch - 1])
    {
      epochs := epochs + 1;
      if scores[epochs - 1] > best + THRESHOLD {
        best, bad := scores[epochs - 1], 0;
        bestEpoch := epochs;
        bestState := Some(states[epochs - 1]);
      } else {
        bad := bad + 1;
        if bad >= PATIENCE {
          break;
        }
      }
    }
    kept := bestState.value;
  }

  /** There is only one stopping epoch. */
  lemma StopIsUnique(scores: seq<real>, m: nat, n: nat)
    requires StopsAt(scores, m) && StopsAt(scores, n)
    ensures m == n
  {
  }

  /** The two loops on the same states: they stop together and keep the same one. */
  method LoopsAgree<S(==), P(==), M(==)>(sc: Scorer<S, P, M>, states: seq<S>, batches: nat)
    returns (trusted: Result<Run<S, P, M>, string>, kept: S, epochs: nat)
    requires Schedule(Scores(sc, states))
    ensures trusted.Success? && Faithful(trusted.value, sc, states, batches)
    ensures trusted.value.kept == kept && trusted.value.epochs == epochs
  {
    trusted := Fit(sc, states, batches);
    kept, epochs := RunFm(states, Scores(sc, states));
    StopIsUnique(Scores(sc, states), trusted.value.epochs, epochs);
  }

  // ---------------------------------------------------------------- what the kept state is

  /** The best score so far is within the threshold of every score seen. */
  lemma {:induction false} BestIsNearMaximal(scores: seq<real>, n: nat, e: nat)
    requires 1 <= e <= n <= |scores|
    ensures scores[e-1] <= After(scores, n).best + THRESHOLD
  {
    if e < n {
      BestIsNearMaximal(scores, n - 1, e);
    }
  }

  /** Bad epochs count the epochs since the best one. */
  lemma {:induction false} BadCountsSinceBest(scores: seq<real>, n: nat)
    requires n <= |scores|
    ensures var s := After(scores, n); s.bestEpoch + s.bad == n
  {
    if n > 0 {
      BadCountsSinceBest(scores, n - 1);
    }
  }

  /** Training ends at the cap or exactly four epochs after the best one. */
  lemma StopsFourAfterBest(scores: seq<real>, n: nat)
    requires StopsAt(scores, n) && |scores| == MAX_EPOCHS
    ensures var b := After(scores, n).bestEpoch;
            n == if b + PATIENCE <= MAX_EPOCHS then b + PATIENCE else MAX_EPOCHS
  {
    BadCountsSinceBest(scores, n);
    if n > 1 {
      BadCountsSinceBest(scores, n - 1);
      assert !OutOfPatience(scores, n - 1);
    }
  }

  /** No run stops before its fifth epoch. */
  lemma AtLeastFiveEpochs(scores: seq<real>, n: nat)
    requires StopsAt(scores, n) && |scores| == MAX_EPOCHS && scores[0] >= 0.0
    ensures n >= 1 + PATIENCE
  {
    BestEpochPositive(scores, n);
    StopsFourAfterBest(scores, n);
  }

  lemma {:induction false} BestEpochPositive(scores: seq<real>, n: nat)
    requires 1 <= n <= |scores| && scores[0] >= 0.0
    ensures After(scores, n).bestEpoch >= 1
  {
    if n > 1 {
      BestEpochPositive(scores, n - 1);
    } else {
      assert After(scores, 0) == START;
    }
  }

  // ---------------------------------------------------------------- the whole run on its own scores

  /** The score of an epoch's state. */
  lemma ScoreAt<S, P, M>(sc: Scorer<S, P, M>, states: seq<S>, e: nat)
    requires e < |states|
    ensures Scores(sc, states)[e] == sc.primary(sc.evaluate(sc.predict(states[e])))
  {
  }

  /** Epoch e + 1 as the search sees it: better than the last best epoch, which is as many epochs back as there are bad
      ones, or one bad epoch more. */
  lemma SearchStep(scores: seq<real>, e: nat)
    requires e < |scores| && forall i | 0 <= i < |scores| :: scores[i] >= 0.0
    ensures var s, t := After(scores, e), After(scores, e + 1);
            && t.bestEpoch + t.bad == e + 1 && t.bestEpoch >= 1
            && (e == 0 ==> t.bad == 0)
            && (e > 0 ==> && 0 <= e - 1 - s.bad && (t.bestEpoch == e + 1 <==> t.bad == 0)
                          && (t.bad == 0 <==> scores[e] > scores[e - 1 - s.bad] + 0.00001)
                          && (t.bad == 0 || t.bad == s.bad + 1))
  {
    BadCountsSinceBest(scores, e);
    BadCountsSinceBest(scores, e + 1);
    BestScore(scores, e);
    if e > 0 {
      BestEpochPositive(scores, e);
    }
    BestEpochPositive(scores, e + 1);
  }

  /** Every run of `fit` and every epoch e + 1 of it, determined by the scores of the run's own trace: an epoch improves
      if and only if it is the first or its score is more than 0.00001 above that of the last one that did; the bad
      epochs since are counted; the run is over at the fourth or after forty epochs, and keeps the last state that
      improved, with its predictions and metrics. */
  lemma FitExactly<S, P, M>(r: Run<S, P, M>, sc: Scorer<S, P, M>, states: seq<S>, batches: nat, e: nat)
    requires Schedule(Scores(sc, states)) && Faithful(r, sc, states, batches) && e < r.epochs
    ensures |states| == 40 && 1 <= r.epochs == |r.trace| <= 40 && r.optimizerSteps == r.epochs * batches
    ensures var t := r.trace[e];
            && t.epoch == e + 1 && t.batchCount == batches && t.optimizerSteps == (e + 1) * batches
            && t.predictions == sc.predict(states[e]) && t.metrics == sc.evaluate(sc.predict(states[e]))
            && (t.improved <==> t.bad == 0) && (e == 0 ==> t.improved)
    ensures e > 0 ==>
              var t, before := r.trace[e], r.trace[e-1];
              && before.bad <= e - 1
              && (t.improved
                  <==> sc.primary(t.metrics) > sc.primary(r.trace[e - 1 - before.bad].metrics) + 0.00001)
              && (!t.improved ==> t.bad == before.bad + 1)
    ensures e < r.epochs - 1 ==> r.trace[e].bad < 4
    ensures e == r.epochs - 1 ==> (e == 39 || r.trace[e].bad == 4) && r.bestEpoch == r.epochs - r.trace[e].bad
    ensures r.bestEpoch >= 1 && r.kept == states[r.bestEpoch - 1]
    ensures r.predictions == sc.predict(r.kept) && r.metrics == sc.evaluate(r.predictions)
  {
    hide After, Scores, StopsAt, Schedule, EpochOk;
    var scores := Scores(sc, states);
    LineExactly(r.trace, sc, states, batches, e);
    FortyEpochs(scores);
    StopExactly(scores, r.epochs, e);
    if e > 0 {
      LineExactly(r.trace, sc, states, batches, e - 1);
      SearchStep(scores, e);
      LineExactly(r.trace, sc, states, batches, e - 1 - r.trace[e-1].bad);
    }
  }

  lemma FortyEpochs(scores: seq<real>)
    requires Schedule(scores)
    ensures |scores| == 40 && forall i | 0 <= i < |scores| :: scores[i] >= 0.0
  {
  }

  lemma StopExactly(scores: seq<real>, n: nat, e: nat)
    requires StopsAt(scores, n) && Schedule(scores) && e < n
    ensures 1 <= n <= 40
    ensures e < n - 1 ==> After(scores, e + 1).bad < 4
    ensures e == n - 1 ==> (e == 39 || After(scores, n).bad == 4) && After(scores, n).bestEpoch == n - After(scores, n).bad
  {
    assert e < n - 1 ==> !OutOfPatience(scores, e + 1);
    BadCountsSinceBest(scores, n);
    SearchStep(scores, n - 1);
    assert n > 1 ==> !OutOfPatience(scores, n - 1);
  }

  /** One line of the trace against the search. */
  lemma LineExactly<S, P, M>(trace: seq<EpochTrace<P, M>>, sc: Scorer<S, P, M>, states: seq<S>, batches: nat, e: nat)
    requires Schedule(Scores(sc, states)) && TraceOk(trace, sc, states, batches) && e < |trace|
    ensures var t := trace[e];
            && t.epoch == e + 1 && t.batchCount == batches && t.optimizerSteps == (e + 1) * batches
            && t.predictions == sc.predict(states[e]) && t.metrics == sc.evaluate(sc.predict(states[e]))
            && (t.improved <==> t.bad == 0) && t.bad == After(Scores(sc, states), e + 1).bad
            && (e == 0 ==> t.improved) && Scores(sc, states)[e] == sc.primary(t.metrics)
  {
    hide After, Scores, Schedule;
    FortyEpochs(Scores(sc, states));
    assert EpochOk(trace[e], sc, states, e, batches);
    ScoreAt(sc, states, e);
    SearchStep(Scores(sc, states), e);
  }
}
