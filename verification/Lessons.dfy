/** What a profile says about the runs it learned. */
module Lessons {
  // Every count is the number of reports of its class, mean and deviation are those of the completed durations, for each
  // step and for the whole graph, in memory, in a delta and in the stored row.

  import opened Wrappers
  import opened Timing

  // ---- the samples of a step ---------------------------------------------------------------------------

  /** The reports on one step among those of a run. */
  function StepSamples(observations: seq<Observation>, step: nat): seq<Sample> {
    if observations == [] then []
    else
      var last := observations[|observations| - 1];
      StepSamples(observations[..|observations| - 1], step) + if last.step == step then [Sample(last.state, last.duration)] else []
  }

  function RunSamples(runs: seq<Run>, step: nat): seq<Sample> {
    if runs == [] then [] else RunSamples(runs[..|runs| - 1], step) + StepSamples(runs[|runs| - 1].observations, step)
  }

  /** The wall times of the eligible runs. */
  function GraphSamples(runs: seq<Run>): seq<Sample> {
    if runs == [] then []
    else
      var seconds := runs[|runs| - 1].graphSeconds;
      GraphSamples(runs[..|runs| - 1]) + if seconds.Some? then [Sample(Completed, seconds.value)] else []
  }

  function CountOf(samples: seq<Sample>, states: set<StepState>): nat {
    if samples == [] then 0
    else CountOf(samples[..|samples| - 1], states) + if samples[|samples| - 1].state in states then 1 else 0
  }

  ghost function SquareSum(samples: seq<Sample>): real {
    if samples == [] then 0.0
    else
      var last := samples[|samples| - 1];
      SquareSum(samples[..|samples| - 1]) + if last.state == Completed then last.duration * last.duration else 0.0
  }

  // ---- one accumulator ---------------------------------------------------------------------------------

  /** `after` is `before` and the samples: every count, the sum and the sum of squares have grown by theirs. */
  ghost predicate Adds(before: Statistics, after: Statistics, samples: seq<Sample>) {
    && after.observations == before.observations + |samples|
    && after.completions == before.completions + CountOf(samples, {Completed})
    && after.skips == before.skips + CountOf(samples, {Skipped})
    && after.failures == before.failures + CountOf(samples, {Failed, Cancelled})
    && Sum(after) == Sum(before) + CompletedSum(samples) && Squares(after) == Squares(before) + SquareSum(samples)
    && Valid(after)
  }

  lemma AddsNothing(s: Statistics)
    requires Valid(s)
    ensures Adds(s, s, [])
  {
  }

  lemma ObservedAdds(s: Statistics, state: StepState, x: real)
    requires Valid(s) && x >= 0.0
    ensures Adds(s, Observed(s, state, x), [Sample(state, x)])
  {
    var one := [Sample(state, x)];
    assert one[..0] == [];
    assert CountOf([], {Completed}) == CountOf([], {Skipped}) == CountOf([], {Failed, Cancelled}) == 0;
    if state == Completed {
      ObserveMoments(s, x);
    } else {
      ObserveOther(s, state, x);
    }
  }

  lemma {:induction false} CountConcat(a: seq<Sample>, b: seq<Sample>, states: set<StepState>)
    ensures CountOf(a + b, states) == CountOf(a, states) + CountOf(b, states)
  {
    if b == [] {
      assert a + b == a;
    } else {
      CountConcat(a, b[..|b| - 1], states);
      assert (a + b)[..|a + b| - 1] == a + b[..|b| - 1];
    }
  }

  lemma {:induction false} SumsConcat(a: seq<Sample>, b: seq<Sample>)
    ensures CompletedSum(a + b) == CompletedSum(a) + CompletedSum(b) && SquareSum(a + b) == SquareSum(a) + SquareSum(b)
  {
    if b == [] {
      assert a + b == a;
    } else {
      SumsConcat(a, b[..|b| - 1]);
      assert (a + b)[..|a + b| - 1] == a + b[..|b| - 1];
    }
  }

  lemma AddsMore(a: Statistics, b: Statistics, c: Statistics, first: seq<Sample>, second: seq<Sample>)
    requires Adds(a, b, first) && Adds(b, c, second)
    ensures Adds(a, c, first + second)
  {
    hide Sum, Squares, CompletedSum, SquareSum, CountOf;
    CountConcat(first, second, {Completed});
    CountConcat(first, second, {Skipped});
    CountConcat(first, second, {Failed, Cancelled});
    SumsConcat(first, second);
  }

  // ---- one run -----------------------------------------------------------------------------------------

  ghost predicate Measured(observations: seq<Observation>) {
    forall i :: 0 <= i < |observations| ==> observations[i].duration >= 0.0
  }

  lemma {:induction false} StepAdds(steps: seq<Statistics>, observations: seq<Observation>, i: nat)
    requires i < |steps| && Valid(steps[i]) && Measured(observations)
    ensures Adds(steps[i], ObserveSteps(steps, observations)[i], StepSamples(observations, i))
  {
    hide Adds, Valid, Observed;
    if observations == [] {
      AddsNothing(steps[i]);
    } else {
      var init, last := observations[..|observations| - 1], observations[|observations| - 1];
      StepAdds(steps, init, i);
      var before := ObserveSteps(steps, init)[i];
      if last.step == i {
        assert Valid(before) by { AddsValid(steps[i], before, StepSamples(init, i)); }
        ObservedAdds(before, last.state, last.duration);
        AddsMore(steps[i], before, Observed(before, last.state, last.duration), StepSamples(init, i), [Sample(last.state, last.duration)]);
      } else {
        assert StepSamples(observations, i) == StepSamples(init, i);
      }
    }
  }

  lemma AddsValid(a: Statistics, b: Statistics, samples: seq<Sample>)
    requires Adds(a, b, samples)
    ensures Valid(b)
  {
  }

  /** What a profile has learned: every step the reports on it, the graph the wall times of the eligible runs. */
  ghost predicate HasLearned(before: Profile, after: Profile, runs: seq<Run>) {
    && |after.steps| == |before.steps| && after.runs == before.runs + |runs|
    && (forall i :: 0 <= i < |after.steps| ==> Adds(before.steps[i], after.steps[i], RunSamples(runs, i)))
    && Adds(before.graph, after.graph, GraphSamples(runs))
  }

  lemma RunAdds(p: Profile, run: Run)
    requires ValidProfile(p) && ValidRun(run, |p.steps|)
    ensures HasLearned(p, Learn(p, run), [run])
  {
    hide Adds, Valid, Observed;
    var after := Learn(p, run);
    assert [run][..0] == [];
    assert Measured(run.observations);
    forall i | 0 <= i < |p.steps|
      ensures Adds(p.steps[i], after.steps[i], RunSamples([run], i))
    {
      StepAdds(p.steps, run.observations, i);
      assert RunSamples([run], i) == [] + StepSamples(run.observations, i) == StepSamples(run.observations, i);
    }
    if run.graphSeconds.Some? {
      ObservedAdds(p.graph, Completed, run.graphSeconds.value);
      assert GraphSamples([run]) == [Sample(Completed, run.graphSeconds.value)];
    } else {
      AddsNothing(p.graph);
      assert GraphSamples([run]) == [];
    }
  }

  lemma Regroup(a: seq<Sample>, b: seq<Sample>, c: seq<Sample>)
    ensures a + b + c == a + (b + c)
  {
  }

  lemma {:induction false} RunSamplesConcat(a: seq<Run>, b: seq<Run>, step: nat)
    ensures RunSamples(a + b, step) == RunSamples(a, step) + RunSamples(b, step)
  {
    if b == [] {
      assert a + b == a;
    } else {
      var init, last := b[..|b| - 1], StepSamples(b[|b| - 1].observations, step);
      RunSamplesConcat(a, init, step);
      assert (a + b)[..|a + b| - 1] == a + init;
      Regroup(RunSamples(a, step), RunSamples(init, step), last);
    }
  }

  lemma {:induction false} GraphSamplesConcat(a: seq<Run>, b: seq<Run>)
    ensures GraphSamples(a + b) == GraphSamples(a) + GraphSamples(b)
  {
    if b == [] {
      assert a + b == a;
    } else {
      var init, seconds := b[..|b| - 1], b[|b| - 1].graphSeconds;
      GraphSamplesConcat(a, init);
      assert (a + b)[..|a + b| - 1] == a + init;
      Regroup(GraphSamples(a), GraphSamples(init), if seconds.Some? then [Sample(Completed, seconds.value)] else []);
    }
  }

  lemma LearnedMore(p: Profile, q: Profile, r: Profile, first: seq<Run>, second: seq<Run>)
    requires HasLearned(p, q, first) && HasLearned(q, r, second)
    ensures HasLearned(p, r, first + second)
  {
    hide Adds;
    forall i | 0 <= i < |p.steps|
      ensures Adds(p.steps[i], r.steps[i], RunSamples(first + second, i))
    {
      RunSamplesConcat(first, second, i);
      AddsMore(p.steps[i], q.steps[i], r.steps[i], RunSamples(first, i), RunSamples(second, i));
    }
    GraphSamplesConcat(first, second);
    AddsMore(p.graph, q.graph, r.graph, GraphSamples(first), GraphSamples(second));
  }

  lemma LearnedIsValid(p: Profile, q: Profile, runs: seq<Run>)
    requires HasLearned(p, q, runs)
    ensures ValidProfile(q)
  {
  }

  /** Learning runs adds exactly their reports. */
  lemma {:induction false} RunsAdd(p: Profile, runs: seq<Run>)
    requires ValidProfile(p) && ValidRuns(runs, |p.steps|)
    ensures HasLearned(p, LearnAll(p, runs), runs)
  {
    hide Adds, Valid;
    if runs == [] {
      forall i | 0 <= i < |p.steps|
        ensures Adds(p.steps[i], p.steps[i], RunSamples([], i))
      {
        AddsNothing(p.steps[i]);
      }
      AddsNothing(p.graph);
    } else {
      var n := |runs| - 1;
      RunsAdd(p, runs[..n]);
      var q := LearnAll(p, runs[..n]);
      LearnedIsValid(p, q, runs[..n]);
      RunAdds(q, runs[n]);
      LearnedMore(p, q, LearnAll(p, runs), runs[..n], [runs[n]]);
      assert runs == runs[..n] + [runs[n]];
    }
  }

  // ---- from nothing --------------------------------------------------------------------------------------

  /** The statistics are those of the samples: the number of each class, and the moments of the completed durations. */
  ghost predicate StatisticsOf(t: Statistics, samples: seq<Sample>) {
    && t.observations == |samples| && t.completions == CountOf(samples, {Completed})
    && t.skips == CountOf(samples, {Skipped}) && t.failures == CountOf(samples, {Failed, Cancelled})
    && MomentsOf(t, samples)
  }

  lemma {:induction false} FoldAdds(samples: seq<Sample>)
    requires Durations(samples)
    ensures Adds(EMPTY, Fold(samples), samples)
  {
    hide Adds, Valid, Observed;
    assert Valid(EMPTY) by { EmptyIsValid(); }
    if samples == [] {
      AddsNothing(EMPTY);
    } else {
      var init, last := samples[..|samples| - 1], samples[|samples| - 1];
      FoldAdds(init);
      AddsValid(EMPTY, Fold(init), init);
      ObservedAdds(Fold(init), last.state, last.duration);
      AddsMore(EMPTY, Fold(init), Fold(samples), init, [Sample(last.state, last.duration)]);
      assert samples == init + [Sample(last.state, last.duration)];
    }
  }

  lemma EmptyIsValid()
    ensures Valid(EMPTY)
  {
  }

  /** What the samples add determines the accumulator. */
  lemma AddsDetermine(before: Statistics, a: Statistics, b: Statistics, samples: seq<Sample>)
    requires Adds(before, a, samples) && Adds(before, b, samples)
    ensures a == b
  {
    MomentsDetermine(a, b);
  }

  lemma AddedToNothing(t: Statistics, samples: seq<Sample>)
    requires Adds(EMPTY, t, samples) && Durations(samples)
    ensures StatisticsOf(t, samples)
  {
    FoldAdds(samples);
    AddsDetermine(EMPTY, t, Fold(samples), samples);
    StreamedMomentsAreExact(samples);
  }

  lemma {:induction false} StepDurations(observations: seq<Observation>, step: nat)
    requires Measured(observations)
    ensures Durations(StepSamples(observations, step))
  {
    if observations != [] {
      StepDurations(observations[..|observations| - 1], step);
    }
  }

  lemma {:induction false} RunDurations(runs: seq<Run>, step: nat, steps: nat)
    requires ValidRuns(runs, steps)
    ensures Durations(RunSamples(runs, step)) && Durations(GraphSamples(runs))
  {
    if runs != [] {
      var n := |runs| - 1;
      RunDurations(runs[..n], step, steps);
      assert ValidRun(runs[n], steps);
      StepDurations(runs[n].observations, step);
    }
  }

  /** The profile of some runs: how many, and for each step and the graph the statistics of what they reported. */
  ghost predicate ProfileOf(p: Profile, runs: seq<Run>) {
    && p.runs == |runs| && (forall i :: 0 <= i < |p.steps| ==> StatisticsOf(p.steps[i], RunSamples(runs, i)))
    && StatisticsOf(p.graph, GraphSamples(runs))
  }

  /** An empty profile that learns runs becomes their profile. */
  lemma LearnedProfile(steps: nat, runs: seq<Run>)
    requires ValidRuns(runs, steps)
    ensures ProfileOf(LearnAll(EmptyProfile(steps), runs), runs)
  {
    hide Adds, StatisticsOf, Valid;
    var p := LearnAll(EmptyProfile(steps), runs);
    RunsAdd(EmptyProfile(steps), runs);
    forall i | 0 <= i < steps
      ensures StatisticsOf(p.steps[i], RunSamples(runs, i))
    {
      RunDurations(runs, i, steps);
      AddedToNothing(p.steps[i], RunSamples(runs, i));
    }
    RunDurations(runs, 0, steps);
    AddedToNothing(p.graph, GraphSamples(runs));
  }
}
