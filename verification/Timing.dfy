/** Running count, mean and squared deviation (Welford), and their merge. */
module Timing {
  // Floats are real numbers here. An aggregate is determined by its counts and its two raw moments, the sum and the sum
  // of squares of the completed durations; every law below follows from `Observed` and `Merge` acting additively on them.

  import opened Wrappers

  datatype StepState = Pending | Running | PlacementWaiting | Completed | Skipped | Failed | Cancelled

  datatype Statistics = Statistics(
    observations: nat, completions: nat, skips: nat, failures: nat, mean: real, deviation: real)

  const EMPTY := Statistics(0, 0, 0, 0, 0.0, 0.0)

  /** What constructing a stored aggregate demands, apart from the 63-bit range of the counts. */
  predicate Valid(s: Statistics) {
    && s.completions + s.skips + s.failures <= s.observations
    && s.mean >= 0.0 && s.deviation >= 0.0
    && (s.completions == 0 ==> s.mean == 0.0 && s.deviation == 0.0)
  }

  const COUNT_LIMIT: nat := 0x8000_0000_0000_0000

  predicate InRange(s: Statistics) {
    s.observations < COUNT_LIMIT && s.completions < COUNT_LIMIT && s.skips < COUNT_LIMIT && s.failures < COUNT_LIMIT
  }

  function NextMean(mean: real, count: nat, duration: real): real
    requires count > 0
  {
    mean + (duration - mean) / count as real
  }

  function NextDeviation(deviation: real, mean: real, next: real, duration: real): real {
    deviation + (duration - mean) * (duration - next)
  }

  function Observed(s: Statistics, state: StepState, duration: real): Statistics {
    var seen := s.(observations := s.observations + 1);
    match state
    case Skipped => seen.(skips := s.skips + 1)
    case Failed | Cancelled => seen.(failures := s.failures + 1)
    case Completed =>
      var mean := NextMean(s.mean, s.completions + 1, duration);
      seen.(completions := s.completions + 1, mean := mean,
            deviation := NextDeviation(s.deviation, s.mean, mean, duration))
    case _ => seen
  }

  function MergedMean(p: nat, x: real, q: nat, y: real): real {
    if p + q == 0 then 0.0 else x + (y - x) * q as real / (p + q) as real
  }

  function Spread(p: nat, x: real, q: nat, y: real): real {
    if p + q == 0 then 0.0 else (y - x) * (y - x) * p as real * q as real / (p + q) as real
  }

  function Merge(a: Statistics, b: Statistics): Statistics {
    Statistics(a.observations + b.observations, a.completions + b.completions, a.skips + b.skips,
               a.failures + b.failures, MergedMean(a.completions, a.mean, b.completions, b.mean),
               a.deviation + b.deviation + Spread(a.completions, a.mean, b.completions, b.mean))
  }

  // ---- raw moments -------------------------------------------------------------------------

  ghost function Sum(s: Statistics): real {
    s.mean * s.completions as real
  }

  ghost function Squares(s: Statistics): real {
    s.deviation + s.mean * s.mean * s.completions as real
  }

  lemma Cancel(x: real, y: real, n: real)
    requires n != 0.0 && x * n == y * n
    ensures x == y
  {
  }

  lemma CancelSum(x: real, y: real, z: real, n: real, xn: real, yn: real)
    requires n != 0.0 && x * n == xn && y * n == yn && z * n == xn + yn
    ensures x + y == z
  {
    assert (x + y) * n == x * n + y * n;
    Cancel(x + y, z, n);
  }

  lemma Square(x: real)
    ensures x * x >= 0.0
  {
  }

  lemma SignOf(x: real, n: real)
    requires n > 0.0 && x * n >= 0.0
    ensures x >= 0.0
  {
  }

  /** Counts and raw moments determine a valid aggregate. */
  lemma MomentsDetermine(a: Statistics, b: Statistics)
    requires Valid(a) && Valid(b)
    requires a.observations == b.observations && a.completions == b.completions
    requires a.skips == b.skips && a.failures == b.failures
    requires Sum(a) == Sum(b) && Squares(a) == Squares(b)
    ensures a == b
  {
    if a.completions != 0 {
      Cancel(a.mean, b.mean, a.completions as real);
    }
  }

  lemma ObserveMoments(s: Statistics, duration: real)
    requires Valid(s) && duration >= 0.0
    ensures var t := Observed(s, Completed, duration);
      Valid(t) && Sum(t) == Sum(s) + duration && Squares(t) == Squares(s) + duration * duration
  {
    var t := Observed(s, Completed, duration);
    var n, c := s.completions as real, t.completions as real;
    MeanStep(s.mean, n, duration, c, t.mean);
    SignOf(t.mean, c);
    SquareStep(s.mean, n, duration, c, t.mean);
  }

  lemma DivideMultiply(x: real, n: real)
    requires n != 0.0
    ensures x / n * n == x
  {
  }

  /** One more value `x` moves the mean of `n` values from `m` to `k`. */
  lemma MeanStep(m: real, n: real, x: real, c: real, k: real)
    requires c == n + 1.0 && c != 0.0 && k == m + (x - m) / c
    ensures k * c == m * n + x
  {
    DivideMultiply(x - m, c);
    assert k * c == m * c + (x - m) / c * c;
  }

  /** And adds a square that is not negative and accounts for the squared distances. */
  lemma SquareStep(m: real, n: real, x: real, c: real, k: real)
    requires n >= 0.0 && c == n + 1.0 && k * c == m * n + x
    ensures (x - m) * (x - k) >= 0.0
    ensures (x - m) * (x - k) + k * k * c == m * m * n + x * x
  {
    SquareStepSign(m, n, x, c, k);
    assert k * k * c == k * (m * n + x);
    assert (x - m) * (x - k) == x * x - x * k - m * x + m * k;
    assert k * m * n + m * k == m * (k * c);
    assert m * (k * c) == m * (m * n + x);
  }

  lemma SquareStepSign(m: real, n: real, x: real, c: real, k: real)
    requires n >= 0.0 && c == n + 1.0 && k * c == m * n + x
    ensures (x - m) * (x - k) >= 0.0
  {
    var d := x - m;
    assert (x - k) * c == d * n;
    assert d * (x - k) * c == d * d * n;
    Square(d);
    assert d * d * n >= 0.0;
    SignOf(d * (x - k), c);
  }

  /** The mean of two groups is their weighted mean. */
  lemma MergedMeanIs(p: real, x: real, q: real, y: real, n: real, m: real)
    requires n == p + q && n != 0.0 && m == x + (y - x) * q / n
    ensures m * n == x * p + y * q
  {
    DivideMultiply((y - x) * q, n);
    assert m * n == x * n + (y - x) * q / n * n;
  }

  lemma MergeSum(a: Statistics, b: Statistics)
    requires Valid(a) && Valid(b)
    ensures Sum(Merge(a, b)) == Sum(a) + Sum(b)
  {
    var t := Merge(a, b);
    if t.completions != 0 {
      MergedMeanIs(a.completions as real, a.mean, b.completions as real, b.mean, t.completions as real, t.mean);
    }
  }

  lemma SpreadIdentity(p: real, q: real, x: real, y: real, n: real, t: real, z: real)
    requires n == p + q && t == x * p + y * q && z == x * x * p + y * y * q
    ensures (y - x) * (y - x) * p * q + t * t == z * n
  {
    assert t * t == x * p * x * p + 2.0 * x * p * y * q + y * q * y * q;
    assert (y - x) * (y - x) * p * q == y * y * p * q - 2.0 * x * p * y * q + x * x * p * q;
    assert z * n == x * x * p * p + x * x * p * q + y * y * q * p + y * y * q * q;
  }

  /** `m` is the weighted mean and `spread` the cross term of two groups of sizes p and q with means x and y. */
  lemma SpreadSquares(p: real, q: real, x: real, y: real, m: real, spread: real)
    requires p >= 0.0 && q >= 0.0 && p + q > 0.0
    requires m * (p + q) == x * p + y * q
    requires spread * (p + q) == (y - x) * (y - x) * p * q
    ensures spread >= 0.0
    ensures spread + m * m * (p + q) == x * x * p + y * y * q
  {
    var n := p + q;
    Square(y - x);
    assert (y - x) * (y - x) * p >= 0.0;
    SignOf(spread, n);
    var t, z := x * p + y * q, x * x * p + y * y * q;
    SpreadIdentity(p, q, x, y, n, t, z);
    assert m * m * n * n == t * t by {
      assert m * m * n * n == (m * n) * (m * n);
    }
    CancelSum(spread, m * m * n, z, n, (y - x) * (y - x) * p * q, t * t);
  }

  lemma MergeSquares(a: Statistics, b: Statistics)
    requires Valid(a) && Valid(b)
    ensures Squares(Merge(a, b)) == Squares(a) + Squares(b)
    ensures Merge(a, b).deviation >= 0.0
  {
    var t := Merge(a, b);
    if t.completions != 0 {
      MergeSum(a, b);
      SpreadSquares(a.completions as real, b.completions as real, a.mean, b.mean, t.mean,
                    Spread(a.completions, a.mean, b.completions, b.mean));
    }
  }

  /** Merging two valid aggregates gives a valid one, so building the result never raises for its moments. */
  lemma MergeMoments(a: Statistics, b: Statistics)
    requires Valid(a) && Valid(b)
    ensures Valid(Merge(a, b))
    ensures Sum(Merge(a, b)) == Sum(a) + Sum(b) && Squares(Merge(a, b)) == Squares(a) + Squares(b)
  {
    MergeSum(a, b);
    MergeSquares(a, b);
    var t := Merge(a, b);
    if t.completions != 0 {
      SignOf(t.mean, t.completions as real);
    }
  }

  lemma MergeCommutative(a: Statistics, b: Statistics)
    requires Valid(a) && Valid(b)
    ensures Merge(a, b) == Merge(b, a)
  {
    MergeMoments(a, b);
    MergeMoments(b, a);
    MomentsDetermine(Merge(a, b), Merge(b, a));
  }

  lemma MergeAssociative(a: Statistics, b: Statistics, c: Statistics)
    requires Valid(a) && Valid(b) && Valid(c)
    ensures Merge(Merge(a, b), c) == Merge(a, Merge(b, c))
  {
    MergeMoments(a, b);
    MergeMoments(b, c);
    MergeMoments(Merge(a, b), c);
    MergeMoments(a, Merge(b, c));
    MomentsDetermine(Merge(Merge(a, b), c), Merge(a, Merge(b, c)));
  }

  lemma MergeEmpty(a: Statistics)
    requires Valid(a)
    ensures Merge(a, EMPTY) == a && Merge(EMPTY, a) == a
  {
    MergeMoments(a, EMPTY);
    MergeMoments(EMPTY, a);
    MomentsDetermine(Merge(a, EMPTY), a);
    MomentsDetermine(Merge(EMPTY, a), a);
  }

  lemma ObserveValid(s: Statistics, state: StepState, duration: real)
    requires Valid(s) && duration >= 0.0
    ensures Valid(Observed(s, state, duration))
  {
    if state == Completed {
      ObserveMoments(s, duration);
    }
  }

  lemma MergeCompleted(a: Statistics, b: Statistics, duration: real)
    requires Valid(a) && Valid(b) && duration >= 0.0
    ensures Merge(a, Observed(b, Completed, duration)) == Observed(Merge(a, b), Completed, duration)
  {
    var left, right := Merge(a, Observed(b, Completed, duration)), Observed(Merge(a, b), Completed, duration);
    assert Valid(left) && Valid(right) && Sum(left) == Sum(right) && Squares(left) == Squares(right) by {
      MergeMoments(a, b);
      ObserveMoments(b, duration);
      ObserveMoments(Merge(a, b), duration);
      MergeMoments(a, Observed(b, Completed, duration));
    }
    MomentsDetermine(left, right);
  }

  lemma MergeCounted(a: Statistics, b: Statistics, c: Statistics)
    requires b.completions == c.completions && b.mean == c.mean && b.deviation == c.deviation
    ensures Merge(a, b).mean == Merge(a, c).mean && Merge(a, b).deviation == Merge(a, c).deviation
  {
  }

  /** An observation may be added before or after a merge. */
  lemma MergeObserve(a: Statistics, b: Statistics, state: StepState, duration: real)
    requires Valid(a) && Valid(b) && duration >= 0.0
    ensures Merge(a, Observed(b, state, duration)) == Observed(Merge(a, b), state, duration)
  {
    if state == Completed {
      MergeCompleted(a, b, duration);
    } else {
      MergeCounted(a, b, Observed(b, state, duration));
    }
  }

  // ---- the aggregate means what it says ------------------------------------------------------

  datatype Sample = Sample(state: StepState, duration: real)

  ghost predicate Durations(samples: seq<Sample>) {
    forall i :: 0 <= i < |samples| ==> samples[i].duration >= 0.0
  }

  ghost function Fold(samples: seq<Sample>): Statistics {
    if samples == [] then EMPTY
    else var last := samples[|samples| - 1];
         Observed(Fold(samples[..|samples| - 1]), last.state, last.duration)
  }

  ghost function CompletedSum(samples: seq<Sample>): real {
    if samples == [] then 0.0
    else var last := samples[|samples| - 1];
         CompletedSum(samples[..|samples| - 1]) + if last.state == Completed then last.duration else 0.0
  }

  ghost function CompletedCount(samples: seq<Sample>): nat {
    if samples == [] then 0
    else CompletedCount(samples[..|samples| - 1]) + if samples[|samples| - 1].state == Completed then 1 else 0
  }

  /** The sum over completed samples of the squared distance from `center`. */
  ghost function SquaredDistance(samples: seq<Sample>, center: real): real {
    if samples == [] then 0.0
    else var last := samples[|samples| - 1];
         SquaredDistance(samples[..|samples| - 1], center) + SquaredStep(last.state, last.duration, center)
  }

  ghost function SquaredStep(state: StepState, x: real, center: real): real {
    if state == Completed then (x - center) * (x - center) else 0.0
  }

  /** The summed squared distance from `c` of n values with the given raw moments. */
  ghost function DistanceOf(squares: real, sum: real, n: real, c: real): real {
    squares - 2.0 * c * sum + c * c * n
  }

  lemma ExtendDistance(squares: real, sum: real, n: real, x: real, c: real)
    ensures DistanceOf(squares + x * x, sum + x, n + 1.0, c) == DistanceOf(squares, sum, n, c) + (x - c) * (x - c)
  {
  }

  lemma ObserveDistance(s: Statistics, x: real, c: real)
    requires Valid(s) && x >= 0.0
    ensures var t := Observed(s, Completed, x);
      DistanceOf(Squares(t), Sum(t), t.completions as real, c)
      == DistanceOf(Squares(s), Sum(s), s.completions as real, c) + (x - c) * (x - c)
  {
    ObserveMoments(s, x);
    ExtendDistance(Squares(s), Sum(s), s.completions as real, x, c);
  }

  lemma ObserveOther(s: Statistics, state: StepState, x: real)
    requires Valid(s) && state != Completed
    ensures var t := Observed(s, state, x);
      Valid(t) && t.completions == s.completions && t.mean == s.mean && t.deviation == s.deviation
  {
  }

  /** What one more sample does to the counts and the sum, without unfolding the update. */
  lemma ObserveSum(s: Statistics, state: StepState, x: real)
    requires Valid(s) && x >= 0.0
    ensures var t := Observed(s, state, x);
      && Valid(t) && t.observations == s.observations + 1
      && t.completions == s.completions + (if state == Completed then 1 else 0)
      && Sum(t) == Sum(s) + (if state == Completed then x else 0.0)
  {
    if state == Completed {
      ObserveMoments(s, x);
    } else {
      ObserveOther(s, state, x);
    }
  }

  lemma {:induction false} FoldMoments(samples: seq<Sample>)
    requires Durations(samples)
    ensures Valid(Fold(samples))
    ensures Fold(samples).observations == |samples| && Fold(samples).completions == CompletedCount(samples)
    ensures Sum(Fold(samples)) == CompletedSum(samples)
  {
    if samples != [] {
      var init, last := samples[..|samples| - 1], samples[|samples| - 1];
      FoldMoments(init);
      ObserveSum(Fold(init), last.state, last.duration);
    }
  }

  ghost function DistanceTo(s: Statistics, c: real): real {
    DistanceOf(Squares(s), Sum(s), s.completions as real, c)
  }

  lemma ObserveDistanceTo(s: Statistics, state: StepState, x: real, c: real)
    requires Valid(s) && x >= 0.0
    ensures DistanceTo(Observed(s, state, x), c)
         == DistanceTo(s, c) + SquaredStep(state, x, c)
  {
    if state == Completed {
      ObserveDistance(s, x, c);
    } else {
      ObserveOther(s, state, x);
    }
  }

  /** A measure that each observation moves by its squared distance measures the whole fold. */
  lemma {:induction false} FoldMeasure(samples: seq<Sample>, center: real, measure: Statistics -> real)
    requires Durations(samples) && measure(EMPTY) == 0.0
    requires forall s: Statistics, state: StepState, x: real :: Valid(s) && x >= 0.0 ==>
      measure(Observed(s, state, x)) == measure(s) + SquaredStep(state, x, center)
    ensures SquaredDistance(samples, center) == measure(Fold(samples))
  {
    if samples != [] {
      var init, last := samples[..|samples| - 1], samples[|samples| - 1];
      FoldMeasure(init, center, measure);
      assert Valid(Fold(init)) by { FoldMoments(init); }
      assert measure(Observed(Fold(init), last.state, last.duration)) == measure(Fold(init)) + SquaredStep(last.state, last.duration, center);
    }
  }

  lemma FoldDistance(samples: seq<Sample>, center: real)
    requires Durations(samples)
    ensures SquaredDistance(samples, center) == DistanceTo(Fold(samples), center)
  {
    forall s: Statistics, state: StepState, x: real | Valid(s) && x >= 0.0
      ensures DistanceTo(Observed(s, state, x), center) == DistanceTo(s, center) + SquaredStep(state, x, center)
    {
      ObserveDistanceTo(s, state, x, center);
    }
    FoldMeasure(samples, center, (s: Statistics) => DistanceTo(s, center));
  }

  lemma DistanceFromMean(s: Statistics)
    ensures DistanceOf(Squares(s), Sum(s), s.completions as real, s.mean) == s.deviation
  {
    assert s.mean * Sum(s) == s.mean * s.mean * s.completions as real;
  }

  /** The mean is the arithmetic mean of the completed samples, the deviation their squared distance from it. */
  ghost predicate MomentsOf(t: Statistics, samples: seq<Sample>) {
    && t.mean * CompletedCount(samples) as real == CompletedSum(samples)
    && t.deviation == SquaredDistance(samples, t.mean)
    && Valid(t)
  }

  lemma MomentsExact(t: Statistics, samples: seq<Sample>)
    requires Valid(t) && t.completions == CompletedCount(samples) && Sum(t) == CompletedSum(samples)
    requires SquaredDistance(samples, t.mean) == DistanceTo(t, t.mean)
    ensures MomentsOf(t, samples)
  {
    DistanceFromMean(t);
  }

  /** The streamed update computes the exact moments of its samples. */
  lemma StreamedMomentsAreExact(samples: seq<Sample>)
    requires Durations(samples)
    ensures MomentsOf(Fold(samples), samples)
  {
    FoldMoments(samples);
    FoldDistance(samples, Fold(samples).mean);
    MomentsExact(Fold(samples), samples);
  }

  // ---- whole profiles ----------------------------------------------------------------------

  datatype Observation = Observation(step: nat, state: StepState, duration: real)

  /** One finalized run: its validated reports and, for an eligible run, its wall time. */
  datatype Run = Run(observations: seq<Observation>, graphSeconds: Option<real>)

  datatype Profile = Profile(runs: nat, steps: seq<Statistics>, graph: Statistics)

  function EmptyProfile(steps: nat): (p: Profile)
    ensures |p.steps| == steps && ValidProfile(p)
  {
    Profile(0, seq(steps, i => EMPTY), EMPTY)
  }

  ghost predicate ValidProfile(p: Profile) {
    Valid(p.graph) && forall i :: 0 <= i < |p.steps| ==> Valid(p.steps[i])
  }

  ghost predicate ValidRun(run: Run, steps: nat) {
    && (forall i :: 0 <= i < |run.observations| ==>
          run.observations[i].step < steps && run.observations[i].duration >= 0.0)
    && (run.graphSeconds.Some? ==> run.graphSeconds.value >= 0.0)
  }

  ghost predicate ValidRuns(runs: seq<Run>, steps: nat) {
    forall i :: 0 <= i < |runs| ==> ValidRun(runs[i], steps)
  }

  function ObserveStep(steps: seq<Statistics>, o: Observation): (r: seq<Statistics>)
    ensures |r| == |steps|
  {
    if o.step < |steps| then steps[o.step := Observed(steps[o.step], o.state, o.duration)] else steps
  }

  function ObserveSteps(steps: seq<Statistics>, observations: seq<Observation>): (r: seq<Statistics>)
    ensures |r| == |steps|
  {
    if observations == [] then steps
    else ObserveStep(ObserveSteps(steps, observations[..|observations| - 1]), observations[|observations| - 1])
  }

  function Learn(p: Profile, run: Run): (r: Profile)
    ensures |r.steps| == |p.steps| && r.runs == p.runs + 1
  {
    Profile(p.runs + 1, ObserveSteps(p.steps, run.observations),
            match run.graphSeconds
            case None => p.graph
            case Some(seconds) => Observed(p.graph, Completed, seconds))
  }

  function LearnAll(p: Profile, runs: seq<Run>): (r: Profile)
    ensures |r.steps| == |p.steps| && r.runs == p.runs + |runs|
  {
    if runs == [] then p else Learn(LearnAll(p, runs[..|runs| - 1]), runs[|runs| - 1])
  }

  function MergeSteps(p: seq<Statistics>, q: seq<Statistics>): (r: seq<Statistics>)
    requires |p| == |q|
    ensures |r| == |p| && forall i :: 0 <= i < |p| ==> r[i] == Merge(p[i], q[i])
  {
    seq(|p|, i requires 0 <= i < |p| => Merge(p[i], q[i]))
  }

  /** `ProfileAggregate._merge` for profiles of equal length. */
  function MergeProfiles(p: Profile, q: Profile): (r: Profile)
    requires |p.steps| == |q.steps|
    ensures |r.steps| == |p.steps| && r.runs == p.runs + q.runs
  {
    Profile(p.runs + q.runs, MergeSteps(p.steps, q.steps), Merge(p.graph, q.graph))
  }

  lemma {:induction false} ObserveStepsMerge(p: seq<Statistics>, q: seq<Statistics>, observations: seq<Observation>)
    requires |p| == |q|
    requires forall i :: 0 <= i < |p| ==> Valid(p[i]) && Valid(q[i])
    requires forall i :: 0 <= i < |observations| ==> observations[i].duration >= 0.0
    ensures forall i :: 0 <= i < |p| ==> Valid(ObserveSteps(q, observations)[i])
    ensures ObserveSteps(MergeSteps(p, q), observations) == MergeSteps(p, ObserveSteps(q, observations))
  {
    if observations != [] {
      var init, last := observations[..|observations| - 1], observations[|observations| - 1];
      ObserveStepsMerge(p, q, init);
      var before := ObserveSteps(q, init);
      if last.step < |p| {
        ObserveValid(before[last.step], last.state, last.duration);
        MergeObserve(p[last.step], before[last.step], last.state, last.duration);
      }
    }
  }

  lemma MergeLearn(p: Profile, q: Profile, run: Run)
    requires |p.steps| == |q.steps| && ValidProfile(p) && ValidProfile(q) && ValidRun(run, |p.steps|)
    ensures ValidProfile(Learn(q, run))
    ensures MergeProfiles(p, Learn(q, run)) == Learn(MergeProfiles(p, q), run)
  {
    ObserveStepsMerge(p.steps, q.steps, run.observations);
    if run.graphSeconds.Some? {
      ObserveValid(q.graph, Completed, run.graphSeconds.value);
      MergeObserve(p.graph, q.graph, Completed, run.graphSeconds.value);
    }
  }

  lemma {:induction false} MergeLearnAll(p: Profile, q: Profile, runs: seq<Run>)
    requires |p.steps| == |q.steps| && ValidProfile(p) && ValidProfile(q) && ValidRuns(runs, |p.steps|)
    ensures ValidProfile(LearnAll(q, runs))
    ensures MergeProfiles(p, LearnAll(q, runs)) == LearnAll(MergeProfiles(p, q), runs)
  {
    if runs != [] {
      var init := runs[..|runs| - 1];
      MergeLearnAll(p, q, init);
      MergeLearn(p, LearnAll(q, init), runs[|runs| - 1]);
    }
  }

  lemma MergeEmptyProfile(p: Profile)
    requires ValidProfile(p)
    ensures MergeProfiles(p, EmptyProfile(|p.steps|)) == p
  {
    MergeEmpty(p.graph);
    forall i | 0 <= i < |p.steps|
      ensures Merge(p.steps[i], EMPTY) == p.steps[i]
    {
      MergeEmpty(p.steps[i]);
    }
  }

  /** Merging one delta is the same as learning its runs directly. */
  lemma DeltaIsItsRuns(p: Profile, runs: seq<Run>)
    requires ValidProfile(p) && ValidRuns(runs, |p.steps|)
    ensures ValidProfile(LearnAll(p, runs))
    ensures MergeProfiles(p, LearnAll(EmptyProfile(|p.steps|), runs)) == LearnAll(p, runs)
  {
    MergeLearnAll(p, EmptyProfile(|p.steps|), runs);
    MergeEmptyProfile(p);
    MergeLearnAll(p, p, runs);
  }

  ghost function Flatten<T>(parts: seq<seq<T>>): seq<T> {
    if parts == [] then [] else Flatten(parts[..|parts| - 1]) + parts[|parts| - 1]
  }

  /** The deltas drained at arbitrary points, merged one after another into `p`. */
  ghost function MergeDeltas(p: Profile, parts: seq<seq<Run>>): (r: Profile)
    ensures |r.steps| == |p.steps|
  {
    if parts == [] then p
    else MergeProfiles(MergeDeltas(p, parts[..|parts| - 1]), LearnAll(EmptyProfile(|p.steps|), parts[|parts| - 1]))
  }

  lemma {:induction false} LearnAllConcat(p: Profile, xs: seq<Run>, ys: seq<Run>)
    ensures LearnAll(p, xs + ys) == LearnAll(LearnAll(p, xs), ys)
  {
    if ys == [] {
      assert xs + ys == xs;
    } else {
      assert (xs + ys)[..|xs + ys| - 1] == xs + ys[..|ys| - 1];
      LearnAllConcat(p, xs, ys[..|ys| - 1]);
    }
  }

  /** However a stream of runs is cut into deltas, merging the deltas gives the single fold. */
  lemma {:induction false} SplitAndMergeIsOneFold(p: Profile, parts: seq<seq<Run>>)
    requires ValidProfile(p)
    requires forall i :: 0 <= i < |parts| ==> ValidRuns(parts[i], |p.steps|)
    ensures ValidProfile(MergeDeltas(p, parts))
    ensures MergeDeltas(p, parts) == LearnAll(p, Flatten(parts))
  {
    if parts != [] {
      var init, last := parts[..|parts| - 1], parts[|parts| - 1];
      SplitAndMergeIsOneFold(p, init);
      DeltaIsItsRuns(MergeDeltas(p, init), last);
      LearnAllConcat(p, Flatten(init), last);
    }
  }

  // ---- the mutable accumulator ---------------------------------------------------------------

  /** `_MutableStepProfile`: the same aggregate, updated field by field. */
  class MutableStep {
    var observations: nat
    var completions: nat
    var skips: nat
    var failures: nat
    var mean: real
    var deviation: real

    constructor ()
      ensures View() == EMPTY
    {
      observations, completions, skips, failures := 0, 0, 0, 0;
      mean, deviation := 0.0, 0.0;
    }

    function View(): Statistics
      reads this
    {
      Statistics(observations, completions, skips, failures, mean, deviation)
    }

    method Observe(state: StepState, duration: real)
      modifies this
      ensures View() == Observed(old(View()), state, duration)
    {
      observations := observations + 1;
      if state == Skipped {
        skips := skips + 1;
        return;
      }
      if state == Failed || state == Cancelled {
        failures := failures + 1;
        return;
      }
      if state != Completed {
        return;
      }
      completions := completions + 1;
      var difference := duration - mean;
      var next := mean + difference / completions as real;
      assert next == NextMean(mean, completions, duration);
      deviation := deviation + difference * (duration - next);
      assert deviation == NextDeviation(old(deviation), old(mean), next, duration);
      mean := next;
    }
  }
}
