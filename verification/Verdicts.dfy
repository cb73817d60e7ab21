/** Over every run of the lane: what had failed when a barrier got its verdict. */
module Verdicts {
  import opened Wrappers
  import opened Tables
  import opened Publications
  import opened Barriers
  import opened Lane
  import opened LaneRuns
  import Reservations

  ghost predicate FirstIsLeast(k: Books) {
    && (k.first.None? ==> k.failures == {})
    && (k.first.Some? ==> forall f :: f in k.failures ==> k.first.value <= f)
  }

  ghost predicate Known(w: Waiting) {
    && Distinguished(w.barriers)
    && forall i :: 0 <= i < |w.barriers| ==> w.barriers[i].id < |w.asked| && w.asked[w.barriers[i].id] == w.barriers[i]
  }

  /** The verdict fits what has failed so far, failures that have no number included. */
  ghost predicate Fits(v: Verdict, k: Books) {
    match v
    case Flushed(t) => forall f :: f in k.failures ==> f > t
    case Broken(_, first) => k.first == Some(first)
  }

  /** If it is a reporting barrier that has its verdict, the verdict is up to date. */
  ghost predicate Timely(t: State, id: nat) {
    id in t.waiting.verdicts && id < |t.waiting.asked| && t.waiting.asked[id].report ==> Fits(t.waiting.verdicts[id], t.books)
  }

  lemma KnownWhenValid(s: State, b: Reservations.Bounds, c: Config)
    requires Valid(s, b, c)
    ensures Known(s.waiting) && FirstIsLeast(s.books)
  {
    assert LookAtState(s);
    assert LookBooks(s.books);
  }

  lemma VerdictAsked(s: State, b: Reservations.Bounds, c: Config, id: nat)
    requires Valid(s, b, c) && id in s.waiting.verdicts
    ensures id < |s.waiting.asked|
  {
    assert LookAtState(s);
    assert LookBooks(s.books);
  }

  lemma SettleTimely(s: State, id: nat)
    requires Known(s.waiting) && FirstIsLeast(s.books) && id !in s.waiting.verdicts
    ensures Timely(Settle(s), id)
  {
    var w, k := s.waiting, s.books;
    if Waits(w.barriers, id) {
      var i :| 0 <= i < |w.barriers| && w.barriers[i].id == id;
      JudgedOwn(w.barriers, w.verdicts, k.first, k.settled, s.charges.held, i);
    } else {
      JudgedOther(w.barriers, w.verdicts, k.first, k.settled, s.charges.held, id);
    }
  }

  lemma FailTimely(s: State, number: nat, gap: bool, missing: set<nat>, id: nat)
    requires Known(s.waiting) && FirstIsLeast(s.books) && id !in s.waiting.verdicts
    ensures Timely(Fail(s, number, gap, missing), id)
  {
    var phase := if !s.mode.closing && s.mode.phase != Opening then Degraded else s.mode.phase;
    SettleTimely(s.(mode := s.mode.(phase := phase), books := Recorded(s.books, number, gap, missing)), id);
  }

  lemma GapTimely(s: State, gap: bool, id: nat)
    requires Known(s.waiting) && FirstIsLeast(s.books) && id !in s.waiting.verdicts
    ensures Timely(Gap(s, gap), id)
  {
    var number := s.books.admitted + 1;
    FailTimely(s.(books := s.books.(admitted := number)), number, gap, {number}, id);
  }

  lemma BarrierTimely(s: State, report: bool, b: Reservations.Bounds, id: nat)
    requires Known(s.waiting) && FirstIsLeast(s.books) && id !in s.waiting.verdicts
    ensures Timely(AskBarrier(s, report, b).state, id)
  {
    var w := s.waiting;
    var barrier := Barrier(|w.asked|, s.books.admitted, report);
    SettleTimely(s.(waiting := w.(readers := w.readers + 1, barriers := w.barriers + [barrier], asked := w.asked + [barrier])), id);
  }

  lemma PrepareTimely(s: State, built: Built, c: Config, id: nat)
    requires Known(s.waiting) && FirstIsLeast(s.books) && id !in s.waiting.verdicts
    ensures Timely(Prepare(s, built, c), id)
  {
    var k := s.books;
    if |k.made| < |k.current| {
      var n := k.current[|k.made|].number;
      FailTimely(s, n, true, {n}, id);
      FailTimely(s, n, true, {}, id);
    }
  }

  lemma FinishTimely(s: State, failed: bool, id: nat)
    requires Known(s.waiting) && FirstIsLeast(s.books) && id !in s.waiting.verdicts
    ensures Timely(Finish(s, failed), id)
  {
    var k := s.books;
    if |k.made| == |k.current| && Survivors(k.made) != [] {
      FailTimely(s.(books := Ended(k, failed)), k.current[FirstReady(k)].number, false, Ready(k), id);
    }
  }

  lemma AcknowledgeTimely(s: State, raised: bool, id: nat)
    requires Known(s.waiting) && FirstIsLeast(s.books) && id !in s.waiting.verdicts
    ensures Timely(Acknowledge(s, raised), id)
  {
    var k := s.books;
    if k.callbacks.answered < |k.current| {
      FailTimely(s.(books := Told(k)), k.current[k.callbacks.answered].number, true, {}, id);
    }
  }

  lemma EndTimely(s: State, id: nat)
    requires Known(s.waiting) && FirstIsLeast(s.books) && id !in s.waiting.verdicts
    ensures Timely(SettleBatch(s), id) && Timely(Drain(s), id)
  {
    if s.books.current != [] {
      SettleTimely(s.(books := BatchSettled(s.books)), id);
    }
    SettleTimely(s.(mode := s.mode.(phase := Closed)), id);
  }

  lemma StepTimely(s: State, e: Event, u: Setup, id: nat)
    requires Known(s.waiting) && FirstIsLeast(s.books) && id !in s.waiting.verdicts
    ensures Timely(Step(s, e, u), id)
  {
    hide Fail, Gap, Fits;
    match e
    case OnReserve => FailTimely(s, 0, false, {}, id); GapTimely(s, true, id);
    case OnDiscard(_, _) => GapTimely(s, true, id);
    case OnGap(gap) => GapTimely(s, gap, id);
    case OnOpenFailed(_) => FailTimely(s, 0, false, {}, id);
    case OnBarrier(report) => BarrierTimely(s, report, u.bounds, id);
    case OnPrepare(built) => PrepareTimely(s, built, u.config, id);
    case OnFinish(failed) => FinishTimely(s, failed, id);
    case OnAcknowledge(raised) => AcknowledgeTimely(s, raised, id);
    case OnSettleBatch => EndTimely(s, id);
    case OnDrain => EndTimely(s, id);
    case _ =>
  }

  /** Event `n` of a run gives barrier `id` its verdict. */
  ghost predicate GivenAt(events: seq<Event>, n: nat, u: Setup, id: nat) {
    && n < |events| && id !in LaneRuns.Run(events[..n], u).waiting.verdicts
    && id in LaneRuns.Run(events[..n + 1], u).waiting.verdicts
  }

  /**
    Over every run, a verdict was given by one event and fits what had failed by then: when a reporting barrier succeeded
    nothing at all had failed up to its target, neither a numbered publication nor the startup or a strict refusal, which
    have number 0; when it failed it was told the first failure.
   */
  lemma {:induction false} VerdictsFitTheirMoment(events: seq<Event>, u: Setup, id: nat) returns (n: nat)
    requires Reservations.ValidBounds(u.bounds) && id in LaneRuns.Run(events, u).waiting.verdicts
    ensures GivenAt(events, n, u, id)
    ensures var s, t := LaneRuns.Run(events[..n + 1], u), LaneRuns.Run(events, u);
      && t.waiting.verdicts[id] == s.waiting.verdicts[id] && id < |s.waiting.asked|
      && (s.waiting.asked[id].report ==> Fits(t.waiting.verdicts[id], s.books))
  {
    n := |events| - 1;
    var init, last := events[..n], events[n];
    var before := LaneRuns.Run(init, u);
    EveryRunIsValid(init, u);
    if id in before.waiting.verdicts {
      n := VerdictsFitTheirMoment(init, u, id);
      VerdictIsFinal(before, last, u, id);
      assert init[..n] == events[..n] && init[..n + 1] == events[..n + 1];
    } else {
      KnownWhenValid(before, u.bounds, u.config);
      StepTimely(before, last, u, id);
      EveryRunIsValid(events, u);
      VerdictAsked(LaneRuns.Run(events, u), u.bounds, u.config, id);
      assert events[..n + 1] == events;
    }
  }
}
