/** The lane and the store together. */
module Flushing {
  // The batch the lane prepares is the batch that is offered, and the lane finishes it with the answer it got. What a
  // barrier reports is then true of the store.

  import opened Wrappers
  import opened Tables
  import opened Transaction
  import opened History
  import opened Publications
  import opened Reservations
  import opened Barriers
  import opened Acknowledgements
  import Lane
  import LaneRuns
  import LostAnswers
  import Protocol

  datatype System = System(lane: Lane.State, world: Protocol.World)

  /**
    A region of the lane by whichever thread, the start of the writing of a prepared batch, what happens to the store,
    and the end of the batch.
   */
  datatype Event =
    | OnLane(e: LaneRuns.Event) | OnBegin(wall: int, spare: Producer) | OnStore(p: Protocol.Event) | OnFinish

  function NumbersOf(works: seq<Work>): (r: seq<nat>)
    ensures |r| == |works| && forall i :: 0 <= i < |r| ==> r[i] == works[i].number
  {
    seq(|works|, i requires 0 <= i < |works| => works[i].number)
  }

  /** The whole batch is prepared and its charge not yet returned. */
  predicate Prepared(k: Lane.Books) {
    k.current != [] && !k.released && |k.made| == |k.current|
  }

  function Beginning(k: Lane.Books, wall: int, spare: Producer): Protocol.Event {
    Protocol.Begin(NumbersOf(k.current), k.made, wall, spare)
  }

  predicate ToldTrue(l: Protocol.Lane, n: nat) {
    n in l.acks && l.acks[n]
  }

  /** The write failed: something was prepared and not acknowledged. */
  predicate Failing(k: Lane.Books, l: Protocol.Lane) {
    exists i :: 0 <= i < |k.current| && i < |k.made| && k.made[i].Some? && !ToldTrue(l, k.current[i].number)
  }

  /** A batch is written once; it is finished when all of it was answered. */
  ghost predicate Enabled(s: System, e: Event) {
    match e
    case OnLane(a) => !a.OnFinish?
    case OnBegin(wall, spare) =>
      && Prepared(s.lane.books) && s.world.lane.current.None? && s.world.lane.next <= s.lane.books.current[0].number
      && spare !in s.world.lane.names && CountOf(s.world.history.log, spare) == 0
    case OnStore(p) => !p.Begin? && Protocol.Enabled(s.world, p)
    case OnFinish => Prepared(s.lane.books) && forall i :: 0 <= i < |s.lane.books.current| ==> s.lane.books.current[i].number in s.world.lane.acks
  }

  ghost function Step(s: System, e: Event, u: LaneRuns.Setup, maxAttempts: nat): System {
    match e
    case OnLane(a) => s.(lane := LaneRuns.Step(s.lane, a, u))
    case OnBegin(wall, spare) => s.(world := Protocol.Step(s.world, Beginning(s.lane.books, wall, spare), u.config, maxAttempts))
    case OnStore(p) => s.(world := Protocol.Step(s.world, p, u.config, maxAttempts))
    case OnFinish => s.(lane := Lane.Finish(s.lane, Failing(s.lane.books, s.world.lane)))
  }

  /** What the cases of a step are. */
  lemma StepCases(s: System, e: Event, u: LaneRuns.Setup, maxAttempts: nat)
    ensures Step(s, e, u, maxAttempts) == match e
      case OnLane(a) => s.(lane := LaneRuns.Step(s.lane, a, u))
      case OnBegin(wall, spare) => s.(world := Protocol.Step(s.world, Beginning(s.lane.books, wall, spare), u.config, maxAttempts))
      case OnStore(p) => s.(world := Protocol.Step(s.world, p, u.config, maxAttempts))
      case OnFinish => s.(lane := Lane.Finish(s.lane, Failing(s.lane.books, s.world.lane)))
  {
    hide LaneRuns.Step, Protocol.Step, Lane.Finish;
  }

  // ---- what ties the two together -----------------------------------------------------------------------

  /**
    What the lane calls committed was acknowledged True. The numbers the store has not seen are in the queue or in a
    batch that was not written yet; a batch being written is the prepared one.
   */
  ghost predicate Joint(k: Lane.Books, l: Protocol.Lane) {
    && (forall n :: n in k.committed ==> ToldTrue(l, n))
    && k.settled < l.next <= k.admitted + 1
    && (forall i :: 0 <= i < |k.queue| && k.queue[i].Publication? ==> l.next <= k.queue[i].work.number)
    && (k.current != [] ==>
          || l.next <= k.current[0].number
          || (l.next == k.current[|k.current| - 1].number + 1 && |k.made| == |k.current|))
    && (k.current != [] && k.released ==> k.current[0].number < l.next)
    && (l.current.Some? ==> Prepared(k) && l.jobs == Protocol.Jobs(NumbersOf(k.current)))
  }

  ghost predicate LinkedParts(s: System, u: LaneRuns.Setup) {
    && Lane.Valid(s.lane, u.bounds, u.config) && LaneRuns.WellBatched(s.lane.books, u.bounds)
    && Protocol.Inv(s.world, u.config.policy) && LostAnswers.Placed(s.world.lane) && Joint(s.lane.books, s.world.lane)
  }

  ghost predicate Look(s: System) {
    true
  }

  ghost predicate Linked(s: System, u: LaneRuns.Setup) {
    forall t {:trigger Look(t)} :: t == s ==> LinkedParts(t, u)
  }

  /** Every other step leaves the batch alone; it may prepare one more of it and add to the queue. */
  ghost predicate Aside(k: Lane.Books, m: Lane.Books) {
    && m.committed == k.committed && m.settled == k.settled && k.admitted <= m.admitted
    && m.current == k.current && m.released == k.released
    && (m.made == k.made || |k.made| < |k.current|)
    && forall i :: 0 <= i < |m.queue| && m.queue[i].Publication? ==> m.queue[i] in k.queue || k.admitted < m.queue[i].work.number
  }

  lemma JointAside(k: Lane.Books, m: Lane.Books, l: Protocol.Lane)
    requires Joint(k, l) && Aside(k, m)
    ensures Joint(m, l)
  {
  }

  lemma OwnerAside(s: Lane.State, e: LaneRuns.Event, u: LaneRuns.Setup)
    requires !LaneRuns.ByLane(e)
    ensures Aside(s.books, LaneRuns.Step(s, e, u).books)
  {
    hide Aside, Lane.Fail, Lane.Gap, Lane.AskBarrier, Lane.Submit, Lane.Defer;
    SameAside(s.books);
    match e
    case OnReserve =>
      FailAside(s, 0, {});
      GapAside(s, true);
    case OnDiscard(_, _) => GapAside(s, true);
    case OnGap(gap) => GapAside(s, gap);
    case OnOpenFailed(_) => FailAside(s, 0, {});
    case OnBarrier(report) => BarrierAside(s, report, u.bounds);
    case OnSubmit(id, content) => SubmitAside(s, id, content, u);
    case OnDefer(id, profile) => DeferAside(s, id, profile, u.bounds);
    case OnRequest => RequestAside(s, u.bounds);
    case _ =>
  }

  lemma SameAside(k: Lane.Books)
    ensures Aside(k, k)
  {
  }

  lemma SubmitAside(s: Lane.State, id: nat, content: Content, u: LaneRuns.Setup)
    ensures Aside(s.books, Lane.Submit(s, id, content, u.bounds, u.config).state.books)
  {
  }

  lemma DeferAside(s: Lane.State, id: nat, profile: bool, b: Bounds)
    ensures Aside(s.books, Lane.Defer(s, id, profile, b).state.books)
  {
  }

  lemma RequestAside(s: Lane.State, b: Bounds)
    ensures Aside(s.books, Lane.Request(s, b).state.books)
  {
  }

  lemma FailAside(s: Lane.State, number: nat, missing: set<nat>)
    ensures Aside(s.books, Lane.Fail(s, number, false, missing).books)
  {
  }

  lemma GapAside(s: Lane.State, gap: bool)
    ensures Aside(s.books, Lane.Gap(s, gap).books)
  {
  }

  lemma BarrierAside(s: Lane.State, report: bool, b: Bounds)
    ensures Lane.AskBarrier(s, report, b).state.books == s.books
  {
  }

  lemma LaneAside(s: Lane.State, e: LaneRuns.Event, u: LaneRuns.Setup)
    requires !e.OnTake? && !e.OnCoalesce? && !e.OnSettleBatch? && !e.OnFinish?
    ensures Aside(s.books, LaneRuns.Step(s, e, u).books)
  {
    if !LaneRuns.ByLane(e) {
      OwnerAside(s, e, u);
    }
  }

  lemma JointTake(s: Lane.State, l: Protocol.Lane)
    requires Joint(s.books, l)
    ensures Joint(Lane.Take(s).books, l)
  {
  }

  lemma {:induction false} JointCoalesced(k: Lane.Books, l: Protocol.Lane, b: Bounds)
    requires Joint(k, l) && k.current != [] && k.made == []
    ensures Joint(Lane.Coalesced(k, b), l)
    decreases |k.queue|
  {
    if Lane.Joins(k.current, k.queue, b) {
      JointCoalesced(Lane.Absorbed(k), l, b);
    }
  }

  lemma JointSettled(s: Lane.State, l: Protocol.Lane)
    requires Joint(s.books, l)
    ensures Joint(Lane.SettleBatch(s).books, l)
  {
  }

  lemma LaneKeepsJoint(s: Lane.State, e: LaneRuns.Event, l: Protocol.Lane, u: LaneRuns.Setup)
    requires Joint(s.books, l) && !e.OnFinish?
    ensures Joint(LaneRuns.Step(s, e, u).books, l)
  {
    if e.OnTake? {
      JointTake(s, l);
    } else if e.OnCoalesce? {
      if s.books.current != [] && s.books.made == [] && !s.books.released {
        JointCoalesced(s.books, l, u.bounds);
      }
    } else if e.OnSettleBatch? {
      JointSettled(s, l);
    } else {
      LaneAside(s, e, u);
      JointAside(s.books, LaneRuns.Step(s, e, u).books, l);
    }
  }

  /** While a batch is unfinished nothing of it counts as committed. */
  lemma CurrentUncommitted(s: Lane.State, b: Bounds, c: Config)
    requires Lane.Valid(s, b, c)
    ensures !s.books.released ==> forall i :: 0 <= i < |s.books.current| ==> s.books.current[i].number !in s.books.committed
    ensures forall i, j :: 0 <= i < j < |s.books.current| ==> s.books.current[i].number < s.books.current[j].number
    ensures s.books.current != [] ==> s.books.current[|s.books.current| - 1].number <= s.books.admitted
    ensures forall i, j :: 0 <= i < |s.books.current| && 0 <= j < |s.books.queue| && s.books.queue[j].Publication? ==>
              s.books.current[i].number < s.books.queue[j].work.number
  {
    assert Lane.LookAtState(s);
    assert Lane.LookBooks(s.books);
  }

  /** What the lane prepared may be offered: the protocol's conditions on a batch hold. */
  lemma PreparedMayBegin(s: System, wall: int, spare: Producer, u: LaneRuns.Setup)
    requires Linked(s, u) && Enabled(s, OnBegin(wall, spare))
    ensures Protocol.Enabled(s.world, Beginning(s.lane.books, wall, spare))
  {
    assert Look(s);
    CurrentUncommitted(s.lane, u.bounds, u.config);
    if Survivors(s.lane.books.made) != [] {
      LaneRuns.ReadyBatch(s.lane, u);
    }
  }

  /** Beginning and answering touch the answers of this batch only. */
  lemma BegunJoint(k: Lane.Books, l: Protocol.Lane, e: Protocol.Event, p: Policy)
    requires Joint(k, l) && Prepared(k) && l.current.None? && e.Begin? && e.numbers == NumbersOf(k.current)
    requires forall i :: 0 <= i < |k.current| ==> k.current[i].number !in k.committed
    requires l.next <= k.current[|k.current| - 1].number <= k.admitted
    requires forall j :: 0 <= j < |k.queue| && k.queue[j].Publication? ==> k.current[|k.current| - 1].number < k.queue[j].work.number
    ensures Joint(k, Protocol.Begun(l, e, p))
  {
    var m := Protocol.Begun(l, e, p);
    assert forall n :: n in Protocol.Jobs(e.numbers) ==> n !in k.committed;
    assert m.next == k.current[|k.current| - 1].number + 1;
  }

  lemma AnsweredJoint(k: Lane.Books, l: Protocol.Lane, result: Result<Receipt>, spare: Producer, maxAttempts: nat)
    requires Joint(k, l) && l.current.Some?
    requires forall i :: 0 <= i < |k.current| ==> k.current[i].number !in k.committed
    ensures Joint(k, Protocol.Answered(l, result, spare, maxAttempts))
  {
    assert forall n :: n in l.jobs ==> n !in k.committed;
  }

  /** While a batch is being written it is not answered. */
  lemma FirstUnanswered(k: Lane.Books, l: Protocol.Lane)
    requires Joint(k, l) && LostAnswers.Placed(l) && k.current != []
    ensures l.current.Some? ==> k.current[0].number !in l.acks
  {
    assert NumbersOf(k.current)[0] in Protocol.Jobs(NumbersOf(k.current));
  }

  /** The batch counts as committed only if every part of it that was prepared was acknowledged True. */
  lemma FinishedJoint(s: Lane.State, l: Protocol.Lane)
    requires Joint(s.books, l) && LostAnswers.Placed(l) && Enabled(System(s, Protocol.World(History(EMPTY_STORE, []), l)), OnFinish)
    ensures Joint(Lane.Finish(s, Failing(s.books, l)).books, l)
  {
    var k := s.books;
    FirstUnanswered(k, l);
    if !Failing(k, l) {
      forall n | n in Lane.Ready(k)
        ensures ToldTrue(l, n)
      {
      }
    }
    var m := Lane.Finish(s, Failing(k, l)).books;
    assert m.current == k.current && m.queue == k.queue && m.admitted == k.admitted && m.made == k.made && m.settled == k.settled;
    assert k.current[0].number in l.acks;
    assert m.committed == k.committed || (!Failing(k, l) && m.committed == k.committed + Lane.Ready(k));
  }

  lemma StoreKeepsJoint(s: System, p: Protocol.Event, u: LaneRuns.Setup, maxAttempts: nat)
    requires Linked(s, u) && Enabled(s, OnStore(p))
    ensures Joint(s.lane.books, Protocol.Step(s.world, p, u.config, maxAttempts).lane)
  {
    hide Outcome, Apply, Protocol.Inv, Lane.Valid;
    assert Look(s);
    CurrentUncommitted(s.lane, u.bounds, u.config);
    if p.Attempt? {
      var op := Offer(s.world.lane.current.value, p.wall, p.fault);
      AnsweredJoint(s.lane.books, s.world.lane, Outcome(s.world.history.store, op, u.config), p.spare, maxAttempts);
    } else if p.Upkeep? && s.world.lane.current.Some? {
      AnsweredJoint(s.lane.books, s.world.lane, Failure(Contract), p.spare, maxAttempts);
    }
  }

  lemma BeginKeepsLinked(s: System, wall: int, spare: Producer, u: LaneRuns.Setup, maxAttempts: nat)
    requires Linked(s, u) && Enabled(s, OnBegin(wall, spare))
    ensures Linked(Step(s, OnBegin(wall, spare), u, maxAttempts), u)
  {
    hide Protocol.Inv, Joint, Lane.Valid, LostAnswers.Placed, LaneRuns.WellBatched;
    assert Look(s);
    var e := Beginning(s.lane.books, wall, spare);
    PreparedMayBegin(s, wall, spare, u);
    CurrentUncommitted(s.lane, u.bounds, u.config);
    Protocol.StepKeepsInv(s.world, e, u.config, maxAttempts);
    LostAnswers.StepPlaced(s.world, e, u.config, maxAttempts);
    BegunJoint(s.lane.books, s.world.lane, e, u.config.policy);
    assert LinkedParts(Step(s, OnBegin(wall, spare), u, maxAttempts), u);
  }

  lemma StoreKeepsLinked(s: System, p: Protocol.Event, u: LaneRuns.Setup, maxAttempts: nat)
    requires Linked(s, u) && Enabled(s, OnStore(p))
    ensures Linked(Step(s, OnStore(p), u, maxAttempts), u)
  {
    assert Look(s);
    Protocol.StepKeepsInv(s.world, p, u.config, maxAttempts);
    LostAnswers.StepPlaced(s.world, p, u.config, maxAttempts);
    StoreKeepsJoint(s, p, u, maxAttempts);
    assert LinkedParts(Step(s, OnStore(p), u, maxAttempts), u);
  }

  lemma LaneKeepsLinked(s: System, a: LaneRuns.Event, u: LaneRuns.Setup, maxAttempts: nat)
    requires Linked(s, u) && ValidBounds(u.bounds) && !a.OnFinish?
    ensures Linked(Step(s, OnLane(a), u, maxAttempts), u)
  {
    assert Look(s);
    LaneRuns.StepKeepsAll(s.lane, a, u);
    LaneKeepsJoint(s.lane, a, s.world.lane, u);
    assert LinkedParts(Step(s, OnLane(a), u, maxAttempts), u);
  }

  lemma FinishKeepsLinked(s: System, u: LaneRuns.Setup, maxAttempts: nat)
    requires Linked(s, u) && ValidBounds(u.bounds) && Enabled(s, OnFinish)
    ensures Linked(Step(s, OnFinish, u, maxAttempts), u)
  {
    hide Joint, Lane.Valid, Lane.Finish, Protocol.Inv, LaneRuns.Step, Protocol.Step;
    assert Look(s);
    LaneRuns.FinishMeans(s.lane, Failing(s.lane.books, s.world.lane), u);
    FinishedJoint(s.lane, s.world.lane);
    assert LinkedParts(Step(s, OnFinish, u, maxAttempts), u);
  }

  lemma StepKeepsLinked(s: System, e: Event, u: LaneRuns.Setup, maxAttempts: nat)
    requires Linked(s, u) && ValidBounds(u.bounds) && Enabled(s, e)
    ensures Linked(Step(s, e, u, maxAttempts), u)
  {
    hide Step, Linked;
    match e
    case OnLane(a) => LaneKeepsLinked(s, a, u, maxAttempts);
    case OnBegin(wall, spare) => BeginKeepsLinked(s, wall, spare, u, maxAttempts);
    case OnStore(p) => StoreKeepsLinked(s, p, u, maxAttempts);
    case OnFinish => FinishKeepsLinked(s, u, maxAttempts);
  }

  // ---- runs ---------------------------------------------------------------------------------------------

  function Start(h: History, producer: Producer): System {
    System(Lane.START, Protocol.World(h, Protocol.Start(producer)))
  }

  ghost function Run(s: System, events: seq<Event>, u: LaneRuns.Setup, maxAttempts: nat): System {
    if events == [] then s
    else Step(Run(s, events[..|events| - 1], u, maxAttempts), events[|events| - 1], u, maxAttempts)
  }

  ghost predicate Possible(s: System, events: seq<Event>, u: LaneRuns.Setup, maxAttempts: nat) {
    events != [] ==>
      && Possible(s, events[..|events| - 1], u, maxAttempts)
      && Enabled(Run(s, events[..|events| - 1], u, maxAttempts), events[|events| - 1])
  }

  lemma StartLinked(h: History, producer: Producer, u: LaneRuns.Setup)
    requires ValidBounds(u.bounds) && Consistent(h, u.config.policy) && CountOf(h.log, producer) == 0
    ensures Linked(Start(h, producer), u)
  {
    Lane.StartIsValid(u.bounds, u.config);
    Protocol.StartInv(h, producer, u.config.policy);
    assert LinkedParts(Start(h, producer), u);
  }

  lemma {:induction false} EveryRunIsLinked(h: History, producer: Producer, events: seq<Event>, u: LaneRuns.Setup, maxAttempts: nat)
    requires ValidBounds(u.bounds) && Consistent(h, u.config.policy) && CountOf(h.log, producer) == 0
    requires Possible(Start(h, producer), events, u, maxAttempts)
    ensures Linked(Run(Start(h, producer), events, u, maxAttempts), u)
  {
    hide Step, Linked, Enabled;
    if events == [] {
      StartLinked(h, producer, u);
    } else {
      var init := events[..|events| - 1];
      EveryRunIsLinked(h, producer, init, u, maxAttempts);
      StepKeepsLinked(Run(Start(h, producer), init, u, maxAttempts), events[|events| - 1], u, maxAttempts);
    }
  }

  /** Exactly one entry of the store's log applies publication `n`. */
  ghost predicate AppliedOnce(w: Protocol.World, n: nat) {
    exists i: nat :: Protocol.AppliesPublication(w, n, i) && forall j: nat :: Protocol.AppliesPublication(w, n, j) ==> j == i
  }

  lemma ToldTrueIsApplied(w: Protocol.World, p: Policy, n: nat)
    requires Protocol.Inv(w, p) && ToldTrue(w.lane, n)
    ensures AppliedOnce(w, n)
  {
    Protocol.ReachableExactlyOnce(w, p);
    var i: nat :| Protocol.AppliesPublication(w, n, i);
  }

  /**
    A reporting barrier that succeeded with target t, over every run of lane and store: each publication numbered at
    most t has exactly one entry in the store's log. Whatever the lane counts as committed has, too.
   */
  lemma FlushedIsStored(h: History, producer: Producer, events: seq<Event>, u: LaneRuns.Setup, maxAttempts: nat)
    requires ValidBounds(u.bounds) && Consistent(h, u.config.policy) && CountOf(h.log, producer) == 0
    requires Possible(Start(h, producer), events, u, maxAttempts)
    ensures var s := Run(Start(h, producer), events, u, maxAttempts);
      var w := s.lane.waiting;
      && (forall id :: id in w.verdicts && id < |w.asked| && w.asked[id].report && w.verdicts[id].Flushed? ==>
            forall n: nat :: 1 <= n <= w.asked[id].target ==> AppliedOnce(s.world, n))
      && (forall n :: n in s.lane.books.committed ==> AppliedOnce(s.world, n))
  {
    hide *;
    EveryRunIsLinked(h, producer, events, u, maxAttempts);
    StoredWhenLinked(Run(Start(h, producer), events, u, maxAttempts), u);
  }

  lemma StoredWhenLinked(s: System, u: LaneRuns.Setup)
    requires Linked(s, u)
    ensures var w := s.lane.waiting;
      && (forall id :: id in w.verdicts && id < |w.asked| && w.asked[id].report && w.verdicts[id].Flushed? ==>
            forall n: nat :: 1 <= n <= w.asked[id].target ==> AppliedOnce(s.world, n))
      && (forall n :: n in s.lane.books.committed ==> AppliedOnce(s.world, n))
  {
    assert Look(s);
    forall n | n in s.lane.books.committed
      ensures AppliedOnce(s.world, n)
    {
      ToldTrueIsApplied(s.world, u.config.policy, n);
    }
    assert Lane.LookAtState(s.lane);
    assert Lane.LookBooks(s.lane.books);
  }
}
