/** In the end memory and store agree. */
module MemoryAndStore {
  // Over every run of learning, lane and store: where the runs of a key are, and that in the end the row of the store is
  // the profile in memory.

  import opened Wrappers
  import opened Tables
  import opened Transaction
  import opened Publications
  import opened Barriers
  import opened Acknowledgements
  import opened Aggregates
  import opened CarriedRuns
  import opened Learning
  import opened RunTraces
  import opened StoredRuns
  import Flushing
  import Lane
  import Lessons
  import LaneRuns
  import LostAnswers
  import ProgressHistory
  import Protocol
  import Stored = History
  import Timing

  // ---- what must not happen ---------------------------------------------------------------------------------

  /** Another publication of the lane writes nothing under the key. */
  predicate ForeignLane(w: Engine, a: LaneRuns.Event, pk: ProfileKey) {
    var k := w.system.lane.books;
    match a
    case OnSubmit(_, content) => Foreign(content, pk)
    case OnPrepare(built) =>
      built.Built? && |k.made| < |k.current| && k.current[|k.made|].number !in w.closures ==> Foreign(built.content, pk)
    case _ => true
  }

  /** A retention pass deletes the row of the key. */
  ghost predicate StoreDrops(v: Protocol.World, p: Protocol.Event, c: Config, pk: ProfileKey) {
    match p
    case Begin(_, _, _, _) => false
    case Attempt(wall, fault, _) =>
      v.lane.current.Some? && Drops(v.history.store, Stored.Offer(v.lane.current.value, wall, fault), c, pk)
    case Upkeep(wall, fault, _) => Drops(v.history.store, Stored.Tidy(wall, fault), c, pk)
    case Other(op) => Drops(v.history.store, op, c, pk)
  }

  /** Nobody else contributes or writes under the key, and its row is not deleted. */
  ghost predicate Undisturbed(w: Engine, e: Learning.Event, k: ProgressHistory.Key, c: Config)
  {
    && k.TimingKey? && SoleOwner(e, k)
    && (e.OnSystem? && e.e.OnLane? ==> ForeignLane(w, e.e.e, k.profile))
    && (e.OnSystem? && e.e.OnStore? ==>
          && !StoreDrops(w.system.world, e.e.p, c, k.profile)
          && (e.e.p.Other? && e.e.p.op.Offer? ==> Foreign(e.e.p.op.batch.content, k.profile)))
  }

  // ---- what every undisturbed step keeps --------------------------------------------------------------------

  ghost predicate RowIsFold(s: Store, log: seq<Batch>, pk: ProfileKey, start: nat) {
    start <= |log| && RowOf(s, pk) == Fold(None, LogDeltas(log[start..], pk))
  }

  ghost predicate Kept(s: Flushing.System, closures: map<nat, Handoff>, handed: seq<nat>, k: ProgressHistory.Key, start: nat)
  {
    var b, l, h := s.lane.books, s.world.lane, s.world.history;
    && k.TimingKey? && Works(b, closures, k.profile) && Offered(b, l)
    && Arrived(b, l, h.log, handed, closures, k, start) && RowIsFold(h.store, h.log, k.profile, start)
  }

  lemma AroundHolds(w: Engine, limits: Settings)
    requires Inv(w, limits) && Handoffs(w.closures, w.trace.handed)
    ensures Around(w.system.lane.books, w.system.world.lane, w.trace.handed)
  {
    assert Flushing.Look(w.system);
    assert Lane.LookAtState(w.system.lane);
    OwedWait(w.system.lane.books, limits.setup.config);
    OwedAround(w.system.lane.books, w.system.world.lane, w.trace.handed, w.closures);
  }

  lemma OwedAround(k: Lane.Books, l: Protocol.Lane, handed: seq<nat>, closures: map<nat, Handoff>)
    requires Handoffs(closures, handed) && closures.Keys <= k.callbacks.owed && Flushing.Joint(k, l)
    requires Ordered(k.current, k.queue, k.settled, k.admitted)
    requires forall n :: n in k.callbacks.owed ==> n <= k.settled || InWorks(k.current, n) || InQueue(k.queue, n)
    ensures Around(k, l, handed)
  {
  }

  lemma OwedWait(k: Lane.Books, c: Config)
    requires Lane.Line(k, {}, c)
    ensures Ordered(k.current, k.queue, k.settled, k.admitted)
    ensures forall n :: n in k.callbacks.owed ==> n <= k.settled || InWorks(k.current, n) || InQueue(k.queue, n)
  {
    assert Lane.LookBooks(k);
  }

  /** The batch being written is the lane's batch, with numbers the store has been shown. */
  lemma WritingJobs(k: Lane.Books, l: Protocol.Lane, log: seq<Batch>)
    requires Flushing.Joint(k, l) && Protocol.Answering(l, log) && l.current.Some?
    ensures k.current != [] && |k.made| == |k.current| && !k.released && l.next == k.current[|k.current| - 1].number + 1
    ensures forall i :: 0 <= i < |k.current| ==> k.current[i].number in l.jobs && k.current[i].number < l.next
  {
    forall i | 0 <= i < |k.current|
      ensures k.current[i].number in l.jobs
    {
      assert Flushing.NumbersOf(k.current)[i] in Protocol.Jobs(Flushing.NumbersOf(k.current));
    }
    assert k.current[0].number in l.jobs;
  }

  /** While it is written the batch stays as it is. */
  lemma Frozen(s: Lane.State, a: LaneRuns.Event, l: Protocol.Lane, u: LaneRuns.Setup)
    requires Flushing.Joint(s.books, l) && l.current.Some? && !a.OnFinish?
    ensures var m := LaneRuns.Step(s, a, u).books; m.current == s.books.current && m.made == s.books.made
  {
    if !a.OnTake? && !a.OnCoalesce? && !a.OnSettleBatch? {
      Flushing.LaneAside(s, a, u);
    }
  }

  lemma LaneHolds(s: Flushing.System, a: LaneRuns.Event, u: LaneRuns.Setup, closures: map<nat, Handoff>, handed: seq<nat>,
                  k: ProgressHistory.Key, start: nat)
    requires Kept(s, closures, handed, k, start) && Flushing.Joint(s.lane.books, s.world.lane)
    requires !a.OnFinish? && QuietLane(s.lane.books, a, closures, k.profile) && forall n :: n in closures ==> n <= s.lane.books.admitted
    ensures Kept(s.(lane := LaneRuns.Step(s.lane, a, u)), closures, handed, k, start)
  {
    LaneKeepsWorks(s.lane, a, u, closures, k.profile);
    if s.world.lane.current.Some? {
      Frozen(s.lane, a, s.world.lane, u);
    }
  }

  lemma LaneKeeps(w: Engine, a: LaneRuns.Event, limits: Settings, k: ProgressHistory.Key, start: nat)
    requires Inv(w, limits) && Kept(w.system, w.closures, w.trace.handed, k, start)
    requires Learning.Enabled(w, OnSystem(Flushing.OnLane(a))) && Undisturbed(w, OnSystem(Flushing.OnLane(a)), k, limits.setup.config)
    ensures Kept(Flushing.Step(w.system, Flushing.OnLane(a), limits.setup, limits.maxAttempts), w.closures, w.trace.handed, k, start)
  {
    hide Flushing.Step, LaneRuns.Step, Kept, Credits, StoreDrops, Lane.Valid, Protocol.Inv;
    Flushing.StepCases(w.system, Flushing.OnLane(a), limits.setup, limits.maxAttempts);
    assert Flushing.Look(w.system);
    ClosuresAdmitted(w, limits);
    LaneHolds(w.system, a, limits.setup, w.closures, w.trace.handed, k, start);
  }

  lemma FinishHolds(s: Flushing.System, failed: bool, closures: map<nat, Handoff>, handed: seq<nat>, k: ProgressHistory.Key, start: nat)
    requires Kept(s, closures, handed, k, start) && s.world.lane.current.None?
    ensures Kept(s.(lane := Lane.Finish(s.lane, failed)), closures, handed, k, start)
  {
    LaneRuns.FinishSameBatch(s.lane, failed);
  }

  lemma FinishKeeps(w: Engine, limits: Settings, k: ProgressHistory.Key, start: nat)
    requires Inv(w, limits) && Kept(w.system, w.closures, w.trace.handed, k, start)
    requires Learning.Enabled(w, OnSystem(Flushing.OnFinish))
    ensures Kept(Flushing.Step(w.system, Flushing.OnFinish, limits.setup, limits.maxAttempts), w.closures, w.trace.handed, k, start)
  {
    hide Flushing.Step, Lane.Finish, Kept, Credits, Protocol.Inv;
    Flushing.StepCases(w.system, Flushing.OnFinish, limits.setup, limits.maxAttempts);
    assert Flushing.Look(w.system);
    Flushing.FirstUnanswered(w.system.lane.books, w.system.world.lane);
    FinishHolds(w.system, Flushing.Failing(w.system.lane.books, w.system.world.lane), w.closures, w.trace.handed, k, start);
  }

  /** A batch that was just formed is not in the log, and offers what was prepared. */
  lemma BegunFresh(w: Protocol.World, e: Protocol.Event, p: Policy)
    requires Protocol.Inv(w, p) && Protocol.Enabled(w, e) && e.Begin?
    ensures var m := Protocol.Begun(w.lane, e, p);
      m.current.Some? ==>
        && m.current.value !in w.history.log && m.current.value.content == Combined(Survivors(e.prepared))
        && m.ready == Protocol.Numbered(e.numbers, e.prepared).Keys
  {
    var m := Protocol.Begun(w.lane, e, p);
    if m.current.Some? {
      Protocol.RenamedOffering(w.lane, e.spare, w.history.log);
      assert Protocol.Named(w.lane, Protocol.NameFor(w.lane, e, p), Protocol.SequenceFor(w.lane, e, p), w.history.log) by {
        assert Protocol.Applying(Protocol.Renamed(w.lane, e.spare), w.history.log);
        assert Protocol.Offering(Protocol.Renamed(w.lane, e.spare));
      }
      LostAnswers.NewBatchUnlogged(w.history.log, m.current.value);
    }
  }

  lemma BeginKeeps(w: Engine, wall: int, spare: Producer, limits: Settings, k: ProgressHistory.Key, start: nat)
    requires Inv(w, limits) && Traced(w, k) && Kept(w.system, w.closures, w.trace.handed, k, start)
    requires Learning.Enabled(w, OnSystem(Flushing.OnBegin(wall, spare)))
    ensures Kept(Flushing.Step(w.system, Flushing.OnBegin(wall, spare), limits.setup, limits.maxAttempts), w.closures, w.trace.handed, k, start)
  {
    hide Flushing.Step, Protocol.Begun, Arrived, Offered, Works, RowIsFold, Credits, Around, Protocol.Offering, Protocol.Applying, Stored.Consistent, Lane.Valid;
    Flushing.StepCases(w.system, Flushing.OnBegin(wall, spare), limits.setup, limits.maxAttempts);
    assert Flushing.Look(w.system);
    var b, v := w.system.lane.books, w.system.world;
    var e, p := Flushing.Beginning(b, wall, spare), limits.setup.config.policy;
    Flushing.PreparedMayBegin(w.system, wall, spare, limits.setup);
    AroundHolds(w, limits);
    BegunFresh(v, e, p);
    BeginArrived(b, v.lane, e, p, v.history.log, w.trace.handed, w.closures, k, start);
    BegunOffered(b, v.lane, e, p);
  }

  lemma BegunOffered(b: Lane.Books, l: Protocol.Lane, e: Protocol.Event, p: Policy)
    requires e.Begin? && Flushing.Prepared(b) && e.numbers == Flushing.NumbersOf(b.current) && e.prepared == b.made
    requires Protocol.Increasing(e.numbers)
    requires var m := Protocol.Begun(l, e, p);
      m.current.Some? ==> m.current.value.content == Combined(Survivors(e.prepared)) && m.ready == Protocol.Numbered(e.numbers, e.prepared).Keys
    ensures Offered(b, Protocol.Begun(l, e, p))
  {
    Protocol.NumberedIs(e.numbers, e.prepared);
    forall i | 0 <= i < |b.current|
      ensures b.current[i].number in Protocol.Numbered(e.numbers, e.prepared) <==> b.made[i].Some?
    {
      assert e.numbers[i] == b.current[i].number;
    }
  }

  /** The row follows the log. */
  lemma RowFollows(h: Stored.History, op: Stored.Operation, c: Config, pk: ProfileKey, start: nat)
    requires Sound(h.store) && RowIsFold(h.store, h.log, pk, start) && !Drops(h.store, op, c, pk)
    ensures RowIsFold(Stored.Apply(h, op, c).store, Stored.Apply(h, op, c).log, pk, start)
  {
    ApplyFolds(h, op, c, pk);
    if op.Offer? && Stored.Apply(h, op, c).log == h.log + [op.batch] && Stored.Apply(h, op, c).log != h.log {
      LogMore(h.log, op.batch, start, pk);
      FoldConcat(None, LogDeltas(h.log[start..], pk), DeltasFor(op.batch.content.profiles, pk));
    }
  }

  /** What an attempt does to the log: nothing, or the batch is new in it; success means it is there. */
  lemma AttemptLogged(v: Protocol.World, wall: int, fault: Stored.Fault, c: Config)
    requires Protocol.Inv(v, c.policy) && v.lane.current.Some?
    ensures var b := v.lane.current.value;
      var op := Stored.Offer(b, wall, fault);
      var after := Stored.Apply(v.history, op, c).log;
      && (after == v.history.log || (after == v.history.log + [b] && b !in v.history.log))
      && (Stored.Outcome(v.history.store, op, c).Success? ==> b in after)
  {
    var b := v.lane.current.value;
    Protocol.OfferEffect(v.history, Stored.Offer(b, wall, fault), c);
    if b.sequence == Stored.CountOf(v.history.log, b.producer) + 1 {
      LostAnswers.NewBatchUnlogged(v.history.log, b);
    }
  }

  lemma AnsweredOffered(b: Lane.Books, l: Protocol.Lane, result: Result<Receipt>, spare: Producer, maxAttempts: nat)
    requires Offered(b, l) && l.current.Some?
    ensures Offered(b, Protocol.Answered(l, result, spare, maxAttempts))
  {
  }

  lemma AttemptHolds(s: Flushing.System, v: Protocol.World, result: Result<Receipt>, spare: Producer, maxAttempts: nat,
                     closures: map<nat, Handoff>, handed: seq<nat>, k: ProgressHistory.Key, start: nat)
    requires Kept(s, closures, handed, k, start) && Handoffs(closures, handed)
    requires forall n :: n in closures && IsFor(closures[n], k.profile) ==> closures[n].delta.key == k
    requires s.world.lane.current.Some? && v.lane == Protocol.Answered(s.world.lane, result, spare, maxAttempts)
    requires Flushing.Joint(s.lane.books, s.world.lane) && Protocol.Answering(s.world.lane, s.world.history.log)
    requires LostAnswers.Placed(s.world.lane) && Around(s.lane.books, s.world.lane, handed)
    requires var b := s.world.lane.current.value;
      && (v.history.log == s.world.history.log || (v.history.log == s.world.history.log + [b] && b !in s.world.history.log))
      && (result.Success? ==> b in v.history.log)
    requires RowIsFold(v.history.store, v.history.log, k.profile, start)
    ensures Kept(s.(world := v), closures, handed, k, start)
  {
    WritingJobs(s.lane.books, s.world.lane, s.world.history.log);
    AnsweredOffered(s.lane.books, s.world.lane, result, spare, maxAttempts);
    AttemptArrived(s.lane.books, s.world.lane, s.world.history.log, v.history.log, result, spare, maxAttempts, handed, closures, k, start);
  }

  lemma AttemptKeeps(s: Flushing.System, p: Protocol.Event, c: Config, maxAttempts: nat, closures: map<nat, Handoff>, handed: seq<nat>,
                     k: ProgressHistory.Key, start: nat)
    requires Kept(s, closures, handed, k, start) && Handoffs(closures, handed)
    requires forall n :: n in closures && IsFor(closures[n], k.profile) ==> closures[n].delta.key == k
    requires Protocol.Inv(s.world, c.policy) && Flushing.Joint(s.lane.books, s.world.lane)
    requires LostAnswers.Placed(s.world.lane) && Around(s.lane.books, s.world.lane, handed)
    requires p.Attempt? && Protocol.Enabled(s.world, p) && !StoreDrops(s.world, p, c, k.profile)
    ensures Kept(s.(world := Protocol.Step(s.world, p, c, maxAttempts)), closures, handed, k, start)
  {
    var v := s.world;
    var op := Stored.Offer(v.lane.current.value, p.wall, p.fault);
    AttemptLogged(v, p.wall, p.fault, c);
    RowFollows(v.history, op, c, k.profile, start);
    AttemptHolds(s, Protocol.Step(v, p, c, maxAttempts), Stored.Outcome(v.history.store, op, c), p.spare, maxAttempts, closures, handed,
                 k, start);
  }

  /** Maintenance leaves the log alone; if it ends the batch, the batch is answered like one whose attempt failed. */
  lemma UpkeepKeeps(s: Flushing.System, p: Protocol.Event, c: Config, maxAttempts: nat, closures: map<nat, Handoff>, handed: seq<nat>,
                    k: ProgressHistory.Key, start: nat)
    requires Kept(s, closures, handed, k, start) && Handoffs(closures, handed)
    requires forall n :: n in closures && IsFor(closures[n], k.profile) ==> closures[n].delta.key == k
    requires Protocol.Inv(s.world, c.policy) && Flushing.Joint(s.lane.books, s.world.lane)
    requires LostAnswers.Placed(s.world.lane) && Around(s.lane.books, s.world.lane, handed)
    requires p.Upkeep? && Protocol.Enabled(s.world, p) && !StoreDrops(s.world, p, c, k.profile)
    requires Kept(s.(world := s.world.(history := Stored.Apply(s.world.history, Stored.Tidy(p.wall, p.fault), c))), closures, handed, k, start)
    ensures Kept(s.(world := Protocol.Step(s.world, p, c, maxAttempts)), closures, handed, k, start)
  {
    var v := Protocol.Step(s.world, p, c, maxAttempts);
    Protocol.OfferEffect(s.world.history, Stored.Tidy(p.wall, p.fault), c);
    if v.lane == s.world.lane {
      assert s.(world := v) == s.(world := s.world.(history := Stored.Apply(s.world.history, Stored.Tidy(p.wall, p.fault), c)));
    } else {
      AttemptHolds(s, v, Failure(Contract), p.spare, maxAttempts, closures, handed, k, start);
    }
  }

  lemma BystanderHolds(s: Flushing.System, h: Stored.History, b: Batch, closures: map<nat, Handoff>, handed: seq<nat>,
                       k: ProgressHistory.Key, start: nat)
    requires Kept(s, closures, handed, k, start) && RowIsFold(h.store, h.log, k.profile, start)
    requires h.log == s.world.history.log || h.log == s.world.history.log + [b]
    requires h.log != s.world.history.log ==> Foreign(b.content, k.profile) && Some(b) != s.world.lane.current
    ensures Kept(s.(world := s.world.(history := h)), closures, handed, k, start)
  {
    var log := s.world.history.log;
    if h.log != log {
      LogMore(log, b, start, k.profile);
      assert LogDeltas(h.log[start..], k.profile) == LogDeltas(log[start..], k.profile) + [];
      assert s.world.lane.current.Some? ==> (s.world.lane.current.value in h.log <==> s.world.lane.current.value in log);
    }
  }

  /** Another client's batch leaves the frontier and the deltas for the key alone. */
  lemma BystanderKeeps(w: Engine, op: Stored.Operation, limits: Settings, k: ProgressHistory.Key, start: nat)
    requires k.TimingKey? && Inv(w, limits) && Kept(w.system, w.closures, w.trace.handed, k, start)
    requires !Drops(w.system.world.history.store, op, limits.setup.config, k.profile)
    requires op.Offer? ==> op.batch.producer !in w.system.world.lane.names && Foreign(op.batch.content, k.profile)
    ensures Kept(w.system.(world := w.system.world.(history := Stored.Apply(w.system.world.history, op, limits.setup.config))),
                 w.closures, w.trace.handed, k, start)
  {
    assert Flushing.Look(w.system);
    var v, c := w.system.world, limits.setup.config;
    RowFollows(v.history, op, c, k.profile, start);
    Protocol.OfferEffect(v.history, op, c);
    var b := if op.Offer? then op.batch else Batch(Producer(0, Text(0, 0)), 0, Content([], [], [], None));
    BystanderHolds(w.system, Stored.Apply(v.history, op, c), b, w.closures, w.trace.handed, k, start);
  }

  lemma StoreKeeps(w: Engine, p: Protocol.Event, limits: Settings, k: ProgressHistory.Key, start: nat)
    requires Inv(w, limits) && Traced(w, k) && Kept(w.system, w.closures, w.trace.handed, k, start)
    requires Learning.Enabled(w, OnSystem(Flushing.OnStore(p))) && Undisturbed(w, OnSystem(Flushing.OnStore(p)), k, limits.setup.config)
    ensures Kept(Flushing.Step(w.system, Flushing.OnStore(p), limits.setup, limits.maxAttempts), w.closures, w.trace.handed, k, start)
  {
    hide Flushing.Step, Kept, Credits, Protocol.Inv, Stored.Apply, Protocol.Tended, Protocol.Answered, LaneRuns.Step, Lane.Valid;
    Flushing.StepCases(w.system, Flushing.OnStore(p), limits.setup, limits.maxAttempts);
    assert Flushing.Look(w.system);
    AroundHolds(w, limits);
    match p
    case Attempt(_, _, _) =>
      AttemptKeeps(w.system, p, limits.setup.config, limits.maxAttempts, w.closures, w.trace.handed, k, start);
    case Upkeep(wall, fault, _) =>
      BystanderKeeps(w, Stored.Tidy(wall, fault), limits, k, start);
      UpkeepKeeps(w.system, p, limits.setup.config, limits.maxAttempts, w.closures, w.trace.handed, k, start);
    case Other(op) => BystanderKeeps(w, op, limits, k, start);
  }

  lemma SystemKeeps(w: Engine, a: Flushing.Event, limits: Settings, k: ProgressHistory.Key, start: nat)
    requires Inv(w, limits) && Traced(w, k) && Kept(w.system, w.closures, w.trace.handed, k, start)
    requires Learning.Enabled(w, OnSystem(a)) && Undisturbed(w, OnSystem(a), k, limits.setup.config)
    ensures Kept(Flushing.Step(w.system, a, limits.setup, limits.maxAttempts), w.closures, w.trace.handed, k, start)
  {
    hide *;
    match a
    case OnLane(e) => LaneKeeps(w, e, limits, k, start);
    case OnBegin(wall, spare) => BeginKeeps(w, wall, spare, limits, k, start);
    case OnFinish => FinishKeeps(w, limits, k, start);
    case OnStore(p) => StoreKeeps(w, p, limits, k, start);
  }

  /** A new handoff is beyond the frontier. */
  lemma HandOffArrived(b: Lane.Books, m: Lane.Books, l: Protocol.Lane, log: seq<Batch>, handed: seq<nat>, closures: map<nat, Handoff>,
                       n: nat, h: Handoff, k: ProgressHistory.Key, start: nat)
    requires k.TimingKey? && Arrived(b, l, log, handed, closures, k, start) && Flushing.Joint(b, l) && Protocol.Answering(l, log)
    requires n == b.admitted + 1 && n !in closures && n !in handed && m.current == b.current
    ensures Arrived(m, l, log, handed + [n], closures[n := h], k, start)
  {
    var f := Frontier(b, l, log);
    if l.current.Some? {
      WritingJobs(b, l, log);
    }
    assert Frontier(m, l, log) == f <= l.next <= n;
    if Clean(l, closures[n := h]) {
      assert Clean(l, closures);
      UnderMore(handed, n, f);
      UnderIn(handed, f);
      PartsFrame(Under(handed, f), closures, n, h, k.profile);
    }
  }

  lemma HandOffWorks(b: Lane.Books, m: Lane.Books, closures: map<nat, Handoff>, n: nat, h: Handoff, x: Work, pk: ProfileKey)
    requires Works(b, closures, pk) && m.current == b.current && m.made == b.made && m.queue == b.queue + [Publication(x)]
    requires x.number == n && x.content.None?
    requires forall i :: 0 <= i < |b.current| ==> b.current[i].number != n
    requires forall i :: 0 <= i < |b.queue| && b.queue[i].Publication? ==> b.queue[i].work.number != n
    ensures Works(m, closures[n := h], pk)
  {
  }

  lemma NumbersAdmitted(s: Lane.State, u: LaneRuns.Setup)
    requires Lane.Valid(s, u.bounds, u.config)
    ensures forall i :: 0 <= i < |s.books.current| ==> s.books.current[i].number <= s.books.admitted
    ensures forall i :: 0 <= i < |s.books.queue| && s.books.queue[i].Publication? ==> s.books.queue[i].work.number <= s.books.admitted
  {
    assert Lane.LookAtState(s);
    assert Lane.LookBooks(s.books);
  }

  /** What the lane's books become when it takes a deferred profile. */
  lemma DeferredBooks(s: Lane.State, id: nat, u: LaneRuns.Setup)
    ensures var a := Lane.Defer(s, id, true, u.bounds);
      var b, m := s.books, a.state.books;
      if a.result.Success? then
        && id in s.charges.held && a.result.value == b.admitted + 1 && m.current == b.current && m.made == b.made
        && m.queue == b.queue + [Publication(Work(id, b.admitted + 1, s.charges.held[id].size, 1, false, true, None))]
      else a.state == s
  {
  }

  lemma HandOffHolds(s: Flushing.System, t: Lane.State, closures: map<nat, Handoff>, handed: seq<nat>, n: nat, h: Handoff, x: Work,
                     k: ProgressHistory.Key, start: nat)
    requires Kept(s, closures, handed, k, start)
    requires Flushing.Joint(s.lane.books, s.world.lane) && Protocol.Answering(s.world.lane, s.world.history.log)
    requires n == s.lane.books.admitted + 1 && n !in closures && n !in handed && x.number == n && x.content.None?
    requires t.books.current == s.lane.books.current && t.books.made == s.lane.books.made
    requires t.books.queue == s.lane.books.queue + [Publication(x)]
    requires forall i :: 0 <= i < |s.lane.books.current| ==> s.lane.books.current[i].number < n
    requires forall i :: 0 <= i < |s.lane.books.queue| && s.lane.books.queue[i].Publication? ==> s.lane.books.queue[i].work.number < n
    ensures Kept(s.(lane := t), closures[n := h], handed + [n], k, start)
  {
    HandOffWorks(s.lane.books, t.books, closures, n, h, x, k.profile);
    HandOffArrived(s.lane.books, t.books, s.world.lane, s.world.history.log, handed, closures, n, h, k, start);
  }

  lemma HandedAdmitted(w: Engine, limits: Settings, k: ProgressHistory.Key)
    requires Inv(w, limits) && Traced(w, k)
    ensures forall n :: n in w.closures || n in w.trace.handed ==> n <= w.system.lane.books.admitted
  {
    hide Inv, Recalls, Split, Pendings;
    ClosuresAdmitted(w, limits);
  }

  lemma HandOffKeeps(w: Engine, j: ProgressHistory.Key, limits: Settings, k: ProgressHistory.Key, start: nat)
    requires Inv(w, limits) && Traced(w, k) && Kept(w.system, w.closures, w.trace.handed, k, start)
    requires j in w.account.ledger.pending
    ensures var v := HandsOff(w, j, limits); Kept(v.system, v.closures, v.trace.handed, k, start)
  {
    hide *;
    InvFacts(w, limits);
    var d, s := w.account.ledger.pending[j], w.system.lane;
    var a := Lane.Defer(s, d.reservation, true, limits.setup.bounds);
    HandsOffCases(w, j, limits);
    DeferredBooks(s, d.reservation, limits.setup);
    if a.result.Success? {
      var n := a.result.value;
      HandedAdmitted(w, limits, k);
      NumbersAdmitted(s, limits.setup);
      HandOffHolds(w.system, a.state, w.closures, w.trace.handed, n, Handoff(d, Runs(w.trace.waiting, j)),
                   Work(d.reservation, n, s.charges.held[d.reservation].size, 1, false, true, None), k, start);
    }
  }

  /** Learning and contributing touch neither the lane's books nor the store nor any handoff. */
  lemma LearnsApart(w: Engine, j: ProgressHistory.Key, steps: nat, run: Timing.Run, limits: Settings)
    ensures var v := Learns(w, j, steps, run, limits);
      && v.system.lane.books == w.system.lane.books && v.system.world == w.system.world
      && v.closures == w.closures && v.trace.handed == w.trace.handed
  {
  }

  lemma SameKept(s: Flushing.System, t: Flushing.System, closures: map<nat, Handoff>, handed: seq<nat>, k: ProgressHistory.Key, start: nat)
    requires Kept(s, closures, handed, k, start) && t.lane.books == s.lane.books && t.world == s.world
    ensures Kept(t, closures, handed, k, start)
  {
    hide Works, Offered, Arrived, RowIsFold;
  }

  lemma StepKeeps(w: Engine, e: Learning.Event, limits: Settings, k: ProgressHistory.Key, start: nat)
    requires Inv(w, limits) && Traced(w, k) && Kept(w.system, w.closures, w.trace.handed, k, start)
    requires Learning.Enabled(w, e) && Undisturbed(w, e, k, limits.setup.config)
    ensures var v := Learning.Step(w, e, limits); Kept(v.system, v.closures, v.trace.handed, k, start)
  {
    hide *;
    StepCases(w, e, limits);
    match e
    case OnSystem(a) => SystemKeeps(w, a, limits, k, start);
    case OnRun(j, steps, run) =>
      LearnsApart(w, j, steps, run, limits);
      SameKept(w.system, Learns(w, j, steps, run, limits).system, w.closures, w.trace.handed, k, start);
    case OnRead(_) =>
    case OnHandOff(j) => HandOffKeeps(w, j, limits, k, start);
  }

  // ---- every run ------------------------------------------------------------------------------------------------

  ghost predicate AllUndisturbed(w: Engine, events: seq<Learning.Event>, limits: Settings, k: ProgressHistory.Key)
  {
    events != [] ==>
      && AllUndisturbed(w, events[..|events| - 1], limits, k)
      && Undisturbed(Learning.Run(w, events[..|events| - 1], limits), events[|events| - 1], k, limits.setup.config)
  }

  /** The store has no row under the key. */
  predicate Absent(s: Store, k: ProgressHistory.Key) {
    k.TimingKey? && k.profile !in s.profiles
  }

  lemma StartKept(h: Stored.History, producer: Producer, k: ProgressHistory.Key)
    requires Absent(h.store, k)
    ensures var w := Learning.Start(h, producer);
      Traced(w, k) && Kept(w.system, w.closures, w.trace.handed, k, |h.log|)
  {
    assert h.log[|h.log|..] == [];
    assert DeltasOf([], k.stepCount) == [];
  }

  lemma NoSteps(w: Engine, limits: Settings)
    ensures Learning.Run(w, [], limits) == w
  {
    hide Learning.Step;
  }

  /** The last step of an undisturbed run. */
  lemma LastStep(w: Engine, events: seq<Learning.Event>, limits: Settings, k: ProgressHistory.Key)
    requires events != [] && Learning.Possible(w, events, limits) && AllUndisturbed(w, events, limits, k)
    ensures var init, e := events[..|events| - 1], events[|events| - 1];
      var before := Learning.Run(w, init, limits);
      && Learning.Possible(w, init, limits) && AllUndisturbed(w, init, limits, k)
      && Learning.Enabled(before, e) && Undisturbed(before, e, k, limits.setup.config) && k.TimingKey? && SoleOwner(e, k)
      && Learning.Run(w, events, limits) == Learning.Step(before, e, limits)
  {
    hide Learning.Step, Learning.Enabled, SoleOwner, ForeignLane, StoreDrops;
  }

  lemma {:induction false} EveryRunKeeps(h: Stored.History, producer: Producer, events: seq<Learning.Event>, limits: Settings,
                                         k: ProgressHistory.Key, start: nat)
    requires Absent(h.store, k) && Founded(h, producer, limits) && start == |h.log|
    requires Learning.Possible(Learning.Start(h, producer), events, limits)
    requires AllUndisturbed(Learning.Start(h, producer), events, limits, k)
    ensures var w := Learning.Run(Learning.Start(h, producer), events, limits);
      Inv(w, limits) && Traced(w, k) && Kept(w.system, w.closures, w.trace.handed, k, start)
  {
    hide *;
    EveryRunKeepsInv(h, producer, events, limits);
    if events == [] {
      StartKept(h, producer, k);
      NoSteps(Learning.Start(h, producer), limits);
    } else {
      var init, e := events[..|events| - 1], events[|events| - 1];
      LastStep(Learning.Start(h, producer), events, limits, k);
      EveryRunKeeps(h, producer, init, limits, k, start);
      EveryRunKeepsInv(h, producer, init, limits);
      var before := Learning.Run(Learning.Start(h, producer), init, limits);
      StepTraced(before, e, limits, k);
      StepKeeps(before, e, limits, k, start);
    }
  }

  lemma {:induction false} UnderPrefix(numbers: seq<nat>, f: nat)
    requires Protocol.Increasing(numbers)
    ensures Under(numbers, f) <= numbers
  {
    if numbers != [] {
      var init, last := numbers[..|numbers| - 1], numbers[|numbers| - 1];
      UnderPrefix(init, f);
      if last < f {
        forall n | n in init
          ensures n < f
        {
          var i :| 0 <= i < |init| && init[i] == n;
        }
        UnderAll(init, f);
      }
    }
  }

  /** What an empty profile learns from parts, if there is any. */
  ghost function Taught(parts: seq<seq<Timing.Run>>, steps: nat): Option<Timing.Profile> {
    if parts == [] then None else Some(Timing.LearnAll(Timing.EmptyProfile(steps), Timing.Flatten(parts)))
  }

  /** There is a row exactly if something was written, and it is the profile of the runs that were. */
  ghost predicate IsTheirProfile(row: Option<Timing.Profile>, parts: seq<seq<Timing.Run>>) {
    if parts == [] then row.None? else row.Some? && Lessons.ProfileOf(row.value, Timing.Flatten(parts))
  }

  lemma TaughtIsTheirs(parts: seq<seq<Timing.Run>>, steps: nat)
    requires AllValid(parts, steps)
    ensures IsTheirProfile(Taught(parts, steps), parts)
  {
    FlattenValid(parts, steps);
    Lessons.LearnedProfile(steps, Timing.Flatten(parts));
  }

  lemma PartMore(parts: seq<seq<Timing.Run>>, part: seq<Timing.Run>, steps: nat)
    requires AllValid(parts, steps) && Timing.ValidRuns(part, steps)
    ensures AllValid(parts + [part], steps)
  {
    forall i | 0 <= i < |parts + [part]|
      ensures Timing.ValidRuns((parts + [part])[i], steps)
    {
      assert (parts + [part])[i] == if i < |parts| then parts[i] else part;
    }
  }

  lemma {:induction false} PartsValid(numbers: seq<nat>, closures: map<nat, Handoff>, handed: seq<nat>, k: ProgressHistory.Key)
    requires k.TimingKey? && Handoffs(closures, handed)
    requires forall n :: n in closures && IsFor(closures[n], k.profile) ==> closures[n].delta.key == k
    ensures AllValid(PartsOf(numbers, closures, k.profile), k.stepCount)
  {
    if numbers != [] {
      var n := numbers[|numbers| - 1];
      var before := PartsOf(numbers[..|numbers| - 1], closures, k.profile);
      PartsValid(numbers[..|numbers| - 1], closures, handed, k);
      if n in closures && IsFor(closures[n], k.profile) {
        assert DeltaOf(closures[n].delta, k, closures[n].runs);
        PartMore(before, closures[n].runs, k.stepCount);
      } else {
        assert before + [] == before;
      }
    }
  }

  lemma RowIsTaught(w: Engine, k: ProgressHistory.Key, start: nat)
    requires k.TimingKey? && Traced(w, k) && Kept(w.system, w.closures, w.trace.handed, k, start)
    requires Clean(w.system.world.lane, w.closures)
    ensures var f := Frontier(w.system.lane.books, w.system.world.lane, w.system.world.history.log);
      RowOf(w.system.world.history.store, k.profile) == Taught(PartsOf(Under(w.trace.handed, f), w.closures, k.profile), k.stepCount)
      && IsTheirProfile(RowOf(w.system.world.history.store, k.profile), PartsOf(Under(w.trace.handed, f), w.closures, k.profile))
  {
    var f := Frontier(w.system.lane.books, w.system.world.lane, w.system.world.history.log);
    PartsValid(Under(w.trace.handed, f), w.closures, w.trace.handed, k);
    FoldLearns(PartsOf(Under(w.trace.handed, f), w.closures, k.profile), k.stepCount);
    TaughtIsTheirs(PartsOf(Under(w.trace.handed, f), w.closures, k.profile), k.stepCount);
  }

  /**
    In every reachable state of an undisturbed run, with nothing lost: the runs offered under the key are those of its
    handoffs, in order, followed by those that wait. If no handoff failed, the row in the store is exactly what the
    runs of the handoffs written so far teach an empty profile, and those are the first ones.
   */
  lemma RunsAreSomewhere(h: Stored.History, producer: Producer, events: seq<Learning.Event>, limits: Settings, k: ProgressHistory.Key)
    requires Absent(h.store, k) && Founded(h, producer, limits)
    requires Learning.Possible(Learning.Start(h, producer), events, limits)
    requires AllUndisturbed(Learning.Start(h, producer), events, limits, k)
    ensures var w := Learning.Run(Learning.Start(h, producer), events, limits);
      var f := Frontier(w.system.lane.books, w.system.world.lane, w.system.world.history.log);
      var written := Under(w.trace.handed, f);
      && (w.account.ledger.lost == 0 ==>
            Runs(w.trace.offered, k) == Timing.Flatten(PartsOf(w.trace.handed, w.closures, k.profile)) + Runs(w.trace.waiting, k))
      && written <= w.trace.handed
      && (Clean(w.system.world.lane, w.closures) ==>
            && RowOf(w.system.world.history.store, k.profile) == Taught(PartsOf(written, w.closures, k.profile), k.stepCount)
            && IsTheirProfile(RowOf(w.system.world.history.store, k.profile), PartsOf(written, w.closures, k.profile)))
  {
    hide Learning.Run, Learning.Possible, AllUndisturbed, Inv, Kept, Founded;
    EveryRunKeeps(h, producer, events, limits, k, |h.log|);
    var w := Learning.Run(Learning.Start(h, producer), events, limits);
    UnderPrefix(w.trace.handed, Frontier(w.system.lane.books, w.system.world.lane, w.system.world.history.log));
    if Clean(w.system.world.lane, w.closures) {
      RowIsTaught(w, k, |h.log|);
    }
  }

  // ---- the end -----------------------------------------------------------------------------------------------------

  /** Nothing lost and nothing in flight: every handoff was acknowledged True. */
  lemma AllTold(w: Engine, limits: Settings)
    requires Inv(w, limits) && Honoured(w.account.ledger.lost, w.credited)
    requires w.account.ledger.lost == 0 && w.account.ledger.inflight == 0
    ensures forall n :: n in w.closures ==> Flushing.ToldTrue(w.system.world.lane, n)
  {
    hide WasCredited, Flushing.AppliedOnce, Flushing.ToldTrue, Past;
    assert Flushing.Look(w.system);
    assert w.account.out == map[] by {
      assert ProgressHistory.Look(w.account);
      assert |w.account.out.Keys| == 0;
    }
    CreditsMean(w, limits);
    forall n | n in w.closures
      ensures Flushing.ToldTrue(w.system.world.lane, n)
    {
      assert WasCredited(w, n);
      var i :| 0 <= i < |w.credited| && w.credited[i].number == n;
      assert w.credited[i].committed;
    }
  }

  /** Then the frontier is beyond all of them. */
  lemma AllWritten(k: Lane.Books, l: Protocol.Lane, log: seq<Batch>, handed: seq<nat>, closures: map<nat, Handoff>)
    requires Flushing.Joint(k, l) && Protocol.Answering(l, log) && LostAnswers.Placed(l) && Around(k, l, handed)
    requires Handoffs(closures, handed) && forall n :: n in closures ==> Flushing.ToldTrue(l, n)
    ensures Clean(l, closures) && Under(handed, Frontier(k, l, log)) == handed
  {
    hide Under;
    var f := Frontier(k, l, log);
    if l.current.Some? {
      WritingJobs(k, l, log);
    }
    forall n | n in handed
      ensures n < f
    {
      assert n in closures && n < l.next;
      if f != l.next {
        NoJob(k.current, l.jobs, n);
      }
    }
    UnderAll(handed, f);
  }

  /** A number that is not among the jobs is not in the batch. */
  lemma NoJob(current: seq<Work>, jobs: set<nat>, n: nat)
    requires n !in jobs && forall i :: 0 <= i < |current| ==> current[i].number in jobs
    ensures !InWorks(current, n)
  {
  }

  /** With nothing lost and nothing in flight every handoff is in the store. */
  lemma AllArrived(w: Engine, limits: Settings)
    requires Inv(w, limits) && Handoffs(w.closures, w.trace.handed) && Honoured(w.account.ledger.lost, w.credited)
    requires w.account.ledger.lost == 0 && w.account.ledger.inflight == 0
    ensures Clean(w.system.world.lane, w.closures)
    ensures Under(w.trace.handed, Frontier(w.system.lane.books, w.system.world.lane, w.system.world.history.log)) == w.trace.handed
  {
    assert Flushing.Look(w.system);
    AllTold(w, limits);
    AroundHolds(w, limits);
    AllWritten(w.system.lane.books, w.system.world.lane, w.system.world.history.log, w.trace.handed, w.closures);
  }

  lemma RowIsMemory(w: Engine, limits: Settings, k: ProgressHistory.Key, start: nat)
    requires Inv(w, limits) && Traced(w, k) && Kept(w.system, w.closures, w.trace.handed, k, start)
    requires w.account.ledger.lost == 0 && w.account.ledger.inflight == 0 && k !in w.account.ledger.pending
    requires k in w.cache.profiles && k !in w.trace.evicted
    ensures RowOf(w.system.world.history.store, k.profile) == Some(w.cache.profiles[k])
  {
    AllArrived(w, limits);
    RowIsTaught(w, k, start);
    MemoryIsTaught(w.cache, w.trace, w.account.ledger, w.closures, k);
  }

  lemma MemoryIsTaught(c: ProgressHistory.Cache, t: Trace, l: ProgressHistory.Ledger, closures: map<nat, Handoff>, k: ProgressHistory.Key)
    requires k.TimingKey? && ProgressHistory.Exact(c) && Recalls(c, t, k) && Split(l.lost, t, closures, k) && Pendings(l.pending, t.waiting)
    requires l.lost == 0 && k !in l.pending && k in c.profiles && k !in t.evicted
    ensures Taught(PartsOf(t.handed, closures, k.profile), k.stepCount) == Some(c.profiles[k])
  {
    ProgressHistory.ExactFacts(c);
    var parts := PartsOf(t.handed, closures, k.profile);
    assert Runs(t.waiting, k) == [];
    assert Runs(t.offered, k) == Timing.Flatten(parts);
  }

  /**
    Memory and store agree: after an undisturbed run from a store without the key, with nothing lost, nothing pending
    under the key and nothing in flight, a profile that memory never gave up is the row of the store.
   */
  lemma MemoryAndStoreAgree(h: Stored.History, producer: Producer, events: seq<Learning.Event>, limits: Settings, k: ProgressHistory.Key)
    requires Absent(h.store, k) && Founded(h, producer, limits)
    requires Learning.Possible(Learning.Start(h, producer), events, limits)
    requires AllUndisturbed(Learning.Start(h, producer), events, limits, k)
    ensures var w := Learning.Run(Learning.Start(h, producer), events, limits);
      var l, s := w.account.ledger, w.system.world.history.store;
      l.lost == 0 && l.inflight == 0 && k !in l.pending && k in w.cache.profiles && k !in w.trace.evicted ==>
        k.profile in s.profiles && s.profiles[k.profile].profile == w.cache.profiles[k]
  {
    hide Learning.Run, Learning.Possible, AllUndisturbed, Inv, Kept, Founded, Traced;
    EveryRunKeeps(h, producer, events, limits, k, |h.log|);
    var w := Learning.Run(Learning.Start(h, producer), events, limits);
    var l := w.account.ledger;
    if l.lost == 0 && l.inflight == 0 && k !in l.pending && k in w.cache.profiles && k !in w.trace.evicted {
      RowIsMemory(w, limits, k, |h.log|);
    }
  }
}
