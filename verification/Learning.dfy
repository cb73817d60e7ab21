/** Learning on top of the lane and the store. */
module Learning {
  // Runs are learned in memory, contributed to deltas, handed to the lane as deferred profiles and acknowledged by its
  // callbacks. Nothing about capacity or callbacks is assumed here: the cache reservation, the handoff and every call of a
  // callback are the lane's own steps.

  import opened Wrappers
  import opened Totals
  import opened Tables
  import Stored = History
  import opened Reservations
  import opened Barriers
  import opened Acknowledgements
  import opened ProgressHistory
  import Flushing
  import Lane
  import LaneRuns
  import LostAnswers
  import Protocol
  import Timing

  /** What a callback was made with: its delta, and the runs the delta was learned from. */
  datatype Handoff = Handoff(delta: Delta, runs: seq<Timing.Run>)

  /**
    Runs as they were offered and as they wait in pending deltas, by key; the handoffs in their order; and the keys
    whose profile memory gave up at least once. Only for statements, no step depends on it.
   */
  datatype Trace = Trace(offered: map<Key, seq<Timing.Run>>, waiting: map<Key, seq<Timing.Run>>, handed: seq<nat>, evicted: set<Key>)

  /** `closures` are the callbacks handed to the lane, never taken back; `credited` are the calls they received. */
  datatype Engine = Engine(system: Flushing.System, account: Account, cache: Cache, closures: map<nat, Handoff>,
                           credited: seq<Call>, trace: Trace)

  datatype Settings = Settings(setup: LaneRuns.Setup, maxAttempts: nat, cache: CacheLimits, profiles: nat, bytes: nat)

  function Pending(limits: Settings): PendingLimits {
    PendingLimits(limits.profiles, limits.bytes, limits.setup.bounds.batchBytes)
  }

  /** Everything below the learning lock, a run, a read of a profile, or the handoff of one pending delta. */
  datatype Event =
    | OnSystem(e: Flushing.Event) | OnRun(k: Key, steps: nat, run: Timing.Run) | OnRead(k: Key) | OnHandOff(k: Key)

  function Runs(m: map<Key, seq<Timing.Run>>, k: Key): seq<Timing.Run> {
    if k in m then m[k] else []
  }

  function StoredContent(d: Delta): Content
    requires d.key.TimingKey?
  {
    Content([], [], [Aggregate(d.key.profile, d.profile)], None)
  }

  /** The builder the lane calls for one of our handoffs gives exactly its delta, or raises. */
  predicate Faithful(w: Engine, a: LaneRuns.Event) {
    a.OnPrepare? && a.built.Built? && |w.system.lane.books.made| < |w.system.lane.books.current| ==>
      var n := w.system.lane.books.current[|w.system.lane.books.made|].number;
      n in w.closures ==> w.closures[n].delta.key.TimingKey? && a.built.content == StoredContent(w.closures[n].delta)
  }

  ghost predicate Enabled(w: Engine, e: Event) {
    match e
    case OnSystem(a) => Flushing.Enabled(w.system, a) && (a.OnLane? ==> Faithful(w, a.e))
    case OnRun(k, steps, run) => (k.TimingKey? ==> k.stepCount == steps) && Timing.ValidRun(run, steps)
    case OnRead(k) => k in w.cache.profiles
    case OnHandOff(k) => k in w.account.ledger.pending
  }

  // ---- steps ------------------------------------------------------------------------------------------------

  /** The lane is about to call one of our callbacks. */
  predicate Calls(w: Engine, a: Flushing.Event) {
    var k := w.system.lane.books;
    && a.OnLane? && a.e.OnAcknowledge? && k.released && k.callbacks.answered < |k.current|
    && k.current[k.callbacks.answered].profile && k.current[k.callbacks.answered].number in w.closures
  }

  /** The callback runs: it credits what it was made with, however often it is called. */
  function Credited(w: Engine, n: nat, committed: bool): Engine
    requires n in w.closures
  {
    var d := w.closures[n].delta;
    w.(account := Account(Acknowledged(w.account.ledger, ChargeOf()(d), RunsOf()(d), committed), w.account.out - {n}),
       credited := w.credited + [Call(n, committed)])
  }

  ghost function Below(w: Engine, a: Flushing.Event, limits: Settings): Engine {
    var v := if Calls(w, a) then Credited(w, w.system.lane.books.current[w.system.lane.books.callbacks.answered].number,
                                          Lane.Committing(w.system.lane.books))
             else w;
    v.(system := Flushing.Step(w.system, a, limits.setup, limits.maxAttempts))
  }

  /** The lane's answer to a reservation for a new delta, if one is asked for. */
  function Asked(w: Engine, k: Key, limits: Settings): Lane.Answer<Option<nat>>
    requires k.TimingKey?
  {
    if k in w.account.ledger.pending || !HasRoom(w.account.ledger, k, Pending(limits)) then Lane.Answer(w.system.lane, Success(None))
    else Lane.ReserveCache(w.system.lane, k.charge, limits.setup.bounds)
  }

  function Granted(w: Engine, k: Key, limits: Settings): Option<nat>
    requires k.TimingKey?
  {
    if Asked(w, k, limits).result.Success? then Asked(w, k, limits).result.value else None
  }

  /** `_contribute`, with the reservation it asks the lane for. */
  function Contributes(w: Engine, k: Key, run: Timing.Run, limits: Settings): Engine
    requires k.TimingKey?
  {
    var account := Took(w.account, k, run, Granted(w, k, limits), Pending(limits));
    w.(system := w.system.(lane := Asked(w, k, limits).state), account := account,
       trace := w.trace.(offered := w.trace.offered[k := Runs(w.trace.offered, k) + [run]],
                         waiting := if k in account.ledger.pending then w.trace.waiting[k := Runs(w.trace.waiting, k) + [run]]
                                    else w.trace.waiting))
  }

  predicate Oversize(k: Key, steps: nat, limits: CacheLimits) {
    steps > limits.steps || Charge(k, steps) > limits.bytes
  }

  function Kept(c: Cache, k: Key, run: Timing.Run, steps: nat, limits: CacheLimits): Cache
    requires k in c.profiles ==> k in c.base && k in c.since
  {
    if Oversize(k, steps, limits) then c else TrimmedCache(Remembered(c, k, run, steps), limits)
  }

  /** The profile in memory after a run, and who had to go for it. */
  function Keeps(w: Engine, k: Key, run: Timing.Run, steps: nat, limits: CacheLimits): Engine {
    if k in w.cache.profiles && (k !in w.cache.base || k !in w.cache.since) then w
    else
      var cache := Kept(w.cache, k, run, steps, limits);
      w.(cache := cache, trace := w.trace.(evicted := w.trace.evicted + GivenUp(w.cache, cache, k, steps, limits)))
  }

  /** Whose profile does not have every run any more. */
  function GivenUp(before: Cache, after: Cache, k: Key, steps: nat, limits: CacheLimits): set<Key> {
    if Oversize(k, steps, limits) then {k} else (before.profiles.Keys + {k}) - after.profiles.Keys
  }

  /** `_commit`: a mismatching profile raises, otherwise the run is contributed and learned. */
  function Learns(w: Engine, k: Key, steps: nat, run: Timing.Run, limits: Settings): Engine {
    if Mismatched(w.cache.profiles, k, steps) then w
    else
      var v := if k.TimingKey? then Contributes(w, k, run, limits) else w;
      Keeps(v, k, run, steps, limits.cache)
  }

  /** One step of `_drain_profiles`: the lane takes the delta under a number and owes its callback, or refuses. */
  function HandsOff(w: Engine, k: Key, limits: Settings): Engine
    requires k in w.account.ledger.pending
  {
    var d := w.account.ledger.pending[k];
    var a := Lane.Defer(w.system.lane, d.reservation, true, limits.setup.bounds);
    var n := if a.result.Success? then Some(a.result.value) else None;
    w.(system := w.system.(lane := a.state), account := Drained1(w.account, k, n),
       closures := if n.Some? then w.closures[n.value := Handoff(d, Runs(w.trace.waiting, k))] else w.closures,
       trace := w.trace.(waiting := w.trace.waiting - {k}, handed := if n.Some? then w.trace.handed + [n.value] else w.trace.handed))
  }

  ghost function Step(w: Engine, e: Event, limits: Settings): Engine {
    match e
    case OnSystem(a) => Below(w, a, limits)
    case OnRun(k, steps, run) => Learns(w, k, steps, run, limits)
    case OnRead(k) => if k in w.cache.profiles then w.(cache := Touched(w.cache, k)) else w
    case OnHandOff(k) => if k in w.account.ledger.pending then HandsOff(w, k, limits) else w
  }

  /** What the cases of a step are. */
  lemma StepCases(w: Engine, e: Event, limits: Settings)
    ensures var v := Step(w, e, limits);
      match e
      case OnSystem(a) =>
        && v == Below(w, a, limits) && v.system == Flushing.Step(w.system, a, limits.setup, limits.maxAttempts)
        && v.closures == w.closures && v.trace == w.trace && v.cache == w.cache && (Enabled(w, e) ==> Flushing.Enabled(w.system, a))
      case OnRun(k, steps, run) =>
        v == Learns(w, k, steps, run, limits) && (Enabled(w, e) ==> (k.TimingKey? ==> k.stepCount == steps) && Timing.ValidRun(run, steps))
      case OnRead(k) =>
        && v == w.(cache := v.cache) && (k in w.cache.profiles ==> v.cache == Touched(w.cache, k))
        && (Enabled(w, e) ==> k in w.cache.profiles)
      case OnHandOff(k) => (Enabled(w, e) ==> k in w.account.ledger.pending) && (k in w.account.ledger.pending ==> v == HandsOff(w, k, limits))
  {
    hide Flushing.Step, Learns, Touched, HandsOff, Flushing.Enabled, Acknowledged, Timing.ValidRun;
  }

  /** What a handoff comes to when the lane takes it, and when it does not. */
  lemma HandsOffCases(w: Engine, k: Key, limits: Settings)
    requires k in w.account.ledger.pending
    ensures var v, d := HandsOff(w, k, limits), w.account.ledger.pending[k];
      var a := Lane.Defer(w.system.lane, d.reservation, true, limits.setup.bounds);
      && v.system == w.system.(lane := a.state)
      && v.closures == (if a.result.Success? then w.closures[a.result.value := Handoff(d, Runs(w.trace.waiting, k))] else w.closures)
      && v.trace.handed == (if a.result.Success? then w.trace.handed + [a.result.value] else w.trace.handed)
  {
    hide Lane.Defer, Drained1;
  }

  /** The lane reserves capacity for a new delta of this charge. */
  ghost predicate Reserves(s: Lane.State, charge: nat, b: Bounds) {
    && s.mode.phase == Lane.Open && !s.mode.closing && |s.charges.held.Keys| < b.pendingItems
    && s.charges.pending + charge <= b.pendingBytes && s.charges.detail + charge <= b.pendingBytes - b.protectedBytes
  }

  /** A run is contributed to the waiting delta of its key, or to a new one if there is room and a reservation, or lost. */
  lemma RunContributed(w: Engine, k: Key, run: Timing.Run, limits: Settings)
    requires k.TimingKey?
    ensures var v := Contributes(w, k, run, limits);
      var l, m := w.account.ledger, v.account.ledger;
      var takes := k in l.pending
                   || (|l.pending.Keys| + l.inflight < limits.profiles && l.bytes + k.charge <= limits.bytes
                       && k.charge <= limits.setup.bounds.batchBytes && Reserves(w.system.lane, k.charge, limits.setup.bounds));
      && v.cache == w.cache && v.closures == w.closures && v.account.out == w.account.out && v.system.world == w.system.world
      && v.trace.offered == w.trace.offered[k := Runs(w.trace.offered, k) + [run]]
      && if takes then
           && k in m.pending && m.pending - {k} == l.pending - {k} && m.lost == l.lost
           && m.pending[k].profile
              == Timing.Learn(if k in l.pending then l.pending[k].profile else Timing.EmptyProfile(k.stepCount), run)
           && v.trace.waiting == w.trace.waiting[k := Runs(w.trace.waiting, k) + [run]]
         else m.pending == l.pending && m.lost == l.lost + 1 && v.trace.waiting == w.trace.waiting
  {
    hide Timing.Learn;
  }

  /** A run is learned in memory too, unless its profile would be too large to keep at all. */
  lemma RunLearned(w: Engine, k: Key, steps: nat, run: Timing.Run, limits: Settings)
    requires Exact(w.cache) && limits.cache.profiles >= 1
    ensures var v := Learns(w, k, steps, run, limits);
      if k in w.cache.profiles && |w.cache.profiles[k].steps| != steps then v == w
      else
        && v.account == (if k.TimingKey? then Contributes(w, k, run, limits) else w).account
        && if steps > limits.cache.steps || Charge(k, steps) > limits.cache.bytes then v.cache == w.cache && k in v.trace.evicted
           else ProgressHistory.Kept(w.cache, v.cache, k, steps, run, Timing.Learn(Prior(w.cache.profiles, k, steps), run), limits.cache)
  {
    hide Exact, ProgressHistory.Kept, Contributes, Remembered, TrimmedCache;
    ExactFacts(w.cache);
    if !Mismatched(w.cache.profiles, k, steps) {
      if k.TimingKey? {
        ContributesAside(w, k, run, limits);
      }
      if !Oversize(k, steps, limits.cache) {
        StoredKept(w.cache, k, run, steps, limits.cache);
      }
    }
  }

  lemma ContributesAside(w: Engine, k: Key, run: Timing.Run, limits: Settings)
    requires k.TimingKey?
    ensures Contributes(w, k, run, limits).cache == w.cache
  {
  }

  /** A waiting delta goes to the lane as it is, under the next number, or is lost when the lane refuses it. */
  lemma DeltaHandedOver(w: Engine, k: Key, limits: Settings)
    requires k in w.account.ledger.pending
    ensures var v, s, d := HandsOff(w, k, limits), w.system.lane, w.account.ledger.pending[k];
      var free := d.reservation in s.charges.held && s.charges.held[d.reservation].number == 0;
      var takes := free && !s.mode.unavailable && !s.mode.closing
                   && s.charges.held[d.reservation].size <= limits.setup.bounds.batchBytes;
      && v.account.ledger.pending == w.account.ledger.pending - {k} && v.cache == w.cache
      && if takes then
           var n := s.books.admitted + 1;
           && v.closures == w.closures[n := Handoff(d, Runs(w.trace.waiting, k))] && v.account.out == w.account.out[n := d]
           && v.account.ledger.lost == w.account.ledger.lost && v.trace.handed == w.trace.handed + [n]
           && v.system.lane.books.admitted == n && v.system.lane.books.callbacks.owed == s.books.callbacks.owed + {n}
         else
           && v.system == w.system && v.closures == w.closures && v.account.out == w.account.out
           && v.account.ledger.lost == w.account.ledger.lost + d.profile.runs && v.trace.handed == w.trace.handed
  {
  }

  // ---- what every step keeps --------------------------------------------------------------------------------

  /** The deltas in flight are the closures the lane has not called; every call of a closure was credited, once. */
  ghost predicate Credits(w: Engine, calls: seq<Call>) {
    && (forall n :: n in w.account.out <==> n in w.closures && !Called(calls, n))
    && (forall n :: n in w.account.out ==> w.account.out[n] == w.closures[n].delta)
    && (forall i, j :: 0 <= i < j < |w.credited| ==> w.credited[i].number != w.credited[j].number)
    && (forall i :: 0 <= i < |w.credited| ==> w.credited[i].number in w.closures && w.credited[i] in calls)
    && (forall i :: 0 <= i < |calls| && calls[i].number in w.closures ==> calls[i] in w.credited)
  }

  function CallbacksOf(w: Engine): Callbacks {
    w.system.lane.books.callbacks
  }

  ghost predicate Inv(w: Engine, limits: Settings) {
    && Flushing.Linked(w.system, limits.setup) && Conserved(w.account, Pending(limits)) && Exact(w.cache)
    && w.closures.Keys <= CallbacksOf(w).owed && Credits(w, CallbacksOf(w).calls)
  }

  lemma InvFacts(w: Engine, limits: Settings)
    requires Inv(w, limits)
    ensures Lane.Valid(w.system.lane, limits.setup.bounds, limits.setup.config) && Flushing.Linked(w.system, limits.setup)
    ensures Protocol.Inv(w.system.world, limits.setup.config.policy) && Protocol.Answering(w.system.world.lane, w.system.world.history.log)
    ensures LostAnswers.Placed(w.system.world.lane) && Flushing.Joint(w.system.lane.books, w.system.world.lane)
    ensures w.closures.Keys <= CallbacksOf(w).owed && Credits(w, CallbacksOf(w).calls)
    ensures Conserved(w.account, Pending(limits)) && Exact(w.cache)
  {
    hide Lane.Valid, LaneRuns.WellBatched, LostAnswers.Placed, Flushing.Joint, Credits, Protocol.Answering, Protocol.Offering, Protocol.Applying;
    assert Flushing.Look(w.system);
  }

  lemma {:induction false} OwedCoalesced(k: Lane.Books, b: Bounds)
    requires k.current != []
    ensures Lane.Coalesced(k, b).callbacks == k.callbacks
    decreases |k.queue|
  {
    if Lane.Joins(k.current, k.queue, b) {
      OwedCoalesced(Lane.Absorbed(k), b);
    }
  }

  /** Nothing owed is ever dropped. */
  lemma OwedGrows(s: Lane.State, e: LaneRuns.Event, u: LaneRuns.Setup)
    ensures s.books.callbacks.owed <= LaneRuns.Step(s, e, u).books.callbacks.owed
  {
    if e.OnCoalesce? && s.books.current != [] {
      OwedCoalesced(s.books, u.bounds);
    }
  }

  /** A step of lane and store calls at most the callback whose turn it is. */
  lemma SystemCalls(s: Flushing.System, a: Flushing.Event, u: LaneRuns.Setup, maxAttempts: nat)
    ensures var k, l := s.lane.books, Flushing.Step(s, a, u, maxAttempts).lane.books;
      && k.callbacks.owed <= l.callbacks.owed
      && (if a.OnLane? && a.e.OnAcknowledge? && k.released && k.callbacks.answered < |k.current| && k.current[k.callbacks.answered].profile
          then l.callbacks.calls == k.callbacks.calls + [Call(k.current[k.callbacks.answered].number, Lane.Committing(k))]
          else l.callbacks.calls == k.callbacks.calls)
  {
    match a
    case OnLane(e) =>
      LaneRuns.StepCalls(s.lane, e, u);
      OwedGrows(s.lane, e, u);
    case OnFinish =>
      var e := LaneRuns.OnFinish(Flushing.Failing(s.lane.books, s.world.lane));
      LaneRuns.StepCalls(s.lane, e, u);
      OwedGrows(s.lane, e, u);
    case OnBegin(_, _) =>
    case OnStore(_) =>
  }

  lemma CalledMore(calls: seq<Call>, c: Call, n: nat)
    ensures Called(calls + [c], n) <==> Called(calls, n) || n == c.number
  {
    if Called(calls, n) {
      var i :| 0 <= i < |calls| && calls[i].number == n;
      assert (calls + [c])[i] == calls[i];
    }
    assert (calls + [c])[|calls|] == c;
  }

  /** A callback that was not called before is in flight; calling it credits it. */
  lemma CreditedCredits(w: Engine, calls: seq<Call>, n: nat, committed: bool)
    requires Credits(w, calls) && n in w.closures && !Called(calls, n)
    ensures Credits(Credited(w, n, committed), calls + [Call(n, committed)])
  {
    hide Acknowledged, ChargeOf, RunsOf;
    var v, more := Credited(w, n, committed), calls + [Call(n, committed)];
    forall m: nat
      ensures Called(more, m) <==> Called(calls, m) || m == n
    {
      CalledMore(calls, Call(n, committed), m);
    }
    ListedMore(w.credited, calls, w.closures, Call(n, committed));
  }

  /** A new call of one of ours joins both lists. */
  lemma ListedMore(credited: seq<Call>, calls: seq<Call>, closures: map<nat, Handoff>, c: Call)
    requires !Called(calls, c.number) && c.number in closures
    requires forall i, j :: 0 <= i < j < |credited| ==> credited[i].number != credited[j].number
    requires forall i :: 0 <= i < |credited| ==> credited[i].number in closures && credited[i] in calls
    requires forall i :: 0 <= i < |calls| && calls[i].number in closures ==> calls[i] in credited
    ensures var more := credited + [c]; forall i, j :: 0 <= i < j < |more| ==> more[i].number != more[j].number
    ensures forall i :: 0 <= i < |credited + [c]| ==> (credited + [c])[i].number in closures && (credited + [c])[i] in calls + [c]
    ensures forall i :: 0 <= i < |calls + [c]| && (calls + [c])[i].number in closures ==> (calls + [c])[i] in credited + [c]
  {
    forall i | 0 <= i < |credited|
      ensures credited[i].number != c.number
    {
      var j :| 0 <= j < |calls| && calls[j] == credited[i];
    }
    forall d | d in calls + [c] && d.number in closures
      ensures d in credited + [c]
    {
      assert d in calls ==> d in credited;
    }
    forall d | d in credited + [c]
      ensures d.number in closures && d in calls + [c]
    {
      assert d in credited ==> d in calls;
    }
  }

  /** A call of somebody else's callback changes nothing here. */
  lemma OtherCredits(w: Engine, calls: seq<Call>, c: Call)
    requires Credits(w, calls) && c.number !in w.closures
    ensures Credits(w, calls + [c])
  {
    forall n: nat
      ensures Called(calls + [c], n) <==> Called(calls, n) || n == c.number
    {
      CalledMore(calls, c, n);
    }
    forall i | 0 <= i < |w.credited|
      ensures w.credited[i] in calls + [c]
    {
      assert w.credited[i] in calls;
      var j :| 0 <= j < |calls| && calls[j] == w.credited[i];
      assert (calls + [c])[j] == calls[j];
    }
  }

  /** The callback whose turn it is was not called before. */
  lemma TurnIsNew(s: Lane.State, b: Bounds, c: Config)
    requires Lane.Valid(s, b, c) && s.books.released && s.books.callbacks.answered < |s.books.current|
    requires s.books.current[s.books.callbacks.answered].profile
    ensures !Called(s.books.callbacks.calls, s.books.current[s.books.callbacks.answered].number)
  {
    LaneRuns.CallMeans(s, b, c);
  }

  lemma BelowCredits(w: Engine, a: Flushing.Event, limits: Settings)
    requires Inv(w, limits)
    ensures var v := Below(w, a, limits);
      && Conserved(v.account, Pending(limits)) && v.closures.Keys <= CallbacksOf(v).owed && Credits(v, CallbacksOf(v).calls)
  {
    hide Inv, Flushing.Step, Credits, Conserved, Acknowledged;
    InvFacts(w, limits);
    var k, v := w.system.lane.books, Below(w, a, limits);
    SystemCalls(w.system, a, limits.setup, limits.maxAttempts);
    if a.OnLane? && a.e.OnAcknowledge? && k.released && k.callbacks.answered < |k.current| && k.current[k.callbacks.answered].profile {
      var n, flag := k.current[k.callbacks.answered].number, Lane.Committing(k);
      TurnIsNew(w.system.lane, limits.setup.bounds, limits.setup.config);
      CallCredits(w, v, k.callbacks.calls, n, flag, Pending(limits));
    } else {
      CreditsOf(w, v, k.callbacks.calls);
    }
  }

  /** A callback is called: ours is credited, another's is not our business. */
  lemma CallCredits(w: Engine, v: Engine, calls: seq<Call>, n: nat, flag: bool, limits: PendingLimits)
    requires Credits(w, calls) && Conserved(w.account, limits) && !Called(calls, n)
    requires var x := if n in w.closures then Credited(w, n, flag) else w;
      v.account == x.account && v.closures == x.closures && v.credited == x.credited
    ensures Credits(v, calls + [Call(n, flag)]) && Conserved(v.account, limits)
  {
    if n in w.closures {
      AcknowledgedConserved(w.account, n, flag, limits);
      CreditedCredits(w, calls, n, flag);
      CreditsOf(Credited(w, n, flag), v, calls + [Call(n, flag)]);
    } else {
      OtherCredits(w, calls, Call(n, flag));
      CreditsOf(w, v, calls + [Call(n, flag)]);
    }
  }

  /** Credits depend on the account, the closures and the calls only. */
  lemma CreditsOf(w: Engine, v: Engine, calls: seq<Call>)
    requires Credits(w, calls) && v.account.out == w.account.out && v.closures == w.closures && v.credited == w.credited
    ensures Credits(v, calls)
  {
  }

  lemma BelowKeepsInv(w: Engine, a: Flushing.Event, limits: Settings)
    requires Inv(w, limits) && ValidBounds(limits.setup.bounds) && Flushing.Enabled(w.system, a)
    ensures Inv(Below(w, a, limits), limits)
  {
    hide Below, Flushing.Step, Flushing.Enabled, Flushing.Linked, Conserved, Exact, Credits;
    StepCases(w, OnSystem(a), limits);
    BelowCredits(w, a, limits);
    Flushing.StepKeepsLinked(w.system, a, limits.setup, limits.maxAttempts);
  }

  // ---- runs and handoffs --------------------------------------------------------------------------------------

  /** A step of an owner keeps lane and store linked. */
  lemma OwnerKeepsLinked(s: Flushing.System, t: Lane.State, e: LaneRuns.Event, u: LaneRuns.Setup, maxAttempts: nat)
    requires Flushing.Linked(s, u) && ValidBounds(u.bounds) && t == LaneRuns.Step(s.lane, e, u) && !e.OnFinish?
    ensures Flushing.Linked(s.(lane := t), u)
  {
    Flushing.LaneKeepsLinked(s, e, u, maxAttempts);
  }

  lemma ContributesKeepsInv(w: Engine, k: Key, run: Timing.Run, limits: Settings)
    requires Inv(w, limits) && ValidBounds(limits.setup.bounds) && k.TimingKey?
    ensures Inv(Contributes(w, k, run, limits), limits)
  {
    var v := Contributes(w, k, run, limits);
    ContributedConserved(w.account, k, run, Granted(w, k, limits), Pending(limits));
    CacheLinked(w.system, k.charge, limits.setup, limits.maxAttempts);
    CreditsOf(w, v, CallbacksOf(w).calls);
  }

  lemma CacheLinked(s: Flushing.System, bytes: nat, u: LaneRuns.Setup, maxAttempts: nat)
    requires Flushing.Linked(s, u) && ValidBounds(u.bounds)
    ensures var t := Lane.ReserveCache(s.lane, bytes, u.bounds).state; Flushing.Linked(s.(lane := t), u) && t.books == s.lane.books
    ensures s.(lane := s.lane) == s
  {
    OwnerKeepsLinked(s, Lane.ReserveCache(s.lane, bytes, u.bounds).state, LaneRuns.OnReserveCache(bytes), u, maxAttempts);
  }

  lemma KeepsKeepsInv(w: Engine, k: Key, run: Timing.Run, steps: nat, limits: Settings)
    requires Inv(w, limits)
    ensures Inv(Keeps(w, k, run, steps, limits.cache), limits)
  {
    var v := Keeps(w, k, run, steps, limits.cache);
    if v != w && !Oversize(k, steps, limits.cache) {
      RememberedExact(w.cache, k, run, steps);
      TrimmedExact(Remembered(w.cache, k, run, steps), limits.cache);
    }
    CreditsOf(w, v, CallbacksOf(w).calls);
  }

  lemma LearnsKeepsInv(w: Engine, k: Key, steps: nat, run: Timing.Run, limits: Settings)
    requires Inv(w, limits) && ValidBounds(limits.setup.bounds)
    ensures Inv(Learns(w, k, steps, run, limits), limits)
  {
    if !Mismatched(w.cache.profiles, k, steps) {
      if k.TimingKey? {
        ContributesKeepsInv(w, k, run, limits);
      }
      KeepsKeepsInv(if k.TimingKey? then Contributes(w, k, run, limits) else w, k, run, steps, limits);
    }
  }

  /** A handoff the lane takes gets a number nobody was owed before. */
  lemma NewNumber(s: Lane.State, id: nat, b: Bounds, c: Config)
    requires Lane.Valid(s, b, c)
    ensures var a := Lane.Defer(s, id, true, b);
      a.result.Success? ==>
        && a.result.value == s.books.admitted + 1 && a.result.value in a.state.books.callbacks.owed
        && a.result.value !in s.books.callbacks.owed && !Called(s.books.callbacks.calls, a.result.value)
  {
    LaneRuns.OwedNumbers(s, b, c);
  }

  lemma HandsOffCredits(w: Engine, v: Engine, calls: seq<Call>, n: nat, h: Handoff)
    requires Credits(w, calls) && n !in w.closures && !Called(calls, n)
    requires v.closures == w.closures[n := h] && v.account.out == w.account.out[n := h.delta] && v.credited == w.credited
    ensures Credits(v, calls)
  {
    forall i | 0 <= i < |calls|
      ensures calls[i].number != n
    {
    }
  }

  lemma HandsOffKeepsInv(w: Engine, k: Key, limits: Settings)
    requires Inv(w, limits) && ValidBounds(limits.setup.bounds) && k in w.account.ledger.pending
    ensures Inv(HandsOff(w, k, limits), limits)
  {
    assert Flushing.Look(w.system);
    var d := w.account.ledger.pending[k];
    HandsOffAccount(w, k, limits);
    DeferLinked(w.system, d.reservation, limits.setup, limits.maxAttempts);
  }

  lemma DeferLinked(s: Flushing.System, id: nat, u: LaneRuns.Setup, maxAttempts: nat)
    requires Flushing.Linked(s, u) && ValidBounds(u.bounds)
    ensures var t := Lane.Defer(s.lane, id, true, u.bounds).state;
      && Flushing.Linked(s.(lane := t), u) && t.books.callbacks.calls == s.lane.books.callbacks.calls
      && s.lane.books.callbacks.owed <= t.books.callbacks.owed
  {
    OwnerKeepsLinked(s, Lane.Defer(s.lane, id, true, u.bounds).state, LaneRuns.OnDefer(id, true), u, maxAttempts);
  }

  lemma HandsOffAccount(w: Engine, k: Key, limits: Settings)
    requires Lane.Valid(w.system.lane, limits.setup.bounds, limits.setup.config) && Conserved(w.account, Pending(limits))
    requires w.closures.Keys <= CallbacksOf(w).owed && Credits(w, CallbacksOf(w).calls) && k in w.account.ledger.pending
    ensures var v := HandsOff(w, k, limits);
      && Conserved(v.account, Pending(limits)) && Credits(v, CallbacksOf(w).calls) && v.closures.Keys <= CallbacksOf(v).owed
  {
    var v, d := HandsOff(w, k, limits), w.account.ledger.pending[k];
    var a := Lane.Defer(w.system.lane, d.reservation, true, limits.setup.bounds);
    NewNumber(w.system.lane, d.reservation, limits.setup.bounds, limits.setup.config);
    Drained1Conserved(w.account, k, if a.result.Success? then Some(a.result.value) else None, Pending(limits));
    if a.result.Success? {
      HandsOffCredits(w, v, CallbacksOf(w).calls, a.result.value, Handoff(d, Runs(w.trace.waiting, k)));
    } else {
      CreditsOf(w, v, CallbacksOf(w).calls);
    }
  }

  lemma ReadKeepsInv(w: Engine, k: Key, limits: Settings)
    requires Inv(w, limits) && k in w.cache.profiles
    ensures Inv(w.(cache := Touched(w.cache, k)), limits)
  {
    TouchedExact(w.cache, k);
    CreditsOf(w, w.(cache := Touched(w.cache, k)), CallbacksOf(w).calls);
  }

  lemma StepKeepsInv(w: Engine, e: Event, limits: Settings)
    requires Inv(w, limits) && ValidBounds(limits.setup.bounds) && Enabled(w, e)
    ensures Inv(Step(w, e, limits), limits)
  {
    hide *;
    StepCases(w, e, limits);
    match e
    case OnSystem(a) => BelowKeepsInv(w, a, limits);
    case OnRun(k, steps, run) => LearnsKeepsInv(w, k, steps, run, limits);
    case OnRead(k) => ReadKeepsInv(w, k, limits);
    case OnHandOff(k) => HandsOffKeepsInv(w, k, limits);
  }

  // ---- every run --------------------------------------------------------------------------------------------------

  const NO_TRACE := Trace(map[], map[], [], {})
  const EMPTY_CACHE := Cache([], map[], 0, 0, map[], map[])

  function Start(h: Stored.History, producer: Producer): Engine {
    Engine(Flushing.Start(h, producer), NOTHING, EMPTY_CACHE, map[], [], NO_TRACE)
  }

  ghost function Run(w: Engine, events: seq<Event>, limits: Settings): Engine {
    if events == [] then w else Step(Run(w, events[..|events| - 1], limits), events[|events| - 1], limits)
  }

  ghost predicate Possible(w: Engine, events: seq<Event>, limits: Settings) {
    events != [] ==>
      Possible(w, events[..|events| - 1], limits) && Enabled(Run(w, events[..|events| - 1], limits), events[|events| - 1])
  }

  ghost predicate Founded(h: Stored.History, producer: Producer, limits: Settings) {
    ValidBounds(limits.setup.bounds) && Stored.Consistent(h, limits.setup.config.policy) && Stored.CountOf(h.log, producer) == 0
  }

  lemma StartInv(h: Stored.History, producer: Producer, limits: Settings)
    requires Founded(h, producer, limits)
    ensures Inv(Start(h, producer), limits)
  {
    Flushing.StartLinked(h, producer, limits.setup);
    NothingConserved(Pending(limits));
    assert ExactParts(EMPTY_CACHE);
  }

  lemma {:induction false} EveryRunKeepsInv(h: Stored.History, producer: Producer, events: seq<Event>, limits: Settings)
    requires Founded(h, producer, limits) && Possible(Start(h, producer), events, limits)
    ensures Inv(Run(Start(h, producer), events, limits), limits)
  {
    hide Step, Enabled, Inv, Stored.Consistent, Stored.CountOf;
    if events == [] {
      StartInv(h, producer, limits);
    } else {
      var init := events[..|events| - 1];
      EveryRunKeepsInv(h, producer, init, limits);
      StepKeepsInv(Run(Start(h, producer), init, limits), events[|events| - 1], limits);
    }
  }

  ghost predicate WasCredited(w: Engine, n: nat) {
    exists i :: 0 <= i < |w.credited| && w.credited[i].number == n
  }

  /**
    Over every run: contributions are pending, in flight, acknowledged or lost, with exact bytes within the limits. A
    handoff is credited once, exactly when its turn came in its batch, so by the time that batch is settled; and what
    is credited as committed has exactly one entry in the store's log.
   */
  lemma EveryHandoffIsCreditedOnce(h: Stored.History, producer: Producer, events: seq<Event>, limits: Settings)
    requires Founded(h, producer, limits) && Possible(Start(h, producer), events, limits)
    ensures var w := Run(Start(h, producer), events, limits);
      var l, k := w.account.ledger, w.system.lane.books;
      && l.contributed == Total(l.pending, RunsOf()) + Total(w.account.out, RunsOf()) + l.acknowledged + l.lost
      && l.bytes == Total(l.pending, ChargeOf()) + Total(w.account.out, ChargeOf()) <= limits.bytes
      && l.inflight == |w.account.out.Keys| && |l.pending.Keys| + |w.account.out.Keys| <= limits.profiles
      && (forall i, j :: 0 <= i < j < |w.credited| ==> w.credited[i].number != w.credited[j].number)
      && (forall n :: n in w.closures ==>
            && (WasCredited(w, n) <==> Past(k.current, k.callbacks.answered, k.settled, n))
            && (WasCredited(w, n) <==> n !in w.account.out))
      && (forall i :: 0 <= i < |w.credited| ==>
            && w.credited[i].number in w.closures
            && (w.credited[i].committed <==> w.credited[i].number in k.committed)
            && (w.credited[i].committed ==> Flushing.AppliedOnce(w.system.world, w.credited[i].number)))
  {
    hide Run, Possible, Founded, Inv, Credits, Flushing.AppliedOnce, WasCredited, Past;
    EveryRunKeepsInv(h, producer, events, limits);
    var w := Run(Start(h, producer), events, limits);
    InvFacts(w, limits);
    assert ProgressHistory.Look(w.account);
    CreditsMean(w, limits);
  }

  lemma CreditedIffCalled(w: Engine, calls: seq<Call>, n: nat)
    requires Credits(w, calls) && n in w.closures
    ensures WasCredited(w, n) <==> Called(calls, n)
  {
    if Called(calls, n) {
      var i :| 0 <= i < |calls| && calls[i].number == n;
      assert calls[i] in w.credited;
      var j :| 0 <= j < |w.credited| && w.credited[j] == calls[i];
      assert w.credited[j].number == n;
    }
    if WasCredited(w, n) {
      var j :| 0 <= j < |w.credited| && w.credited[j].number == n;
      assert w.credited[j] in calls;
      var i :| 0 <= i < |calls| && calls[i] == w.credited[j];
      assert calls[i].number == n;
    }
  }

  lemma CreditedTruly(w: Engine, calls: seq<Call>, committed: set<nat>, i: nat)
    requires Credits(w, calls) && i < |w.credited|
    requires forall j :: 0 <= j < |calls| ==> (calls[j].committed <==> calls[j].number in committed)
    ensures w.credited[i].committed <==> w.credited[i].number in committed
  {
    assert w.credited[i] in calls;
    var j :| 0 <= j < |calls| && calls[j] == w.credited[i];
  }

  lemma CreditsMean(w: Engine, limits: Settings)
    requires Inv(w, limits)
    ensures forall i, j :: 0 <= i < j < |w.credited| ==> w.credited[i].number != w.credited[j].number
    ensures var k := w.system.lane.books;
      && (forall n :: n in w.closures ==>
            && (WasCredited(w, n) <==> Past(k.current, k.callbacks.answered, k.settled, n))
            && (WasCredited(w, n) <==> n !in w.account.out))
      && (forall i :: 0 <= i < |w.credited| ==>
            && w.credited[i].number in w.closures
            && (w.credited[i].committed <==> w.credited[i].number in k.committed)
            && (w.credited[i].committed ==> Flushing.AppliedOnce(w.system.world, w.credited[i].number)))
  {
    assert Flushing.Look(w.system);
    var k, calls := w.system.lane.books, CallbacksOf(w).calls;
    assert Lane.Calling(k) by {
      assert Lane.LookAtState(w.system.lane);
      assert Lane.LookBooks(k);
    }
    forall n | n in w.closures
      ensures WasCredited(w, n) <==> Called(calls, n)
    {
      CreditedIffCalled(w, calls, n);
    }
    forall i | 0 <= i < |w.credited|
      ensures w.credited[i].committed <==> w.credited[i].number in k.committed
      ensures w.credited[i].committed ==> Flushing.AppliedOnce(w.system.world, w.credited[i].number)
    {
      CreditedTruly(w, calls, k.committed, i);
      if w.credited[i].committed {
        Flushing.ToldTrueIsApplied(w.system.world, limits.setup.config.policy, w.credited[i].number);
      }
    }
  }
}
