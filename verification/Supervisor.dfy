/** Who may start, who may stop, and what becomes of failures. */
module Supervisor {
  // Over every interleaving of the regions that threads run under the supervisor's lock. A thread is where its last region
  // left it.

  import opened Wrappers

  datatype EngineState = CREATED | STARTING | RUNNING | STOPPING | STOPPED | FAILED

  /** Who executes a shutdown: a failed start, a caller of shutdown, or the thread a failure report started. */
  datatype Kind = Startup | Caller | Reporter

  /** `Spawning` is a report that has not started its thread yet; `Raised` an execution that escaped. */
  datatype Pc = Idle | Starting | Spawning | Claimed(kind: Kind) | Executing(kind: Kind) | Raised

  /** `startup` and `shutdown` are the two completion events; `lifecycle` is the thread that holds the lifecycle lock. */
  datatype State = State(
    state: EngineState, failure: Option<nat>, secondary: seq<nat>, cleanup: seq<nat>, started: bool, runtime: bool,
    startup: bool, shutdown: bool, lifecycle: Option<nat>, threads: map<nat, Pc>)

  const START := State(CREATED, None, [], [], false, false, true, true, None, map[])

  function PcOf(s: State, t: nat): Pc {
    if t in s.threads then s.threads[t] else Idle
  }

  function At(s: State, t: nat, pc: Pc): State {
    s.(threads := s.threads[t := pc])
  }

  function KindOf(pc: Pc): Kind {
    match pc
    case Claimed(kind) => kind
    case Executing(kind) => kind
    case _ => Reporter
  }

  // ---- failures -----------------------------------------------------------------------------------------

  /** `_record_failure_locked`: the first failure stays, later ones are only listed. */
  function Recorded(s: State, f: nat): State {
    if s.failure.None? then s.(failure := Some(f))
    else if s.failure == Some(f) then s
    else s.(secondary := s.secondary + [f])
  }

  /** `_record_cleanup_failure_locked`. */
  function CleanupRecorded(s: State, f: nat): State {
    var t := s.(cleanup := s.cleanup + [f]);
    if s.failure.None? then t.(failure := Some(f)) else t
  }

  // ---- regions --------------------------------------------------------------------------------------------

  /** `start` up to the runtime: the lifecycle lock is taken, and only a created engine starts. */
  function Start(s: State, t: nat): State {
    if s.state != CREATED then s
    else At(s.(state := STARTING, startup := false, lifecycle := Some(t)), t, Starting)
  }

  /** The end of `start`: running, or the owner of a shutdown that begins at once. */
  function StartEnd(s: State, t: nat): State {
    if s.failure.None? then At(s.(state := RUNNING, startup := true, lifecycle := None), t, Idle)
    else At(s.(state := STOPPING, started := true, shutdown := false), t, Executing(Startup))
  }

  datatype Claim = Wait | Done | Raise | Follow | Own

  /** What a call of `shutdown` finds under the lock. */
  function Claiming(s: State, onLoop: bool): Claim {
    if s.state == STARTING then Wait
    else if s.state == CREATED || s.state == STOPPED then Done
    else if s.state == FAILED && (!s.runtime || s.started) then Raise
    else if s.started then (if s.runtime && onLoop then Raise else Follow)
    else if !s.runtime || onLoop then Raise
    else Own
  }

  function Shutdown(s: State, t: nat, onLoop: bool): State {
    match Claiming(s, onLoop)
    case Own => At(s.(started := true, shutdown := false, state := STOPPING), t, Claimed(Caller))
    case Done => if s.state == CREATED then s.(state := STOPPED) else s
    case _ => s
  }

  /** `report_failure`: thread `t` is the one it will start if it has to stop a running engine. */
  function Report(s: State, f: nat, t: nat): State {
    var r := Recorded(s, f);
    if r.state == STOPPED then r.(state := FAILED, shutdown := true)
    else if r.state == RUNNING && !r.started then At(r.(started := true, shutdown := false, state := STOPPING), t, Spawning)
    else r
  }

  /** The thread could not be started: the shutdown is nobody's again. */
  function SpawnFailed(s: State, t: nat, f: nat): State {
    At(CleanupRecorded(s, f).(state := FAILED, started := false, shutdown := true), t, Idle)
  }

  /** The last region of `_execute_shutdown`, and the locks and events its caller releases. */
  function ExecuteEnd(s: State, t: nat): State {
    var startup := s.startup || PcOf(s, t) == Executing(Startup);
    At(s.(state := if s.failure.Some? then FAILED else STOPPED, shutdown := true, lifecycle := None, startup := startup), t, Idle)
  }

  /** An execution for a failure report escaped: its runtime may still be there for another shutdown. */
  function RaisedRecorded(s: State, t: nat, f: nat): State {
    At(CleanupRecorded(s, f).(state := FAILED, started := !s.runtime, shutdown := true), t, Idle)
  }

  /** An exception leaves a shutdown: only the thread of a report catches it, for others just the locks are released. */
  function Escape(s: State, t: nat): State {
    var pc := PcOf(s, t);
    var lifecycle := if pc.Executing? then None else s.lifecycle;
    At(s.(lifecycle := lifecycle, startup := s.startup || pc == Executing(Startup)), t,
       if KindOf(pc) == Reporter then Raised else Idle)
  }

  datatype Event =
    | OnStart(t: nat) | OnInstall(t: nat) | OnStartFailure(t: nat, f: nat) | OnStartEnd(t: nat)
    | OnShutdown(t: nat, onLoop: bool) | OnAcquire(t: nat) | OnReport(f: nat, t: nat)
    | OnSpawned(t: nat) | OnSpawnFailed(t: nat, f: nat)
    | OnCleanupFailure(t: nat, f: nat) | OnCloseRuntime(t: nat) | OnExecuteEnd(t: nat)
    | OnEscape(t: nat) | OnRaised(t: nat, f: nat)

  /**
    A region runs when its thread has reached it and its lock is free. A start without a failure has installed its
    runtime. An exception may escape whoever waits to execute a shutdown or executes it, at any time.
   */
  predicate Enabled(s: State, e: Event) {
    match e
    case OnStart(t) => PcOf(s, t) == Idle && s.lifecycle.None?
    case OnInstall(t) => PcOf(s, t) == Starting
    case OnStartFailure(t, _) => PcOf(s, t) == Starting
    case OnStartEnd(t) => PcOf(s, t) == Starting && (s.runtime || s.failure.Some?)
    case OnShutdown(t, _) => PcOf(s, t) == Idle
    case OnAcquire(t) => PcOf(s, t).Claimed? && s.lifecycle.None?
    case OnReport(_, t) => PcOf(s, t) == Idle
    case OnSpawned(t) => PcOf(s, t) == Spawning
    case OnSpawnFailed(t, _) => PcOf(s, t) == Spawning
    case OnCleanupFailure(t, _) => PcOf(s, t).Executing?
    case OnCloseRuntime(t) => PcOf(s, t).Executing?
    case OnExecuteEnd(t) => PcOf(s, t).Executing?
    case OnEscape(t) => PcOf(s, t).Claimed? || PcOf(s, t).Executing?
    case OnRaised(t, _) => PcOf(s, t) == Raised
  }

  function Step(s: State, e: Event): State {
    match e
    case OnStart(t) => Start(s, t)
    case OnInstall(t) => s.(runtime := true)
    case OnStartFailure(t, f) => Recorded(s, f)
    case OnStartEnd(t) => StartEnd(s, t)
    case OnShutdown(t, onLoop) => Shutdown(s, t, onLoop)
    case OnAcquire(t) => At(s.(lifecycle := Some(t)), t, Executing(KindOf(PcOf(s, t))))
    case OnReport(f, t) => Report(s, f, t)
    case OnSpawned(t) => At(s, t, Claimed(Reporter))
    case OnSpawnFailed(t, f) => SpawnFailed(s, t, f)
    case OnCleanupFailure(t, f) => CleanupRecorded(s, f)
    case OnCloseRuntime(t) => s.(runtime := false)
    case OnExecuteEnd(t) => ExecuteEnd(s, t)
    case OnEscape(t) => Escape(s, t)
    case OnRaised(t, f) => RaisedRecorded(s, t, f)
  }

  // ---- what every interleaving keeps -----------------------------------------------------------------------

  /** The thread owns the current shutdown. */
  predicate Owns(pc: Pc) {
    pc.Spawning? || pc.Claimed? || pc.Executing? || pc.Raised?
  }

  predicate HoldsLock(pc: Pc) {
    pc.Starting? || pc.Executing?
  }

  ghost predicate OneOwner(s: State) {
    forall t: nat, u: nat :: Owns(PcOf(s, t)) && Owns(PcOf(s, u)) ==> t == u
  }

  ghost predicate LockHolder(s: State) {
    forall t: nat :: HoldsLock(PcOf(s, t)) <==> s.lifecycle == Some(t)
  }

  /** A shutdown is owned only while STOPPING; STARTING is exactly the time somebody starts. */
  ghost predicate Occupied(s: State) {
    && (forall t: nat :: Owns(PcOf(s, t)) ==> s.state == STOPPING)
    && (forall t: nat :: PcOf(s, t) == Starting ==> s.state == STARTING)
    && (s.state == STARTING ==> exists t: nat :: PcOf(s, t) == Starting)
  }

  /** A running engine has no failure, a failed one has; waiters wait exactly while STOPPING. */
  ghost predicate Healthy(s: State) {
    && (s.state == RUNNING ==> s.failure.None? && !s.started && s.runtime)
    && (s.state == FAILED ==> s.failure.Some?)
    && (s.state == CREATED ==> !s.started && !s.runtime)
    && (s.state == STARTING ==> !s.started)
    && (s.state == STOPPING ==> s.started)
    && (s.shutdown <==> s.state != STOPPING)
  }

  ghost predicate Inv(s: State) {
    OneOwner(s) && LockHolder(s) && Occupied(s) && Healthy(s)
  }

  /** Recording a failure touches the records only. */
  ghost predicate RecordsOnly(s: State, f: nat) {
    var r, c := Recorded(s, f), CleanupRecorded(s, f);
    && r == s.(failure := r.failure, secondary := r.secondary) && c == s.(failure := c.failure, cleanup := c.cleanup)
    && r.failure == c.failure == Some(if s.failure.Some? then s.failure.value else f)
  }

  lemma RecordsMean(s: State, f: nat)
    ensures RecordsOnly(s, f)
  {
  }

  lemma RecordsOf(s: State, e: Event)
    ensures match e
      case OnStartFailure(_, f) => RecordsOnly(s, f)
      case OnReport(f, _) => RecordsOnly(s, f)
      case OnSpawnFailed(_, f) => RecordsOnly(s, f)
      case OnCleanupFailure(_, f) => RecordsOnly(s, f)
      case OnRaised(_, f) => RecordsOnly(s, f)
      case _ => true
  {
    hide RecordsOnly;
    match e
    case OnStartFailure(_, f) => RecordsMean(s, f);
    case OnReport(f, _) => RecordsMean(s, f);
    case OnSpawnFailed(_, f) => RecordsMean(s, f);
    case OnCleanupFailure(_, f) => RecordsMean(s, f);
    case OnRaised(_, f) => RecordsMean(s, f);
    case _ =>
  }

  /** A region moves only its own thread. */
  lemma OthersStay(s: State, e: Event, t: nat)
    requires t != e.t
    ensures PcOf(Step(s, e), t) == PcOf(s, t)
  {
    hide Recorded, CleanupRecorded;
    RecordsOf(s, e);
  }

  /** A thread becomes an owner only when there is none. */
  lemma NewOwner(s: State, e: Event)
    requires Inv(s) && Enabled(s, e) && Owns(PcOf(Step(s, e), e.t)) && !Owns(PcOf(s, e.t))
    ensures forall t: nat :: !Owns(PcOf(s, t))
  {
    assert s.state == STARTING || s.state == RUNNING || s.state == FAILED;
  }

  lemma StepKeepsOwner(s: State, e: Event)
    requires Inv(s) && Enabled(s, e)
    ensures OneOwner(Step(s, e))
  {
    var n := Step(s, e);
    if Owns(PcOf(n, e.t)) && !Owns(PcOf(s, e.t)) {
      NewOwner(s, e);
    }
    forall t: nat, u: nat | Owns(PcOf(n, t)) && Owns(PcOf(n, u))
      ensures t == u
    {
      if t != e.t {
        OthersStay(s, e, t);
      }
      if u != e.t {
        OthersStay(s, e, u);
      }
    }
  }

  lemma OwnLock(s: State, e: Event)
    requires LockHolder(s) && Enabled(s, e)
    ensures HoldsLock(PcOf(Step(s, e), e.t)) <==> Step(s, e).lifecycle == Some(e.t)
  {
    hide Recorded, CleanupRecorded;
    RecordsOf(s, e);
    assert HoldsLock(PcOf(s, e.t)) <==> s.lifecycle == Some(e.t);
  }

  /** The lifecycle lock goes only from nobody to the moving thread or from it to nobody. */
  lemma LockMoves(s: State, e: Event)
    requires LockHolder(s) && Enabled(s, e)
    ensures var before, after := s.lifecycle, Step(s, e).lifecycle;
      after != before ==> (before.None? || before == Some(e.t)) && (after.None? || after == Some(e.t))
  {
    hide Recorded, CleanupRecorded;
    RecordsOf(s, e);
    assert HoldsLock(PcOf(s, e.t)) <==> s.lifecycle == Some(e.t);
  }

  lemma StepKeepsLock(s: State, e: Event)
    requires Inv(s) && Enabled(s, e)
    ensures LockHolder(Step(s, e))
  {
    var n := Step(s, e);
    OwnLock(s, e);
    LockMoves(s, e);
    forall t: nat
      ensures HoldsLock(PcOf(n, t)) <==> n.lifecycle == Some(t)
    {
      if t != e.t {
        OthersStay(s, e, t);
      }
    }
  }

  lemma StepKeepsHealth(s: State, e: Event)
    requires Inv(s) && Enabled(s, e)
    ensures Healthy(Step(s, e))
  {
    hide Recorded, CleanupRecorded;
    RecordsOf(s, e);
  }

  /** What the moving thread's new place says about the engine's state, and the other way round. */
  lemma OwnPlace(s: State, e: Event)
    requires Inv(s) && Enabled(s, e)
    ensures var n := Step(s, e);
      && (Owns(PcOf(n, e.t)) ==> n.state == STOPPING)
      && (PcOf(n, e.t) == Starting ==> n.state == STARTING)
      && (n.state == STARTING && PcOf(n, e.t) != Starting ==> s.state == STARTING && PcOf(s, e.t) != Starting)
      && (s.state == STOPPING && !Owns(PcOf(s, e.t)) ==> n.state == STOPPING)
      && (s.state == STARTING && PcOf(s, e.t) != Starting ==> n.state == STARTING)
  {
    hide Recorded, CleanupRecorded;
    RecordsOf(s, e);
  }

  lemma StepKeepsOccupied(s: State, e: Event)
    requires Inv(s) && Enabled(s, e)
    ensures Occupied(Step(s, e))
  {
    var n := Step(s, e);
    OwnPlace(s, e);
    forall t: nat | t != e.t
      ensures PcOf(n, t) == PcOf(s, t)
    {
      OthersStay(s, e, t);
    }
    OthersPlaces(s, n, e.t);
  }

  lemma OthersPlaces(s: State, n: State, own: nat)
    requires OneOwner(s) && LockHolder(s) && Occupied(s)
    requires forall t: nat :: t != own ==> PcOf(n, t) == PcOf(s, t)
    requires Owns(PcOf(n, own)) ==> n.state == STOPPING
    requires PcOf(n, own) == Starting ==> n.state == STARTING
    requires n.state == STARTING && PcOf(n, own) != Starting ==> s.state == STARTING && PcOf(s, own) != Starting
    requires s.state == STOPPING && !Owns(PcOf(s, own)) ==> n.state == STOPPING
    requires s.state == STARTING && PcOf(s, own) != Starting ==> n.state == STARTING
    ensures Occupied(n)
  {
    if n.state == STARTING && PcOf(n, own) != Starting {
      var t: nat :| PcOf(s, t) == Starting;
      assert PcOf(n, t) == Starting;
    }
  }

  lemma StepKeepsInv(s: State, e: Event)
    requires Inv(s) && Enabled(s, e)
    ensures Inv(Step(s, e))
  {
    StepKeepsOwner(s, e);
    StepKeepsLock(s, e);
    StepKeepsHealth(s, e);
    StepKeepsOccupied(s, e);
  }

  predicate Over(state: EngineState) {
    state == STOPPING || state == STOPPED || state == FAILED
  }

  /** The first failure is never overwritten and an engine that began to stop never runs again. */
  lemma StepMovesForward(s: State, e: Event)
    requires Inv(s) && Enabled(s, e)
    ensures s.failure.Some? ==> Step(s, e).failure == s.failure
    ensures Over(s.state) ==> Over(Step(s, e).state)
  {
  }

  ghost function Run(events: seq<Event>): State {
    if events == [] then START else Step(Run(events[..|events| - 1]), events[|events| - 1])
  }

  ghost predicate Possible(events: seq<Event>) {
    events != [] ==> Possible(events[..|events| - 1]) && Enabled(Run(events[..|events| - 1]), events[|events| - 1])
  }

  lemma {:induction false} EveryRunKeepsInv(events: seq<Event>)
    requires Possible(events)
    ensures Inv(Run(events))
  {
    if events != [] {
      EveryRunKeepsInv(events[..|events| - 1]);
      StepKeepsInv(Run(events[..|events| - 1]), events[|events| - 1]);
    }
  }

  // ---- what each region means to its caller -------------------------------------------------------------------

  ghost predicate Ownerless(s: State) {
    forall t: nat :: !Owns(PcOf(s, t))
  }

  ghost predicate OwnedBy(s: State, t: nat) {
    forall u: nat :: Owns(PcOf(s, u)) <==> u == t
  }

  predicate FirstKept(s: State, n: State) {
    s.failure.Some? ==> n.failure == s.failure
  }

  /** Who becomes the owner is alone. */
  lemma OwnerComes(s: State, e: Event)
    requires Inv(s) && Enabled(s, e) && Owns(PcOf(Step(s, e), e.t)) && !Owns(PcOf(s, e.t))
    ensures Ownerless(s) && OwnedBy(Step(s, e), e.t)
  {
    NewOwner(s, e);
    forall u: nat | u != e.t
      ensures !Owns(PcOf(Step(s, e), u))
    {
      OthersStay(s, e, u);
    }
  }

  /** With the lifecycle lock in hand no start is under way: only an engine that began to stop refuses. */
  lemma StartRefusal(s: State, t: nat)
    requires Inv(s) && Enabled(s, OnStart(t))
    ensures s.state == RUNNING || s.state == CREATED || Over(s.state)
  {
  }

  /**
    The owner is alone. A follower waits for a shutdown under way, and who is told Done sees a stopped engine. Raise
    means a failed engine or a call on the runtime's own loop, never a runtime that is missing.
   */
  lemma ClaimMeans(s: State, t: nat, onLoop: bool)
    requires Inv(s) && Enabled(s, OnShutdown(t, onLoop))
    ensures var n := Shutdown(s, t, onLoop);
      match Claiming(s, onLoop)
      case Wait => n == s && exists u: nat :: PcOf(s, u) == Starting
      case Done => n.state == STOPPED && Ownerless(n)
      case Raise => n == s && ((s.state == FAILED && s.failure.Some?) || (onLoop && s.runtime))
      case Follow => n == s && s.state == STOPPING && !s.shutdown
      case Own => n.state == STOPPING && n.runtime && !onLoop && Ownerless(s) && OwnedBy(n, t)
  {
    if Claiming(s, onLoop) == Own {
      OwnerComes(s, OnShutdown(t, onLoop));
    } else if Claiming(s, onLoop) == Done {
      StepKeepsInv(s, OnShutdown(t, onLoop));
    }
  }

  /** After a report the engine neither runs nor counts as stopped, and the reporter owns its shutdown if it ran. */
  lemma ReportMeans(s: State, f: nat, t: nat)
    requires Inv(s) && Enabled(s, OnReport(f, t))
    ensures var n := Report(s, f, t);
      && n.failure == Some(if s.failure.Some? then s.failure.value else f)
      && n.state != RUNNING && n.state != STOPPED
      && (s.state == RUNNING ==> Ownerless(s) && OwnedBy(n, t))
      && (s.state != RUNNING ==> forall u: nat :: Owns(PcOf(n, u)) <==> Owns(PcOf(s, u)))
  {
    if s.state == RUNNING {
      OwnerComes(s, OnReport(f, t));
    }
  }

  /** The owner gives its shutdown up: nobody owns one, waiters are released, and the first failure is still the first. */
  ghost predicate GivenUp(s: State, n: State) {
    Ownerless(n) && n.shutdown && n.failure.Some? && n.state == FAILED && FirstKept(s, n)
  }

  lemma OwnerLeaves(s: State, n: State, t: nat)
    requires Inv(s) && Owns(PcOf(s, t)) && !Owns(PcOf(n, t)) && forall u: nat :: u != t ==> PcOf(n, u) == PcOf(s, u)
    ensures Ownerless(n)
  {
  }

  /** A thread that cannot start, or an execution that raised: another shutdown may follow as long as a runtime is there. */
  lemma AbandonedMeans(s: State, e: Event)
    requires Inv(s) && Enabled(s, e) && (e.OnSpawnFailed? || e.OnRaised?)
    ensures GivenUp(s, Step(s, e))
    ensures Claiming(Step(s, e), false) == if s.runtime then Own else Raise
  {
    var n := Step(s, e);
    forall u: nat | u != e.t
      ensures PcOf(n, u) == PcOf(s, u)
    {
      OthersStay(s, e, u);
    }
    OwnerLeaves(s, n, e.t);
  }

  lemma ExecutedMeans(s: State, t: nat)
    requires Inv(s) && Enabled(s, OnExecuteEnd(t))
    ensures var n := ExecuteEnd(s, t);
      && Ownerless(n) && n.lifecycle.None? && n.shutdown && n.failure == s.failure
      && n.state == (if s.failure.Some? then FAILED else STOPPED)
  {
    var n := ExecuteEnd(s, t);
    forall u: nat | u != t
      ensures PcOf(n, u) == PcOf(s, u)
    {
      OthersStay(s, OnExecuteEnd(t), u);
    }
    OwnerLeaves(s, n, t);
  }

  lemma StartedMeans(s: State, t: nat)
    requires Inv(s) && Enabled(s, OnStartEnd(t))
    ensures var n := StartEnd(s, t);
      if s.failure.None? then n.state == RUNNING && n.runtime && n.lifecycle.None? && Ownerless(n) && n.startup
      else n.state == STOPPING && OwnedBy(n, t) && n.lifecycle == Some(t) && n.failure == s.failure
  {
    if s.failure.Some? {
      OwnerComes(s, OnStartEnd(t));
    } else {
      forall u: nat | u != t
        ensures PcOf(StartEnd(s, t), u) == PcOf(s, u)
      {
        OthersStay(s, OnStartEnd(t), u);
      }
    }
  }

  // ---- who waits for a start --------------------------------------------------------------------------------

  /** The thread is starting the engine or executing the shutdown of its failed start. */
  predicate InStart(pc: Pc) {
    pc == Starting || pc == Executing(Startup)
  }

  /** The start is signalled as over exactly when no thread is in it. */
  ghost predicate Signalled(s: State) {
    && (s.startup <==> forall t: nat :: !InStart(PcOf(s, t)))
    && forall t: nat :: PcOf(s, t) != Claimed(Startup)
  }

  lemma OneInStart(s: State, t: nat, u: nat)
    requires LockHolder(s) && InStart(PcOf(s, t)) && InStart(PcOf(s, u))
    ensures t == u
  {
  }

  lemma OwnSignal(s: State, e: Event)
    requires Inv(s) && Signalled(s) && Enabled(s, e)
    ensures PcOf(Step(s, e), e.t) != Claimed(Startup)
    ensures Step(s, e).startup == if InStart(PcOf(s, e.t)) || InStart(PcOf(Step(s, e), e.t)) then !InStart(PcOf(Step(s, e), e.t)) else s.startup
  {
    hide Recorded, CleanupRecorded;
    RecordsOf(s, e);
    assert InStart(PcOf(s, e.t)) ==> !s.startup;
  }

  lemma StepKeepsSignalled(s: State, e: Event)
    requires Inv(s) && Signalled(s) && Enabled(s, e)
    ensures Signalled(Step(s, e))
  {
    hide Step;
    var n := Step(s, e);
    OwnSignal(s, e);
    StepKeepsInv(s, e);
    forall t: nat | t != e.t
      ensures PcOf(n, t) == PcOf(s, t)
    {
      OthersStay(s, e, t);
    }
    SignalFollows(s, n, e.t);
  }

  lemma SignalFollows(s: State, n: State, own: nat)
    requires LockHolder(s) && LockHolder(n) && Signalled(s) && PcOf(n, own) != Claimed(Startup)
    requires n.startup == if InStart(PcOf(s, own)) || InStart(PcOf(n, own)) then !InStart(PcOf(n, own)) else s.startup
    requires forall t: nat :: t != own ==> PcOf(n, t) == PcOf(s, t)
    ensures Signalled(n)
  {
    forall t: nat | t != own && InStart(PcOf(s, t))
      ensures !InStart(PcOf(s, own)) && !InStart(PcOf(n, own))
    {
      assert HoldsLock(PcOf(s, t)) && HoldsLock(PcOf(n, t));
    }
  }

  /** Over every run: whoever waits for a start waits exactly as long as a thread is in it. */
  lemma {:induction false} StartIsSignalled(events: seq<Event>)
    requires Possible(events)
    ensures Signalled(Run(events))
  {
    if events != [] {
      var init := events[..|events| - 1];
      StartIsSignalled(init);
      EveryRunKeepsInv(init);
      StepKeepsSignalled(Run(init), events[|events| - 1]);
    }
  }

  // ---- shutdowns nobody will finish -------------------------------------------------------------------------

  /** Waiters wait and nobody owns the shutdown they wait for. */
  ghost predicate Orphaned(s: State) {
    s.state == STOPPING && Ownerless(s)
  }

  /** An exception leaves the shutdown of a caller or of a failed start. */
  predicate Escapes(s: State, e: Event) {
    e.OnEscape? && KindOf(PcOf(s, e.t)) != Reporter
  }

  lemma OrphanedForGood(s: State, e: Event)
    requires Inv(s) && Enabled(s, e) && Orphaned(s)
    ensures Orphaned(Step(s, e)) && !Escapes(s, e)
  {
    var n := Step(s, e);
    assert !Owns(PcOf(s, e.t));
    forall t: nat
      ensures !Owns(PcOf(n, t))
    {
      if t != e.t {
        OthersStay(s, e, t);
      }
    }
  }

  lemma OrphanedBy(s: State, e: Event)
    requires Inv(s) && Enabled(s, e) && !Orphaned(s)
    ensures Orphaned(Step(s, e)) <==> Escapes(s, e)
  {
    var n := Step(s, e);
    if Escapes(s, e) {
      forall t: nat
        ensures !Owns(PcOf(n, t))
      {
        if t != e.t {
          OthersStay(s, e, t);
        }
      }
    } else if n.state == STOPPING && !Owns(PcOf(n, e.t)) {
      assert s.state == STOPPING;
      var t: nat :| Owns(PcOf(s, t));
      OthersStay(s, e, t);
    }
  }

  ghost predicate EscapedAt(events: seq<Event>, i: nat) {
    i < |events| && Escapes(Run(events[..i]), events[i])
  }

  lemma EscapedBefore(events: seq<Event>)
    requires events != []
    ensures var n := |events| - 1;
      (exists i :: EscapedAt(events, i)) <==> (exists i :: EscapedAt(events[..n], i)) || EscapedAt(events, n)
  {
    var n := |events| - 1;
    forall i: nat | i < n
      ensures EscapedAt(events, i) <==> EscapedAt(events[..n], i)
    {
      assert events[..n][..i] == events[..i];
    }
  }

  /** A stopping engine has lost its owner exactly when an exception escaped a caller's shutdown or a failed start's. */
  lemma {:induction false} OrphanedExactly(events: seq<Event>)
    requires Possible(events)
    ensures Orphaned(Run(events)) <==> exists i :: EscapedAt(events, i)
  {
    if events != [] {
      var n := |events| - 1;
      var before, e := Run(events[..n]), events[n];
      OrphanedExactly(events[..n]);
      EveryRunKeepsInv(events[..n]);
      EscapedBefore(events);
      if Orphaned(before) {
        OrphanedForGood(before, e);
      } else {
        OrphanedBy(before, e);
      }
    }
  }

  /**
    Over all interleavings: at most one shutdown execution, a runtime but neither failure nor owner while running,
    waiters exactly while stopping, and then an owner unless its exception escaped; failed engines have a failure.
   */
  lemma Lifecycle(events: seq<Event>)
    requires Possible(events)
    ensures var s := Run(events);
      && (forall t: nat, u: nat :: PcOf(s, t).Executing? && PcOf(s, u).Executing? ==> t == u)
      && (s.state == RUNNING ==> s.runtime && s.failure.None? && !s.started && forall t: nat :: !Owns(PcOf(s, t)))
      && (s.state == FAILED ==> s.failure.Some?)
      && (!s.shutdown <==> s.state == STOPPING)
      && (!s.shutdown ==> ((exists t: nat :: Owns(PcOf(s, t))) <==> !exists i :: EscapedAt(events, i)))
  {
    EveryRunKeepsInv(events);
    OrphanedExactly(events);
  }

  // ---- failures that are forgotten ----------------------------------------------------------------------------

  predicate Forgotten(s: State) {
    s.state == STOPPED && s.failure.Some?
  }

  /** A shutdown finds an engine that never started although a failure was reported to it. */
  predicate Forgets(s: State, e: Event) {
    e.OnShutdown? && s.state == CREATED && s.failure.Some?
  }

  lemma ForgottenBy(s: State, e: Event)
    requires Inv(s) && Enabled(s, e)
    ensures Forgotten(Step(s, e)) <==> Forgets(s, e) || (Forgotten(s) && !e.OnReport?)
  {
  }

  /** Step `i` forgets a failure and no report has followed it. */
  ghost predicate ForgottenAt(events: seq<Event>, i: nat) {
    i < |events| && Forgets(Run(events[..i]), events[i]) && forall j :: i < j < |events| ==> !events[j].OnReport?
  }

  lemma ForgottenBefore(events: seq<Event>)
    requires events != []
    ensures var n := |events| - 1;
      forall i: nat :: i < n ==> (ForgottenAt(events, i) <==> ForgottenAt(events[..n], i) && !events[n].OnReport?)
  {
    var n := |events| - 1;
    forall i: nat | i < n
      ensures ForgottenAt(events, i) <==> ForgottenAt(events[..n], i) && !events[n].OnReport?
    {
      assert events[..n][..i] == events[..i];
      assert forall j :: i < j < n ==> events[..n][j] == events[j];
    }
  }

  /** An engine is stopped with a failure exactly when a shutdown before the start met one and no report came since. */
  lemma {:induction false} ForgottenExactly(events: seq<Event>)
    requires Possible(events)
    ensures Forgotten(Run(events)) <==> exists i :: ForgottenAt(events, i)
  {
    if events != [] {
      var n := |events| - 1;
      var before, e := Run(events[..n]), events[n];
      ForgottenExactly(events[..n]);
      EveryRunKeepsInv(events[..n]);
      ForgottenBy(before, e);
      ForgottenBefore(events);
      assert ForgottenAt(events, n) <==> Forgets(before, e);
    }
  }

  lemma {:induction false} LaterRuns(events: seq<Event>, more: seq<Event>)
    requires Possible(events + more)
    ensures Possible(events) && (Run(events).failure.Some? ==> Run(events + more).failure == Run(events).failure)
    ensures Over(Run(events).state) ==> Over(Run(events + more).state)
    decreases |more|
  {
    if more == [] {
      assert events + more == events;
    } else {
      var init := more[..|more| - 1];
      assert (events + more)[..|events + more| - 1] == events + init;
      LaterRuns(events, init);
      EveryRunKeepsInv(events + init);
      StepMovesForward(Run(events + init), more[|more| - 1]);
    }
  }

  lemma {:induction false} TwoSteps(a: Event, b: Event)
    requires Enabled(START, a) && Enabled(Step(START, a), b)
    ensures Possible([a, b]) && Run([a, b]) == Step(Step(START, a), b)
  {
    assert [] + [a] == [a] && [a] + [b] == [a, b];
    OneMore([], a);
    OneMore([a], b);
  }

  /** A report, then a shutdown, and the engine is stopped with a failure. */
  lemma EarlyReportIsForgotten(f: nat, t: nat)
    ensures Possible([OnReport(f, t), OnShutdown(t, false)]) && Forgotten(Run([OnReport(f, t), OnShutdown(t, false)]))
  {
    TwoSteps(OnReport(f, t), OnShutdown(t, false));
  }

  lemma {:induction false} OneMore(events: seq<Event>, e: Event)
    requires Possible(events) && Enabled(Run(events), e)
    ensures Possible(events + [e]) && Run(events + [e]) == Step(Run(events), e)
  {
    assert (events + [e])[..|events|] == events;
  }

  /** A caller's shutdown escapes and leaves an engine that stops for ever. */
  lemma EscapeOrphans(t: nat)
    ensures var events := [OnStart(t), OnInstall(t)] + [OnStartEnd(t)] + [OnShutdown(t, false)] + [OnAcquire(t)] + [OnEscape(t)];
      Possible(events) && Orphaned(Run(events))
  {
    hide Recorded, CleanupRecorded, Run, Possible;
    var events := [OnStart(t), OnInstall(t)];
    TwoSteps(OnStart(t), OnInstall(t));
    OneMore(events, OnStartEnd(t));
    OneMore(events + [OnStartEnd(t)], OnShutdown(t, false));
    OneMore(events + [OnStartEnd(t)] + [OnShutdown(t, false)], OnAcquire(t));
    OneMore(events + [OnStartEnd(t)] + [OnShutdown(t, false)] + [OnAcquire(t)], OnEscape(t));
  }

  // ---- the supervisor ------------------------------------------------------------------------------------------

  /** The object: each method is one region under its lock, run by thread `t`. */
  class EngineSupervisor {
    var state: EngineState
    var failure: Option<nat>
    var secondary: seq<nat>
    var cleanup: seq<nat>
    var started: bool
    var runtime: bool
    var startupComplete: bool
    var shutdownComplete: bool
    /** Where the threads are and which of them holds the lifecycle lock; for the contracts only. */
    ghost var lifecycle: Option<nat>
    ghost var threads: map<nat, Pc>

    ghost function View(): State
      reads this
    {
      State(state, failure, secondary, cleanup, started, runtime, startupComplete, shutdownComplete, lifecycle, threads)
    }

    /** What every region finds and leaves, whichever thread ran before. */
    ghost predicate Valid()
      reads this
    {
      Inv(View())
    }

    constructor ()
      ensures Valid() && View() == START
    {
      state, failure, secondary, cleanup, started, runtime := CREATED, None, [], [], false, false;
      startupComplete, shutdownComplete, lifecycle, threads := true, true, None, map[];
    }

    method RecordFailure(f: nat)
      modifies this`failure, this`secondary
      ensures View() == Recorded(old(View()), f) && FirstKept(old(View()), View())
      ensures failure == Some(if old(failure).Some? then old(failure).value else f)
      ensures secondary == old(secondary) + (if old(failure).Some? && old(failure).value != f then [f] else [])
    {
      if failure.None? {
        failure := Some(f);
      } else if failure != Some(f) {
        secondary := secondary + [f];
      }
    }

    method RecordCleanupFailure(f: nat)
      modifies this`failure, this`cleanup
      ensures View() == CleanupRecorded(old(View()), f) && FirstKept(old(View()), View())
      ensures failure == Some(if old(failure).Some? then old(failure).value else f) && cleanup == old(cleanup) + [f]
    {
      cleanup := cleanup + [f];
      if failure.None? {
        failure := Some(f);
      }
    }

    /** The thread holds the lifecycle lock: it starts the engine, finds it running, or finds it over. */
    method BeginStart(ghost t: nat) returns (r: Result<bool>)
      requires Valid() && Enabled(View(), OnStart(t))
      modifies this`state, this`startupComplete, this`lifecycle, this`threads
      ensures Valid() && View() == Step(old(View()), OnStart(t))
      ensures r == Success(true) ==> old(state) == CREATED && state == STARTING && lifecycle == Some(t) && Ownerless(View())
      ensures r == Success(false) ==> View() == old(View()) && state == RUNNING && failure.None? && Ownerless(View())
      ensures r.Failure? ==> View() == old(View()) && Over(state)
    {
      StartRefusal(View(), t);
      StepKeepsInv(View(), OnStart(t));
      if state == RUNNING {
        return Success(false);
      }
      if state != CREATED {
        return Failure(Contract);
      }
      state, startupComplete := STARTING, false;
      lifecycle, threads := Some(t), threads[t := Starting];
      r := Success(true);
    }

    /** Either everybody is released and the engine runs, or the starting thread is the one owner of its shutdown. */
    method FinishStart(ghost t: nat) returns (running: bool)
      requires Valid() && Enabled(View(), OnStartEnd(t))
      modifies this`state, this`startupComplete, this`started, this`shutdownComplete, this`lifecycle, this`threads
      ensures Valid() && View() == Step(old(View()), OnStartEnd(t)) && running == failure.None? && failure == old(failure)
      ensures running ==> state == RUNNING && startupComplete && lifecycle.None? && Ownerless(View())
      ensures !running ==> state == STOPPING && lifecycle == Some(t) && OwnedBy(View(), t)
    {
      hide Inv, Enabled, Ownerless, OwnedBy, GivenUp;
      StartedMeans(View(), t);
      StepKeepsInv(View(), OnStartEnd(t));
      running := failure.None?;
      if running {
        state, startupComplete := RUNNING, true;
        lifecycle, threads := None, threads[t := Idle];
      } else {
        state, started, shutdownComplete := STOPPING, true, false;
        threads := threads[t := Executing(Startup)];
      }
    }

    /** The region of `shutdown`: who comes out of it as the owner is the only one. */
    method ClaimShutdown(ghost t: nat, onLoop: bool) returns (claim: Claim)
      requires Valid() && Enabled(View(), OnShutdown(t, onLoop))
      modifies this`state, this`started, this`shutdownComplete, this`threads
      ensures Valid() && View() == Step(old(View()), OnShutdown(t, onLoop)) && claim == Claiming(old(View()), onLoop)
      ensures claim == Own ==> old(Ownerless(View())) && OwnedBy(View(), t) && state == STOPPING && runtime && !onLoop
      ensures claim == Follow ==> state == STOPPING && !shutdownComplete
      ensures claim == Done ==> state == STOPPED && Ownerless(View())
      ensures claim == Wait ==> state == STARTING && exists u: nat :: PcOf(View(), u) == Starting
      ensures claim == Raise ==> (state == FAILED && failure.Some?) || (onLoop && runtime)
    {
      hide Inv, Enabled;
      ClaimMeans(View(), t, onLoop);
      StepKeepsInv(View(), OnShutdown(t, onLoop));
      if state == STARTING {
        return Wait;
      }
      if state == CREATED {
        state := STOPPED;
        return Done;
      }
      if state == STOPPED {
        return Done;
      }
      if state == FAILED && (!runtime || started) {
        return Raise;
      }
      if started {
        return if runtime && onLoop then Raise else Follow;
      }
      if !runtime || onLoop {
        return Raise;
      }
      started, shutdownComplete, state := true, false, STOPPING;
      threads := threads[t := Claimed(Caller)];
      claim := Own;
    }

    /** The first failure stays; the engine neither runs nor counts as stopped after it. */
    method ReportFailure(f: nat, ghost t: nat) returns (starts: bool)
      requires Valid() && Enabled(View(), OnReport(f, t))
      modifies this`failure, this`secondary, this`state, this`started, this`shutdownComplete, this`threads
      ensures Valid() && View() == Step(old(View()), OnReport(f, t))
      ensures failure == Some(if old(failure).Some? then old(failure).value else f)
      ensures state != RUNNING && state != STOPPED && (starts <==> old(state) == RUNNING)
      ensures starts ==> old(Ownerless(View())) && OwnedBy(View(), t)
      ensures !starts ==> forall u: nat :: Owns(PcOf(View(), u)) <==> old(Owns(PcOf(View(), u)))
    {
      hide Inv, Enabled, Ownerless, OwnedBy, GivenUp;
      ReportMeans(View(), f, t);
      StepKeepsInv(View(), OnReport(f, t));
      RecordFailure(f);
      starts := false;
      if state == STOPPED {
        state, shutdownComplete := FAILED, true;
      } else if state == RUNNING && !started {
        started, shutdownComplete, state, starts := true, false, STOPPING, true;
        threads := threads[t := Spawning];
      }
    }

    /** Nobody owns the shutdown any more and its waiters are released; a caller of shutdown becomes the next owner. */
    method ThreadFailed(ghost t: nat, f: nat)
      requires Valid() && Enabled(View(), OnSpawnFailed(t, f))
      modifies this`failure, this`cleanup, this`state, this`started, this`shutdownComplete, this`threads
      ensures Valid() && View() == Step(old(View()), OnSpawnFailed(t, f)) && GivenUp(old(View()), View())
      ensures Claiming(View(), false) == if runtime then Own else Raise
    {
      hide Inv, Enabled, Ownerless, OwnedBy, GivenUp;
      AbandonedMeans(View(), OnSpawnFailed(t, f));
      StepKeepsInv(View(), OnSpawnFailed(t, f));
      RecordCleanupFailure(f);
      state, started, shutdownComplete := FAILED, false, true;
      threads := threads[t := Idle];
    }

    /** The last region of `_execute_shutdown`; a failed start also sets its own event after it. */
    method FinishShutdown(ghost t: nat, kind: Kind)
      requires Valid() && PcOf(View(), t) == Executing(kind)
      modifies this`state, this`shutdownComplete, this`startupComplete, this`lifecycle, this`threads
      ensures Valid() && View() == Step(old(View()), OnExecuteEnd(t))
      ensures Ownerless(View()) && lifecycle.None? && shutdownComplete && failure == old(failure)
      ensures state == (if failure.Some? then FAILED else STOPPED)
    {
      hide Inv, Enabled, Ownerless, OwnedBy, GivenUp;
      ExecutedMeans(View(), t);
      StepKeepsInv(View(), OnExecuteEnd(t));
      state := if failure.Some? then FAILED else STOPPED;
      shutdownComplete := true;
      if kind == Startup {
        startupComplete := true;
      }
      lifecycle, threads := None, threads[t := Idle];
    }

    /** Another shutdown may follow exactly while the runtime is still there. */
    method ShutdownRaised(ghost t: nat, f: nat)
      requires Valid() && Enabled(View(), OnRaised(t, f))
      modifies this`failure, this`cleanup, this`state, this`started, this`shutdownComplete, this`threads
      ensures Valid() && View() == Step(old(View()), OnRaised(t, f)) && GivenUp(old(View()), View())
      ensures Claiming(View(), false) == if runtime then Own else Raise
    {
      hide Inv, Enabled, Ownerless, OwnedBy, GivenUp;
      AbandonedMeans(View(), OnRaised(t, f));
      StepKeepsInv(View(), OnRaised(t, f));
      RecordCleanupFailure(f);
      state, started, shutdownComplete := FAILED, !runtime, true;
      threads := threads[t := Idle];
    }
  }
}
