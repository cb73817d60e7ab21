/**
  What became of the runs of one key in memory: every run that was offered is in a delta handed to the lane or in the
  pending one, in order, unless a run was counted lost; and a profile that was never given up has learned all of them.
 */
module RunTraces {
  import opened Wrappers
  import opened Acknowledgements
  import opened ProgressHistory
  import opened Learning
  import opened Timing
  import Flushing
  import Lane
  import LaneRuns
  import Protocol
  import Tables

  predicate IsFor(h: Handoff, pk: Tables.ProfileKey) {
    h.delta.key.TimingKey? && h.delta.key.profile == pk
  }

  /** The runs of the handoffs for one stored key, handoff by handoff. */
  function PartsOf(numbers: seq<nat>, closures: map<nat, Handoff>, pk: Tables.ProfileKey): seq<seq<Timing.Run>> {
    if numbers == [] then []
    else
      var n := numbers[|numbers| - 1];
      PartsOf(numbers[..|numbers| - 1], closures, pk) + if n in closures && IsFor(closures[n], pk) then [closures[n].runs] else []
  }

  lemma {:induction false} PartsConcat(a: seq<nat>, b: seq<nat>, closures: map<nat, Handoff>, pk: Tables.ProfileKey)
    ensures PartsOf(a + b, closures, pk) == PartsOf(a, closures, pk) + PartsOf(b, closures, pk)
  {
    if b == [] {
      assert a + b == a;
    } else {
      PartsConcat(a, b[..|b| - 1], closures, pk);
      assert (a + b)[..|a + b| - 1] == a + b[..|b| - 1];
    }
  }

  /** A handoff with another number changes nothing. */
  lemma {:induction false} PartsFrame(numbers: seq<nat>, closures: map<nat, Handoff>, n: nat, h: Handoff, pk: Tables.ProfileKey)
    requires n !in numbers
    ensures PartsOf(numbers, closures[n := h], pk) == PartsOf(numbers, closures, pk)
  {
    if numbers != [] {
      assert numbers[|numbers| - 1] != n;
      PartsFrame(numbers[..|numbers| - 1], closures, n, h, pk);
    }
  }

  ghost predicate DeltaOf(d: Delta, k: Key, runs: seq<Timing.Run>) {
    && k.TimingKey? && d.key == k && runs != [] && ValidRuns(runs, k.stepCount)
    && d.profile == LearnAll(EmptyProfile(k.stepCount), runs)
  }

  /** Pending deltas are what an empty profile learns from the runs that wait. */
  ghost predicate Pendings(pending: map<Key, Delta>, waiting: map<Key, seq<Timing.Run>>) {
    (forall j :: j in pending ==> DeltaOf(pending[j], j, Runs(waiting, j))) && forall j :: j in waiting ==> j in pending
  }

  /** So are the deltas that were handed off, in the order of their numbers. */
  ghost predicate Handoffs(closures: map<nat, Handoff>, handed: seq<nat>) {
    && (forall n :: n in closures ==> DeltaOf(closures[n].delta, closures[n].delta.key, closures[n].runs))
    && Protocol.Increasing(handed) && forall n :: n in closures <==> n in handed
  }

  /** No other key of memory shares the stored key. */
  ghost predicate Sole(pending: map<Key, Delta>, closures: map<nat, Handoff>, k: Key)
  {
    && k.TimingKey?
    && (forall n :: n in closures && IsFor(closures[n], k.profile) ==> closures[n].delta.key == k)
    && forall j :: j in pending && j.TimingKey? && j.profile == k.profile ==> j == k
  }

  /** With nothing lost, the runs offered are those handed off followed by those that wait. */
  ghost predicate Split(lost: nat, t: Trace, closures: map<nat, Handoff>, k: Key)
  {
    k.TimingKey? && (lost == 0 ==> Runs(t.offered, k) == Flatten(PartsOf(t.handed, closures, k.profile)) + Runs(t.waiting, k))
  }

  /** A profile memory never gave up started empty and has learned every run that was offered. */
  ghost predicate Recalls(c: Cache, t: Trace, k: Key)
  {
    && k.TimingKey?
    && (k in c.profiles && k !in t.evicted ==>
          && k in c.base && k in c.since && c.base[k] == EmptyProfile(k.stepCount)
          && c.since[k] == Runs(t.offered, k) && c.since[k] != [])
    && (k !in c.profiles && k !in t.evicted ==> Runs(t.offered, k) == [])
  }

  ghost predicate Honoured(lost: nat, credited: seq<Call>) {
    lost == 0 ==> forall i :: 0 <= i < |credited| ==> credited[i].committed
  }

  ghost predicate Traced(w: Engine, k: Key)
  {
    && k.TimingKey? && Pendings(w.account.ledger.pending, w.trace.waiting) && Handoffs(w.closures, w.trace.handed)
    && Sole(w.account.ledger.pending, w.closures, k) && Split(w.account.ledger.lost, w.trace, w.closures, k)
    && Recalls(w.cache, w.trace, k) && Honoured(w.account.ledger.lost, w.credited)
  }

  /** Nobody else contributes under the stored key. */
  predicate SoleOwner(e: Learning.Event, k: Key)
  {
    k.TimingKey? && (e.OnRun? && e.k.TimingKey? && e.k.profile == k.profile ==> e.k == k)
  }

  lemma DeltaGrows(d: Delta, k: Key, runs: seq<Timing.Run>, run: Timing.Run)
    requires k.TimingKey? && d.key == k && ValidRuns(runs, k.stepCount) && ValidRun(run, k.stepCount)
    requires d.profile == LearnAll(EmptyProfile(k.stepCount), runs)
    ensures DeltaOf(d.(profile := Learn(d.profile, run)), k, runs + [run])
  {
    assert (runs + [run])[..|runs|] == runs;
  }

  lemma PendingsPut(pending: map<Key, Delta>, waiting: map<Key, seq<Timing.Run>>, j: Key, d: Delta, runs: seq<Timing.Run>)
    requires Pendings(pending, waiting) && DeltaOf(d, j, runs)
    ensures Pendings(pending[j := d], waiting[j := runs])
  {
    var more, waits := pending[j := d], waiting[j := runs];
    forall i | i in more
      ensures DeltaOf(more[i], i, Runs(waits, i))
    {
      assert i != j ==> Runs(waits, i) == Runs(waiting, i);
    }
  }

  /** A run that is offered and taken, or offered and lost. */
  lemma SplitMore(lost: nat, t: Trace, closures: map<nat, Handoff>, j: Key, run: Timing.Run, taken: bool, u: Trace, k: Key)
    requires k.TimingKey? && Split(lost, t, closures, k)
    requires u == t.(offered := t.offered[j := Runs(t.offered, j) + [run]],
                     waiting := if taken then t.waiting[j := Runs(t.waiting, j) + [run]] else t.waiting)
    ensures Split(if taken then lost else lost + 1, u, closures, k)
  {
    var waits, parts := Runs(t.waiting, k), Flatten(PartsOf(t.handed, closures, k.profile));
    assert parts + (waits + [run]) == (parts + waits) + [run];
  }

  /** What a contribution does to the pending delta of its key: it grows, it is opened, or there is none. */
  lemma ContributesPending(w: Engine, j: Key, run: Timing.Run, limits: Settings) returns (taken: bool, d: Delta)
    requires j.TimingKey? && ValidRun(run, j.stepCount) && Pendings(w.account.ledger.pending, w.trace.waiting)
    ensures var v, l := Contributes(w, j, run, limits), w.account.ledger;
      && v.account.ledger.pending == (if taken then l.pending[j := d] else l.pending)
      && (taken ==> DeltaOf(d, j, Runs(w.trace.waiting, j) + [run]))
      && v.account.ledger.lost == (if taken then l.lost else l.lost + 1) && (taken <==> j in v.account.ledger.pending)
  {
    var l, granted := w.account.ledger, Granted(w, j, limits);
    var charge := if granted.Some? then granted.value else 0;
    taken := ContributedPending(l, j, run, granted, charge, Learning.Pending(limits));
    d := Grown(l.pending, j, run, charge);
    GrownIs(l.pending, w.trace.waiting, j, run, charge);
  }

  lemma ContributedPending(l: Ledger, j: Key, run: Timing.Run, granted: Option<nat>, charge: nat, limits: PendingLimits) returns (taken: bool)
    requires j.TimingKey? && (granted.Some? ==> charge == granted.value)
    ensures var m := Contributed(l, j, run, granted, limits);
      && m.pending == (if taken then l.pending[j := Grown(l.pending, j, run, charge)] else l.pending)
      && m.lost == (if taken then l.lost else l.lost + 1) && (taken <==> j in m.pending)
  {
    taken := j in l.pending || (HasRoom(l, j, limits) && granted.Some?);
    if taken {
      LearnedPending(if j in l.pending then l else Opened(l, j, charge), j, run);
    }
  }

  lemma LearnedPending(l: Ledger, j: Key, run: Timing.Run)
    requires j in l.pending
    ensures var m := ProgressHistory.Learned(l, j, run);
      m.lost == l.lost && m.pending == l.pending[j := l.pending[j].(profile := Learn(l.pending[j].profile, run))]
  {
  }

  /** The delta under the key after one more run; a new one is opened with the reservation. */
  function Grown(pending: map<Key, Delta>, j: Key, run: Timing.Run, reservation: nat): Delta
    requires j.TimingKey?
  {
    var d := if j in pending then pending[j] else Delta(j, EmptyProfile(j.stepCount), reservation);
    d.(profile := Learn(d.profile, run))
  }

  lemma GrownIs(pending: map<Key, Delta>, waiting: map<Key, seq<Timing.Run>>, j: Key, run: Timing.Run, reservation: nat)
    requires j.TimingKey? && ValidRun(run, j.stepCount) && Pendings(pending, waiting)
    ensures DeltaOf(Grown(pending, j, run, reservation), j, Runs(waiting, j) + [run])
  {
    var d := if j in pending then pending[j] else Delta(j, EmptyProfile(j.stepCount), reservation);
    assert j in pending || Runs(waiting, j) == [];
    DeltaGrows(d, j, Runs(waiting, j), run);
  }

  /** A contribution that is taken waits in its delta; one that is not counts as lost. */
  lemma ContributesTraced(w: Engine, j: Key, run: Timing.Run, limits: Settings, k: Key)
    requires k.TimingKey? && j.TimingKey? && ValidRun(run, j.stepCount) && (j.profile == k.profile ==> j == k)
    requires Traced(w, k)
    ensures var v := Contributes(w, j, run, limits);
      && Pendings(v.account.ledger.pending, v.trace.waiting) && Sole(v.account.ledger.pending, v.closures, k)
      && Split(v.account.ledger.lost, v.trace, v.closures, k) && Honoured(v.account.ledger.lost, v.credited)
  {
    var taken, d := ContributesPending(w, j, run, limits);
    if taken {
      PendingsPut(w.account.ledger.pending, w.trace.waiting, j, d, Runs(w.trace.waiting, j) + [run]);
    }
    SplitMore(w.account.ledger.lost, w.trace, w.closures, j, run, taken, Contributes(w, j, run, limits).trace, k);
  }

  /** Memory learns what is offered, or gives the profile up. */
  lemma LearnsRecalls(c: Cache, t: Trace, k: Key, j: Key, run: Timing.Run, steps: nat, limits: CacheLimits, d: Cache, u: Trace)
    requires k.TimingKey? && Exact(c) && Recalls(c, t, k) && (j.TimingKey? ==> j.stepCount == steps)
    requires j in c.profiles ==> j in c.base && j in c.since
    requires d == Learning.Kept(c, j, run, steps, limits)
    requires u == t.(offered := u.offered, waiting := u.waiting, evicted := t.evicted + GivenUp(c, d, j, steps, limits))
    requires Runs(u.offered, k) == if j == k then Runs(t.offered, k) + [run] else Runs(t.offered, k)
    ensures Recalls(d, u, k)
  {
    if !Oversize(j, steps, limits) {
      var r := Remembered(c, j, run, steps);
      RememberedExact(c, j, run, steps);
      TrimmedExact(r, limits);
      if k in d.profiles && k !in u.evicted {
        assert k in r.profiles && d.since[k] == r.since[k] && d.base[k] == r.base[k];
        if k !in c.profiles {
          assert j == k && r.since[k] == [] + [run];
        }
      }
    }
  }

  lemma LearnsTraced(w: Engine, j: Key, steps: nat, run: Timing.Run, limits: Settings, k: Key)
    requires Exact(w.cache) && Traced(w, k) && ValidRun(run, steps) && (j.TimingKey? ==> j.stepCount == steps)
    requires SoleOwner(OnRun(j, steps, run), k)
    ensures Traced(Learns(w, j, steps, run, limits), k)
  {
    if !Mismatched(w.cache.profiles, j, steps) {
      var v := if j.TimingKey? then Contributes(w, j, run, limits) else w;
      assert j in w.cache.profiles ==> j in w.cache.base && j in w.cache.since by { assert LookAt(w.cache); }
      if j.TimingKey? {
        ContributesTraced(w, j, run, limits, k);
      }
      var x := Keeps(v, j, run, steps, limits.cache);
      assert Runs(v.trace.offered, k) == if j == k then Runs(w.trace.offered, k) + [run] else Runs(w.trace.offered, k);
      LearnsRecalls(w.cache, w.trace, k, j, run, steps, limits.cache, x.cache, x.trace);
    }
  }

  lemma ReadTraced(w: Engine, j: Key, k: Key)
    requires Traced(w, k) && j in w.cache.profiles
    ensures Traced(w.(cache := Touched(w.cache, j)), k)
  {
  }

  /** What a callback credits was at least one run, so a delta that failed shows in the losses. */
  lemma CreditedTraced(w: Engine, n: nat, committed: bool, k: Key)
    requires Traced(w, k) && n in w.closures
    ensures Traced(Credited(w, n, committed), k)
  {
    assert RunsOf()(w.closures[n].delta) == |w.closures[n].runs|;
  }

  lemma IncreasingMore(numbers: seq<nat>, n: nat)
    requires Protocol.Increasing(numbers) && forall m :: m in numbers ==> m < n
    ensures Protocol.Increasing(numbers + [n]) && n !in numbers
  {
    assert forall i :: 0 <= i < |numbers| ==> numbers[i] in numbers;
  }

  lemma PendingsRemove(pending: map<Key, Delta>, waiting: map<Key, seq<Timing.Run>>, j: Key)
    requires Pendings(pending, waiting)
    ensures Pendings(pending - {j}, waiting - {j})
  {
    var less, waits := pending - {j}, waiting - {j};
    forall i | i in less
      ensures DeltaOf(less[i], i, Runs(waits, i))
    {
      assert Runs(waits, i) == Runs(waiting, i);
    }
  }

  lemma HandoffsMore(closures: map<nat, Handoff>, handed: seq<nat>, n: nat, h: Handoff)
    requires Handoffs(closures, handed) && DeltaOf(h.delta, h.delta.key, h.runs) && forall m :: m in closures ==> m < n
    ensures Handoffs(closures[n := h], handed + [n]) && n !in handed
  {
    IncreasingMore(handed, n);
  }

  /** What waited is now the last part that was handed off. */
  lemma SplitMoved(lost: nat, t: Trace, closures: map<nat, Handoff>, j: Key, n: nat, h: Handoff, k: Key)
    requires k.TimingKey? && Split(lost, t, closures, k) && n !in t.handed && h.runs == Runs(t.waiting, j) && h.delta.key == j
    requires j.TimingKey? && (j.profile == k.profile ==> j == k)
    ensures Split(lost, t.(waiting := t.waiting - {j}, handed := t.handed + [n]), closures[n := h], k)
  {
    hide PartsOf, Flatten;
    var parts := PartsOf(t.handed, closures, k.profile);
    PartsMore(t.handed, closures, n, h, k.profile);
    if j == k {
      FlattenMore(parts, h.runs);
      assert Runs(t.waiting - {j}, k) == [];
    } else {
      assert Runs(t.waiting - {j}, k) == Runs(t.waiting, k);
    }
  }

  lemma PartsMore(handed: seq<nat>, closures: map<nat, Handoff>, n: nat, h: Handoff, pk: Tables.ProfileKey)
    requires n !in handed
    ensures PartsOf(handed + [n], closures[n := h], pk)
         == if IsFor(h, pk) then PartsOf(handed, closures, pk) + [h.runs] else PartsOf(handed, closures, pk)
  {
    PartsFrame(handed, closures, n, h, pk);
    assert (handed + [n])[..|handed|] == handed;
  }

  lemma FlattenMore(parts: seq<seq<Timing.Run>>, runs: seq<Timing.Run>)
    ensures Flatten(parts + [runs]) == Flatten(parts) + runs
  {
    assert (parts + [runs])[..|parts|] == parts;
  }

  lemma HandsOffTraced(w: Engine, j: Key, limits: Settings, k: Key)
    requires Traced(w, k) && j in w.account.ledger.pending
    requires forall n :: n in w.closures ==> n <= w.system.lane.books.admitted
    ensures Traced(HandsOff(w, j, limits), k)
  {
    hide Handoffs, Lane.Queued, ValidRuns, LearnAll;
    var l, d, runs := w.account.ledger, w.account.ledger.pending[j], Runs(w.trace.waiting, j);
    var a := Lane.Defer(w.system.lane, d.reservation, true, limits.setup.bounds);
    PendingsRemove(l.pending, w.trace.waiting, j);
    if a.result.Success? {
      var n, h := a.result.value, Handoff(d, runs);
      HandoffsMore(w.closures, w.trace.handed, n, h);
      SplitMoved(l.lost, w.trace, w.closures, j, n, h, k);
    } else {
      assert RunsOf()(d) == |runs| > 0;
    }
  }

  /** A step of lane and store touches the runs only through a callback it calls. */
  lemma BelowTraced(w: Engine, a: Flushing.Event, limits: Settings, k: Key)
    requires Traced(w, k)
    ensures Traced(Learning.Below(w, a, limits), k)
  {
    if Calls(w, a) {
      var b := w.system.lane.books;
      CreditedTraced(w, b.current[b.callbacks.answered].number, Lane.Committing(b), k);
    }
  }

  lemma ClosuresAdmitted(w: Engine, limits: Settings)
    requires Inv(w, limits)
    ensures forall n :: n in w.closures ==> n <= w.system.lane.books.admitted
  {
    assert Flushing.Look(w.system);
    LaneRuns.OwedNumbers(w.system.lane, limits.setup.bounds, limits.setup.config);
  }

  lemma StepTraced(w: Engine, e: Learning.Event, limits: Settings, k: Key)
    requires Inv(w, limits) && Traced(w, k) && Learning.Enabled(w, e) && SoleOwner(e, k)
    ensures Traced(Learning.Step(w, e, limits), k)
  {
    hide *;
    StepCases(w, e, limits);
    InvFacts(w, limits);
    match e
    case OnSystem(a) => BelowTraced(w, a, limits, k);
    case OnRun(j, steps, run) => LearnsTraced(w, j, steps, run, limits, k);
    case OnRead(j) => ReadTraced(w, j, k);
    case OnHandOff(j) =>
      ClosuresAdmitted(w, limits);
      HandsOffTraced(w, j, limits, k);
  }
}
