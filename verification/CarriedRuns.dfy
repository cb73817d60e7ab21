/**
  What the lane's publications carry for one stored key: the batch that is written holds the deltas of its handoffs, in
  the order of their numbers, and nothing else for the key as long as nobody else writes under it.
 */
module CarriedRuns {
  import opened Wrappers
  import opened Tables
  import opened Transaction
  import opened Publications
  import opened Barriers
  import opened Aggregates
  import opened Learning
  import opened RunTraces
  import Flushing
  import Lane
  import LaneRuns
  import ProgressHistory
  import Protocol
  import Timing

  // ---- numbers below a frontier ---------------------------------------------------------------------------

  function Under(numbers: seq<nat>, f: nat): seq<nat> {
    if numbers == [] then []
    else
      var n := numbers[|numbers| - 1];
      Under(numbers[..|numbers| - 1], f) + if n < f then [n] else []
  }

  lemma {:induction false} UnderAll(numbers: seq<nat>, f: nat)
    requires forall n :: n in numbers ==> n < f
    ensures Under(numbers, f) == numbers
  {
    if numbers != [] {
      var init := numbers[..|numbers| - 1];
      assert numbers[|numbers| - 1] in numbers;
      forall n | n in init
        ensures n < f
      {
        assert n in numbers;
      }
      UnderAll(init, f);
    }
  }

  lemma {:induction false} UnderIn(numbers: seq<nat>, f: nat)
    ensures forall n :: n in Under(numbers, f) <==> n in numbers && n < f
  {
    if numbers != [] {
      UnderIn(numbers[..|numbers| - 1], f);
    }
  }

  /** Between two frontiers without a number nothing changes. */
  lemma {:induction false} UnderGap(numbers: seq<nat>, f: nat, g: nat)
    requires f <= g && forall n :: n in numbers ==> n < f || g <= n
    ensures Under(numbers, g) == Under(numbers, f)
  {
    if numbers != [] {
      var init := numbers[..|numbers| - 1];
      assert numbers[|numbers| - 1] in numbers;
      forall n | n in init
        ensures n < f || g <= n
      {
        assert n in numbers;
      }
      UnderGap(init, f, g);
    }
  }

  lemma {:induction false} UnderNext(numbers: seq<nat>, n: nat)
    requires Protocol.Increasing(numbers)
    ensures Under(numbers, n + 1) == Under(numbers, n) + if n in numbers then [n] else []
  {
    if numbers != [] {
      var init, last := numbers[..|numbers| - 1], numbers[|numbers| - 1];
      UnderNext(init, n);
      assert forall i :: 0 <= i < |init| ==> init[i] < last;
      assert n in numbers <==> n in init || n == last;
      if last >= n {
        assert n == last ==> n !in init;
      }
    }
  }

  lemma UnderMore(numbers: seq<nat>, n: nat, f: nat)
    requires f <= n
    ensures Under(numbers + [n], f) == Under(numbers, f)
  {
    assert (numbers + [n])[..|numbers|] == numbers;
  }

  /** The frontier after the first `j` publications of a batch. */
  function Threshold(current: seq<Work>, j: nat): nat
    requires j <= |current| && current != []
  {
    if j < |current| then current[j].number else current[|current| - 1].number + 1
  }

  /** Every handoff between the first and the last number of the batch is in it. */
  ghost predicate Compact(handed: seq<nat>, current: seq<Work>) {
    current != [] ==>
      forall n :: n in handed && current[0].number <= n <= current[|current| - 1].number ==> InWorks(current, n)
  }

  lemma NoneBetween(handed: seq<nat>, current: seq<Work>, j: nat)
    requires 0 < j <= |current| && Rising(current) && Compact(handed, current)
    ensures forall n :: n in handed ==> n < current[j - 1].number + 1 || Threshold(current, j) <= n
  {
    assert current[0].number <= current[j - 1].number;
    forall n | n in handed
      ensures n < current[j - 1].number + 1 || Threshold(current, j) <= n
    {
      if current[0].number <= n <= current[|current| - 1].number {
        assert InWorks(current, n);
        var i :| 0 <= i < |current| && current[i].number == n;
        if i < j - 1 {
          assert current[i].number < current[j - 1].number;
        } else if i > j {
          assert current[j].number < current[i].number;
        }
      }
    }
  }

  /** One publication of the batch: its part, if it is one of the handoffs for the key. */
  lemma UnderStep(handed: seq<nat>, current: seq<Work>, closures: map<nat, Handoff>, pk: ProfileKey, j: nat)
    requires 0 < j <= |current| && Rising(current) && Compact(handed, current)
    requires Protocol.Increasing(handed) && forall n :: n in closures <==> n in handed
    ensures PartsOf(Under(handed, Threshold(current, j)), closures, pk)
         == PartsOf(Under(handed, current[j - 1].number), closures, pk) + PartsOf([current[j - 1].number], closures, pk)
  {
    hide Under, IsFor, Compact;
    var n := current[j - 1].number;
    var one: seq<nat> := if n in handed then [n] else [];
    UnderNext(handed, n);
    NoneBetween(handed, current, j);
    UnderGap(handed, n + 1, Threshold(current, j));
    PartsConcat(Under(handed, n), one, closures, pk);
    SolePart(n, closures, pk);
  }

  /** Moving the frontier over a batch adds the parts of its publications, in their order. */
  lemma {:induction false} UnderBatch(handed: seq<nat>, current: seq<Work>, closures: map<nat, Handoff>, pk: ProfileKey, j: nat)
    requires j <= |current| && current != [] && Rising(current) && Compact(handed, current)
    requires Protocol.Increasing(handed) && forall n :: n in closures <==> n in handed
    ensures PartsOf(Under(handed, Threshold(current, j)), closures, pk)
         == PartsOf(Under(handed, current[0].number), closures, pk) + PartsOf(Flushing.NumbersOf(current)[..j], closures, pk)
  {
    var numbers := Flushing.NumbersOf(current);
    if j > 0 {
      UnderBatch(handed, current, closures, pk, j - 1);
      UnderStep(handed, current, closures, pk, j);
      PartsPrefix(numbers, j, closures, pk);
    } else {
      assert numbers[..0] == [];
    }
  }

  lemma PartsPrefix(numbers: seq<nat>, j: nat, closures: map<nat, Handoff>, pk: ProfileKey)
    requires 0 < j <= |numbers|
    ensures PartsOf(numbers[..j], closures, pk) == PartsOf(numbers[..j - 1], closures, pk) + PartsOf([numbers[j - 1]], closures, pk)
  {
    assert numbers[..j] == numbers[..j - 1] + [numbers[j - 1]];
    PartsConcat(numbers[..j - 1], [numbers[j - 1]], closures, pk);
  }

  lemma SolePart(n: nat, closures: map<nat, Handoff>, pk: ProfileKey)
    ensures PartsOf([n], closures, pk) == if n in closures && IsFor(closures[n], pk) then [closures[n].runs] else []
  {
    assert [n][..0] == [];
  }

  // ---- what the publications of the lane carry ----------------------------------------------------------------

  predicate Foreign(content: Content, pk: ProfileKey) {
    DeltasFor(content.profiles, pk) == []
  }

  /** One of our handoffs waits without content; anything else has nothing for the key. */
  ghost predicate WorkFine(x: Work, closures: map<nat, Handoff>, pk: ProfileKey) {
    if x.number in closures then x.content.None? else x.content.Some? ==> Foreign(x.content.value, pk)
  }

  /** A prepared handoff carries its delta. */
  ghost predicate MadeFine(x: Work, made: Option<Content>, closures: map<nat, Handoff>, pk: ProfileKey) {
    made.Some? ==>
      if x.number in closures
      then closures[x.number].delta.key.TimingKey? && made.value == StoredContent(closures[x.number].delta)
      else Foreign(made.value, pk)
  }

  ghost predicate Works(k: Lane.Books, closures: map<nat, Handoff>, pk: ProfileKey) {
    && (forall i :: 0 <= i < |k.current| ==> WorkFine(k.current[i], closures, pk))
    && (forall i :: 0 <= i < |k.queue| && k.queue[i].Publication? ==> WorkFine(k.queue[i].work, closures, pk))
    && |k.made| <= |k.current|
    && forall i :: 0 <= i < |k.made| ==> MadeFine(k.current[i], k.made[i], closures, pk)
  }

  /** The batch being written is the one that was prepared. */
  ghost predicate Offered(k: Lane.Books, l: Protocol.Lane) {
    l.current.Some? ==>
      && l.current.value.content == Combined(Survivors(k.made)) && |k.made| == |k.current| && k.current != []
      && forall i :: 0 <= i < |k.current| ==> (k.current[i].number in l.ready <==> k.made[i].Some?)
  }

  /** Works move from the queue to the batch, join the queue with new numbers, or are prepared. */
  ghost predicate Carries(k: Lane.Books, m: Lane.Books, closures: map<nat, Handoff>, pk: ProfileKey) {
    && (forall i :: 0 <= i < |m.current| ==> m.current[i] in k.current || Publication(m.current[i]) in k.queue)
    && (forall i :: 0 <= i < |m.queue| && m.queue[i].Publication? ==>
          || m.queue[i] in k.queue
          || (k.admitted < m.queue[i].work.number && (m.queue[i].work.content.Some? ==> Foreign(m.queue[i].work.content.value, pk))))
    && (|| m.made == [] || (m.made == k.made && m.current == k.current)
        || (m.current == k.current && |k.made| < |k.current| && |m.made| == |k.made| + 1 && m.made[..|k.made|] == k.made
            && MadeFine(k.current[|k.made|], m.made[|k.made|], closures, pk)))
  }

  lemma WorksCarried(k: Lane.Books, m: Lane.Books, closures: map<nat, Handoff>, pk: ProfileKey)
    requires Works(k, closures, pk) && Carries(k, m, closures, pk) && forall n :: n in closures ==> n <= k.admitted
    ensures Works(m, closures, pk)
  {
    forall i | 0 <= i < |m.current|
      ensures WorkFine(m.current[i], closures, pk)
    {
      if m.current[i] in k.current {
        var j :| 0 <= j < |k.current| && k.current[j] == m.current[i];
      } else {
        assert Publication(m.current[i]) in k.queue;
        var j :| 0 <= j < |k.queue| && k.queue[j] == Publication(m.current[i]);
        assert k.queue[j].work == m.current[i];
      }
    }
    forall i | 0 <= i < |m.queue| && m.queue[i].Publication?
      ensures WorkFine(m.queue[i].work, closures, pk)
    {
      if m.queue[i] in k.queue {
        var j :| 0 <= j < |k.queue| && k.queue[j] == m.queue[i];
      }
    }
    forall i | 0 <= i < |m.made|
      ensures i < |m.current| && MadeFine(m.current[i], m.made[i], closures, pk)
    {
      if |m.made| == |k.made| + 1 && i < |k.made| {
        assert m.made[i] == m.made[..|k.made|][i];
      }
    }
  }

  /** Nothing for the key comes from elsewhere through the lane. */
  predicate QuietLane(k: Lane.Books, a: LaneRuns.Event, closures: map<nat, Handoff>, pk: ProfileKey) {
    match a
    case OnSubmit(_, content) => Foreign(content, pk)
    case OnPrepare(built) =>
      built.Built? && |k.made| < |k.current| ==>
        var n := k.current[|k.made|].number;
        if n in closures then closures[n].delta.key.TimingKey? && built.content == StoredContent(closures[n].delta)
        else Foreign(built.content, pk)
    case _ => true
  }

  lemma OwnerCarries(s: Lane.State, a: LaneRuns.Event, u: LaneRuns.Setup, closures: map<nat, Handoff>, pk: ProfileKey)
    requires !LaneRuns.ByLane(a) && QuietLane(s.books, a, closures, pk)
    ensures Carries(s.books, LaneRuns.Step(s, a, u).books, closures, pk)
  {
    var k, m := s.books, LaneRuns.Step(s, a, u).books;
    assert m.current == k.current && m.made == k.made;
    assert m.queue == k.queue || (|m.queue| == |k.queue| + 1 && m.queue[..|k.queue|] == k.queue);
    forall i | 0 <= i < |m.queue| && m.queue[i].Publication?
      ensures m.queue[i] in k.queue
           || (k.admitted < m.queue[i].work.number && (m.queue[i].work.content.Some? ==> Foreign(m.queue[i].work.content.value, pk)))
    {
      if i < |k.queue| {
        assert m.queue[i] == k.queue[i];
      }
    }
  }

  ghost predicate Shifts(k: Lane.Books, m: Lane.Books) {
    && m.made == k.made
    && (forall i :: 0 <= i < |m.current| ==> m.current[i] in k.current || Publication(m.current[i]) in k.queue)
    && forall i :: 0 <= i < |m.queue| ==> m.queue[i] in k.queue
  }

  lemma AbsorbedShifts(k: Lane.Books)
    requires k.queue != [] && k.queue[0].Publication?
    ensures Shifts(k, Lane.Absorbed(k))
  {
    assert Publication(k.queue[0].work) == k.queue[0];
  }

  lemma ShiftsTwice(k: Lane.Books, m: Lane.Books, n: Lane.Books)
    requires Shifts(k, m) && Shifts(m, n)
    ensures Shifts(k, n)
  {
    forall i | 0 <= i < |n.current|
      ensures n.current[i] in k.current || Publication(n.current[i]) in k.queue
    {
      if n.current[i] in m.current {
        var j :| 0 <= j < |m.current| && m.current[j] == n.current[i];
      } else {
        var j :| 0 <= j < |m.queue| && m.queue[j] == Publication(n.current[i]);
      }
    }
    forall i | 0 <= i < |n.queue|
      ensures n.queue[i] in k.queue
    {
      var j :| 0 <= j < |m.queue| && m.queue[j] == n.queue[i];
    }
  }

  lemma {:induction false} CoalescedShifts(k: Lane.Books, u: LaneRuns.Setup)
    requires k.current != []
    ensures Shifts(k, Lane.Coalesced(k, u.bounds))
    decreases |k.queue|
  {
    if Lane.Joins(k.current, k.queue, u.bounds) {
      AbsorbedShifts(k);
      CoalescedShifts(Lane.Absorbed(k), u);
      ShiftsTwice(k, Lane.Absorbed(k), Lane.Coalesced(k, u.bounds));
    }
  }

  lemma TakeCarries(s: Lane.State, closures: map<nat, Handoff>, pk: ProfileKey)
    ensures Carries(s.books, Lane.Take(s).books, closures, pk)
  {
    var k := s.books;
    if Lane.Idle(s) && k.queue != [] && k.queue[0].Publication? {
      AbsorbedShifts(k.(made := [], released := false));
    }
  }

  lemma PrepareCarries(s: Lane.State, built: Lane.Built, u: LaneRuns.Setup, closures: map<nat, Handoff>, pk: ProfileKey)
    requires Works(s.books, closures, pk) && QuietLane(s.books, LaneRuns.OnPrepare(built), closures, pk)
    ensures Carries(s.books, Lane.Prepare(s, built, u.config).books, closures, pk)
  {
    var k, m := s.books, Lane.Prepare(s, built, u.config).books;
    assert m.queue == k.queue && m.current == k.current;
    if !k.released && |k.made| < |k.current| {
      assert m.made[..|k.made|] == k.made;
      assert WorkFine(k.current[|k.made|], closures, pk);
    }
  }

  lemma LaneCarries(s: Lane.State, a: LaneRuns.Event, u: LaneRuns.Setup, closures: map<nat, Handoff>, pk: ProfileKey)
    requires LaneRuns.ByLane(a) && Works(s.books, closures, pk) && QuietLane(s.books, a, closures, pk)
    ensures Carries(s.books, LaneRuns.Step(s, a, u).books, closures, pk)
  {
    match a
    case OnTake => TakeCarries(s, closures, pk);
    case OnCoalesce =>
      if s.books.current != [] {
        CoalescedShifts(s.books, u);
      }
    case OnPrepare(built) => PrepareCarries(s, built, u, closures, pk);
    case OnFinish(failed) =>
    case OnAcknowledge(raised) =>
    case OnFinishRead =>
    case OnSettleBatch =>
    case OnDrain =>
  }

  lemma LaneKeepsWorks(s: Lane.State, a: LaneRuns.Event, u: LaneRuns.Setup, closures: map<nat, Handoff>, pk: ProfileKey)
    requires Works(s.books, closures, pk) && QuietLane(s.books, a, closures, pk) && forall n :: n in closures ==> n <= s.books.admitted
    ensures Works(LaneRuns.Step(s, a, u).books, closures, pk)
  {
    if LaneRuns.ByLane(a) {
      LaneCarries(s, a, u, closures, pk);
    } else {
      OwnerCarries(s, a, u, closures, pk);
    }
    WorksCarried(s.books, LaneRuns.Step(s, a, u).books, closures, pk);
  }

  /** What one prepared publication adds to the deltas for the key. */
  lemma MadeDelta(x: Work, content: Content, closures: map<nat, Handoff>, handed: seq<nat>, k: ProgressHistory.Key)
    requires k.TimingKey? && Handoffs(closures, handed) && MadeFine(x, Some(content), closures, k.profile)
    requires forall n :: n in closures && IsFor(closures[n], k.profile) ==> closures[n].delta.key == k
    ensures DeltasFor(content.profiles, k.profile) == DeltasOf(PartsOf([x.number], closures, k.profile), k.stepCount)
  {
    SolePart(x.number, closures, k.profile);
    if x.number in closures {
      SoleDelta(content.profiles, k.profile);
      if IsFor(closures[x.number], k.profile) {
        assert DeltaOf(closures[x.number].delta, k, closures[x.number].runs);
      }
    }
  }

  lemma DeltasOfConcat(a: seq<seq<Timing.Run>>, b: seq<seq<Timing.Run>>, steps: nat)
    ensures DeltasOf(a + b, steps) == DeltasOf(a, steps) + DeltasOf(b, steps)
  {
  }

  /** The deltas in a batch are those of its handoffs that were prepared. */
  lemma {:induction false} MadeDeltas(current: seq<Work>, made: seq<Option<Content>>, closures: map<nat, Handoff>, handed: seq<nat>,
                                      k: ProgressHistory.Key)
    requires k.TimingKey? && |made| <= |current| && Handoffs(closures, handed)
    requires forall n :: n in closures && IsFor(closures[n], k.profile) ==> closures[n].delta.key == k
    requires forall i :: 0 <= i < |made| ==> MadeFine(current[i], made[i], closures, k.profile)
    requires forall i :: 0 <= i < |made| && current[i].number in closures && IsFor(closures[current[i].number], k.profile) ==> made[i].Some?
    ensures DeltasFor(AllProfiles(Survivors(made)), k.profile)
         == DeltasOf(PartsOf(Flushing.NumbersOf(current)[..|made|], closures, k.profile), k.stepCount)
  {
    var numbers := Flushing.NumbersOf(current);
    if made != [] {
      var m := |made| - 1;
      var n, init := current[m].number, made[..m];
      MadeDeltas(current, init, closures, handed, k);
      PartsPrefix(numbers, m + 1, closures, k.profile);
      DeltasOfConcat(PartsOf(numbers[..m], closures, k.profile), PartsOf([n], closures, k.profile), k.stepCount);
      if made[m].Some? {
        assert made == init + [Some(made[m].value)];
        LastSurvivor(init, made[m].value, k.profile);
        MadeDelta(current[m], made[m].value, closures, handed, k);
      } else {
        SolePart(n, closures, k.profile);
        assert Survivors(made) == Survivors(init);
      }
    } else {
      assert numbers[..0] == [];
    }
  }

  lemma SoleDelta(entries: seq<Aggregate>, pk: ProfileKey)
    requires |entries| == 1
    ensures DeltasFor(entries, pk) == if entries[0].key == pk then [entries[0].profile] else []
  {
    assert entries[..0] == [];
  }

  lemma LastSurvivor(init: seq<Option<Content>>, content: Content, pk: ProfileKey)
    ensures DeltasFor(AllProfiles(Survivors(init + [Some(content)])), pk)
         == DeltasFor(AllProfiles(Survivors(init)), pk) + DeltasFor(content.profiles, pk)
  {
    var made := init + [Some(content)];
    assert made[..|made| - 1] == init;
    var parts := Survivors(made);
    assert parts == Survivors(init) + [content] && parts[..|parts| - 1] == Survivors(init);
    DeltasConcat(AllProfiles(Survivors(init)), content.profiles, pk);
  }
}
