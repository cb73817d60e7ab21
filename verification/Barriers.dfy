/** The numbered queue of publications and the flush barriers that wait for it, as relations on values. */
module Barriers {
  import opened Wrappers
  import opened Tables
  import opened Reservations

  // ---- the queue ----------------------------------------------------------------------------------

  /** A publication handed to the lane; its content is None until the lane has prepared it. */
  datatype Work = Work(id: nat, number: nat, bytes: int, items: nat, imports: bool, profile: bool, content: Option<Content>)

  datatype Job = Publication(work: Work) | Read

  function Reads(queue: seq<Job>): nat {
    if queue == [] then 0 else Reads(queue[..|queue| - 1]) + if queue[|queue| - 1].Read? then 1 else 0
  }

  lemma {:induction false} ReadsPop(queue: seq<Job>)
    requires queue != []
    ensures Reads(queue) == Reads(queue[1..]) + if queue[0].Read? then 1 else 0
  {
    var n := |queue| - 1;
    if n == 0 {
      assert queue[..0] == [] && queue[1..] == [];
    } else {
      ReadsPop(queue[..n]);
      assert queue[..n][1..] == queue[1..][..n - 1];
    }
  }

  lemma ReadsMore(queue: seq<Job>)
    ensures Reads(queue + [Read]) == Reads(queue) + 1
  {
    assert (queue + [Read])[..|queue|] == queue;
  }

  ghost predicate Rising(works: seq<Work>) {
    forall i, j :: 0 <= i < j < |works| ==> works[i].number < works[j].number
  }

  /** Publications wait in the order of their numbers, after those being written, all beyond the settled ones. */
  ghost predicate Ordered(current: seq<Work>, queue: seq<Job>, settled: nat, admitted: nat) {
    && settled <= admitted && Rising(current)
    && (forall i :: 0 <= i < |current| ==> settled < current[i].number <= admitted)
    && (forall i :: 0 <= i < |queue| && queue[i].Publication? ==> settled < queue[i].work.number <= admitted)
    && (forall i, j :: 0 <= i < |current| && 0 <= j < |queue| && queue[j].Publication? ==> current[i].number < queue[j].work.number)
    && (forall i, j :: 0 <= i < j < |queue| && queue[i].Publication? && queue[j].Publication? ==>
          queue[i].work.number < queue[j].work.number)
  }

  ghost predicate InWorks(works: seq<Work>, n: nat) {
    exists i :: 0 <= i < |works| && works[i].number == n
  }

  ghost predicate InQueue(queue: seq<Job>, n: nat) {
    exists i :: 0 <= i < |queue| && queue[i].Publication? && queue[i].work.number == n
  }

  /** Every number handed out is waiting, being written, committed, or lost. */
  ghost predicate Tracked(current: seq<Work>, queue: seq<Job>, admitted: nat, committed: set<nat>, lost: set<nat>) {
    && (forall n: nat :: 1 <= n <= admitted ==> InWorks(current, n) || InQueue(queue, n) || n in committed || n in lost)
    && (forall n :: n in lost ==> n <= admitted)
  }

  /** The first failure is the least recorded one, and nothing is lost without a failure at or before it. */
  ghost predicate Failing(failures: set<nat>, firstFailed: Option<nat>, lost: set<nat>) {
    && (firstFailed.None? ==> failures == {})
    && (firstFailed.Some? ==> firstFailed.value in failures && forall f :: f in failures ==> firstFailed.value <= f)
    && (forall n :: n in lost ==> firstFailed.Some? && firstFailed.value <= n)
  }

  ghost predicate Confined(committed: set<nat>, settled: nat, current: seq<Work>) {
    forall n :: n in committed ==> n <= settled || InWorks(current, n)
  }

  /** A deferred publication was charged at least what its reservation still holds. */
  ghost predicate Charged(current: seq<Work>, queue: seq<Job>, held: map<nat, Reservation>) {
    && (forall i :: 0 <= i < |current| ==> current[i].id in held && WorkCharged(current[i], held[current[i].id]))
    && (forall i :: 0 <= i < |queue| && queue[i].Publication? ==>
          queue[i].work.id in held && WorkCharged(queue[i].work, held[queue[i].work.id]))
  }

  ghost predicate WorkCharged(w: Work, r: Reservation) {
    && r.number == w.number && w.number > 0
    && (w.content.None? ==> r.size <= w.bytes && w.items == 1 && !w.imports)
  }

  // ---- barriers -----------------------------------------------------------------------------------

  datatype Barrier = Barrier(id: nat, target: nat, report: bool)

  /** What a barrier's waiter is told. */
  datatype Verdict = Flushed(target: nat) | Broken(target: nat, first: nat)

  /** No handed-off publication up to the target still holds its reservation. */
  predicate Released(held: map<nat, Reservation>, target: nat) {
    forall id :: id in held ==> held[id].number == 0 || held[id].number > target
  }

  function Judge(b: Barrier, firstFailed: Option<nat>, settled: nat, held: map<nat, Reservation>): Option<Verdict> {
    if b.report && firstFailed.Some? && firstFailed.value <= b.target then Some(Broken(b.target, firstFailed.value))
    else if settled >= b.target || (!b.report && Released(held, b.target)) then Some(Flushed(b.target))
    else None
  }

  function StillWaiting(barriers: seq<Barrier>, firstFailed: Option<nat>, settled: nat, held: map<nat, Reservation>): seq<Barrier> {
    if barriers == [] then []
    else
      var last := barriers[|barriers| - 1];
      StillWaiting(barriers[..|barriers| - 1], firstFailed, settled, held)
      + if Judge(last, firstFailed, settled, held).None? then [last] else []
  }

  function Judged(barriers: seq<Barrier>, verdicts: map<nat, Verdict>, firstFailed: Option<nat>, settled: nat,
                  held: map<nat, Reservation>): map<nat, Verdict> {
    if barriers == [] then verdicts
    else
      var last := barriers[|barriers| - 1];
      var before := Judged(barriers[..|barriers| - 1], verdicts, firstFailed, settled, held);
      var verdict := Judge(last, firstFailed, settled, held);
      if verdict.None? then before else before[last.id := verdict.value]
  }

  ghost predicate Waits(barriers: seq<Barrier>, id: nat) {
    exists i :: 0 <= i < |barriers| && barriers[i].id == id
  }

  /** Every barrier ever requested either waits, once, or has its one verdict. */
  ghost predicate Accountable(barriers: seq<Barrier>, verdicts: map<nat, Verdict>, asked: seq<Barrier>, admitted: nat) {
    && (forall i :: 0 <= i < |barriers| ==>
          barriers[i].id < |asked| && asked[barriers[i].id] == barriers[i] && barriers[i].id !in verdicts)
    && Distinguished(barriers)
    && (forall id :: id in verdicts ==> id < |asked|)
    && (forall id: nat :: id < |asked| ==> asked[id].id == id && asked[id].target <= admitted && (id in verdicts || Waits(barriers, id)))
  }

  /** A reporting barrier that was told Flushed covers only commits, and no failure was recorded up to its target. */
  ghost predicate Truthful(v: Verdict, b: Barrier, committed: set<nat>, failures: set<nat>, settled: nat) {
    match v
    case Flushed(t) =>
      && t == b.target
      && (b.report ==>
            && t <= settled && (forall n: nat :: 1 <= n <= t ==> n in committed)
            && (forall f :: f in failures ==> f == 0 || f > t))
    case Broken(t, first) => t == b.target && b.report && first <= t && first in failures
  }

  ghost predicate Honest(verdicts: map<nat, Verdict>, asked: seq<Barrier>, committed: set<nat>, failures: set<nat>, settled: nat) {
    forall id :: id in verdicts ==> id < |asked| && Truthful(verdicts[id], asked[id], committed, failures, settled)
  }

  /** A verdict reached now is truthful. */
  lemma JudgedTruthfully(b: Barrier, firstFailed: Option<nat>, settled: nat, held: map<nat, Reservation>, current: seq<Work>,
                         queue: seq<Job>, admitted: nat, committed: set<nat>, lost: set<nat>, failures: set<nat>)
    requires Judge(b, firstFailed, settled, held).Some? && b.target <= admitted
    requires Ordered(current, queue, settled, admitted) && Tracked(current, queue, admitted, committed, lost)
    requires Failing(failures, firstFailed, lost)
    ensures Truthful(Judge(b, firstFailed, settled, held).value, b, committed, failures, settled)
  {
  }

  /** A failure up to its target was recorded before a reporting barrier was answered. */
  predicate Fails(b: Barrier, firstFailed: Option<nat>) {
    b.report && firstFailed.Some? && firstFailed.value <= b.target
  }

  /** The numbers up to its target are not settled, and for a barrier that reports nothing some of them are not over. */
  ghost predicate MustWait(b: Barrier, firstFailed: Option<nat>, settled: nat, held: map<nat, Reservation>) {
    && !Fails(b, firstFailed) && settled < b.target
    && (!b.report ==> exists id :: id in held && 0 < held[id].number <= b.target)
  }

  /** What a barrier that need not wait is told. */
  function Answer(b: Barrier, firstFailed: Option<nat>): Verdict {
    if Fails(b, firstFailed) then Broken(b.target, firstFailed.value) else Flushed(b.target)
  }

  lemma JudgeMeans(b: Barrier, firstFailed: Option<nat>, settled: nat, held: map<nat, Reservation>)
    ensures Judge(b, firstFailed, settled, held)
         == if MustWait(b, firstFailed, settled, held) then None else Some(Answer(b, firstFailed))
  {
  }

  /** Exactly the barriers that must wait go on waiting. */
  lemma {:induction false} WaitingExactly(barriers: seq<Barrier>, firstFailed: Option<nat>, settled: nat, held: map<nat, Reservation>)
    ensures forall b :: b in StillWaiting(barriers, firstFailed, settled, held) <==>
              b in barriers && MustWait(b, firstFailed, settled, held)
  {
    hide MustWait, Judge;
    if barriers != [] {
      var n := |barriers| - 1;
      WaitingExactly(barriers[..n], firstFailed, settled, held);
      JudgeMeans(barriers[n], firstFailed, settled, held);
    }
  }

  /** Each of the others is told once what became of it; nothing already told is told again. */
  lemma AnsweredExactly(barriers: seq<Barrier>, verdicts: map<nat, Verdict>, firstFailed: Option<nat>, settled: nat, held: map<nat, Reservation>)
    requires Distinguished(barriers)
    ensures var after := Judged(barriers, verdicts, firstFailed, settled, held);
      && (forall b :: b in barriers && !MustWait(b, firstFailed, settled, held) ==>
            b.id in after && after[b.id] == Answer(b, firstFailed))
      && (forall id :: !Waits(barriers, id) ==> (id in after <==> id in verdicts) && (id in verdicts ==> after[id] == verdicts[id]))
  {
    hide MustWait, Judge, Judged;
    forall b | b in barriers && !MustWait(b, firstFailed, settled, held)
      ensures var after := Judged(barriers, verdicts, firstFailed, settled, held); b.id in after && after[b.id] == Answer(b, firstFailed)
    {
      var i :| 0 <= i < |barriers| && barriers[i] == b;
      JudgeMeans(b, firstFailed, settled, held);
      JudgedOwn(barriers, verdicts, firstFailed, settled, held, i);
    }
    forall id | !Waits(barriers, id)
      ensures var after := Judged(barriers, verdicts, firstFailed, settled, held);
        (id in after <==> id in verdicts) && (id in verdicts ==> after[id] == verdicts[id])
    {
      JudgedOther(barriers, verdicts, firstFailed, settled, held, id);
    }
  }

  /** What still waits cannot be answered yet, and was waiting before. */
  lemma {:induction false} WaitingUnanswered(barriers: seq<Barrier>, firstFailed: Option<nat>, settled: nat, held: map<nat, Reservation>)
    ensures forall b :: b in StillWaiting(barriers, firstFailed, settled, held) ==>
              b in barriers && Judge(b, firstFailed, settled, held).None?
  {
    if barriers != [] {
      WaitingUnanswered(barriers[..|barriers| - 1], firstFailed, settled, held);
    }
  }

  ghost predicate Distinguished(barriers: seq<Barrier>) {
    forall i, j :: 0 <= i < j < |barriers| ==> barriers[i].id != barriers[j].id
  }

  lemma {:induction false} JudgedOther(barriers: seq<Barrier>, verdicts: map<nat, Verdict>, firstFailed: Option<nat>,
                                       settled: nat, held: map<nat, Reservation>, id: nat)
    requires !Waits(barriers, id)
    ensures var after := Judged(barriers, verdicts, firstFailed, settled, held);
      (id in after <==> id in verdicts) && (id in verdicts ==> after[id] == verdicts[id])
  {
    if barriers != [] {
      assert barriers[|barriers| - 1].id != id;
      JudgedOther(barriers[..|barriers| - 1], verdicts, firstFailed, settled, held, id);
    }
  }

  lemma {:induction false} JudgedOwn(barriers: seq<Barrier>, verdicts: map<nat, Verdict>, firstFailed: Option<nat>,
                                     settled: nat, held: map<nat, Reservation>, i: nat)
    requires Distinguished(barriers) && i < |barriers|
    ensures var after, verdict := Judged(barriers, verdicts, firstFailed, settled, held), Judge(barriers[i], firstFailed, settled, held);
      && (verdict.Some? ==> barriers[i].id in after && after[barriers[i].id] == verdict.value)
      && (verdict.None? ==> (barriers[i].id in after <==> barriers[i].id in verdicts))
  {
    var init := barriers[..|barriers| - 1];
    if i < |init| {
      JudgedOwn(init, verdicts, firstFailed, settled, held, i);
    } else {
      JudgedOther(init, verdicts, firstFailed, settled, held, barriers[i].id);
    }
  }

  lemma {:induction false} StillWaitingAt(barriers: seq<Barrier>, firstFailed: Option<nat>, settled: nat, held: map<nat, Reservation>)
    requires Distinguished(barriers)
    ensures var rest := StillWaiting(barriers, firstFailed, settled, held);
      && |rest| <= |barriers|
      && (forall b :: b in rest <==> b in barriers && Judge(b, firstFailed, settled, held).None?)
      && Distinguished(rest)
  {
    if barriers != [] {
      var n := |barriers| - 1;
      StillWaitingAt(barriers[..n], firstFailed, settled, held);
      assert forall b :: b in barriers <==> b in barriers[..n] || b == barriers[n];
      forall b | b in barriers[..n]
        ensures b.id != barriers[n].id
      {
      }
    }
  }

  /** Settling keeps the books on barriers: each one resolved gets its only verdict, the others go on waiting. */
  lemma SettledAccountable(barriers: seq<Barrier>, verdicts: map<nat, Verdict>, asked: seq<Barrier>, admitted: nat,
                           firstFailed: Option<nat>, settled: nat, held: map<nat, Reservation>)
    requires Accountable(barriers, verdicts, asked, admitted)
    ensures Accountable(StillWaiting(barriers, firstFailed, settled, held),
                        Judged(barriers, verdicts, firstFailed, settled, held), asked, admitted)
  {
    StillWaitingAt(barriers, firstFailed, settled, held);
    var rest, after := StillWaiting(barriers, firstFailed, settled, held), Judged(barriers, verdicts, firstFailed, settled, held);
    forall i | 0 <= i < |rest|
      ensures rest[i] in barriers && rest[i].id < |asked| && asked[rest[i].id] == rest[i] && rest[i].id !in after
    {
      assert rest[i] in rest;
      var j :| 0 <= j < |barriers| && barriers[j] == rest[i];
      JudgedOwn(barriers, verdicts, firstFailed, settled, held, j);
    }
    forall id: nat | id < |asked|
      ensures id in after || Waits(rest, id)
    {
      if Waits(barriers, id) {
        var i :| 0 <= i < |barriers| && barriers[i].id == id;
        JudgedOwn(barriers, verdicts, firstFailed, settled, held, i);
        if Judge(barriers[i], firstFailed, settled, held).None? {
          assert barriers[i] in rest;
        }
      } else {
        JudgedOther(barriers, verdicts, firstFailed, settled, held, id);
      }
    }
    forall id | id in after
      ensures id < |asked|
    {
      if !Waits(barriers, id) {
        JudgedOther(barriers, verdicts, firstFailed, settled, held, id);
      }
    }
  }

  lemma SettledHonest(barriers: seq<Barrier>, verdicts: map<nat, Verdict>, asked: seq<Barrier>, held: map<nat, Reservation>,
                      firstFailed: Option<nat>, settled: nat, current: seq<Work>, queue: seq<Job>, admitted: nat,
                      committed: set<nat>, lost: set<nat>, failures: set<nat>)
    requires Accountable(barriers, verdicts, asked, admitted) && Honest(verdicts, asked, committed, failures, settled)
    requires Ordered(current, queue, settled, admitted) && Tracked(current, queue, admitted, committed, lost)
    requires Failing(failures, firstFailed, lost)
    ensures Honest(Judged(barriers, verdicts, firstFailed, settled, held), asked, committed, failures, settled)
  {
    var after := Judged(barriers, verdicts, firstFailed, settled, held);
    forall id | id in after
      ensures id < |asked| && Truthful(after[id], asked[id], committed, failures, settled)
    {
      if Waits(barriers, id) {
        var i :| 0 <= i < |barriers| && barriers[i].id == id;
        JudgedOwn(barriers, verdicts, firstFailed, settled, held, i);
        JudgedTruthfully(barriers[i], firstFailed, settled, held, current, queue, admitted, committed, lost, failures);
      } else {
        JudgedOther(barriers, verdicts, firstFailed, settled, held, id);
      }
    }
  }
}
