/** The acknowledgement callbacks that owners hand to the lane with a publication, as relations on values. */
module Acknowledgements {
  import opened Wrappers
  import opened Tables
  import opened Barriers

  /** A callback was called: for which publication, and with which answer. */
  datatype Call = Call(number: nat, committed: bool)

  /**
    `owed` are the publications that came with a callback. While a finished batch is acknowledged, `answered` of its
    publications are done; `error` says its write failed. `calls` is the history of all calls.
   */
  datatype Callbacks = Callbacks(owed: set<nat>, answered: nat, error: bool, calls: seq<Call>)

  const NO_CALLBACKS := Callbacks({}, 0, false, [])

  ghost predicate Called(calls: seq<Call>, n: nat) {
    exists i :: 0 <= i < |calls| && calls[i].number == n
  }

  /** The publication was settled with its batch, or its turn among the acknowledgements of its batch is over. */
  ghost predicate Past(current: seq<Work>, answered: nat, settled: nat, n: nat) {
    n <= settled || exists i :: 0 <= i < answered && i < |current| && current[i].number == n
  }

  /** No callback is called twice, and each says what became of its publication. */
  ghost predicate CalledOnce(a: Callbacks, committed: set<nat>) {
    && (forall i, j :: 0 <= i < j < |a.calls| ==> a.calls[i].number != a.calls[j].number)
    && forall i :: 0 <= i < |a.calls| ==> a.calls[i].number in a.owed && (a.calls[i].committed <==> a.calls[i].number in committed)
  }

  /** Whoever is owed a callback is waiting for its turn or was called. */
  ghost predicate Owing(a: Callbacks, current: seq<Work>, queue: seq<Job>, settled: nat, admitted: nat) {
    && (forall n :: n in a.owed ==> 1 <= n <= admitted && (n <= settled || InWorks(current, n) || InQueue(queue, n)))
    && (forall n :: n in a.owed ==> (Called(a.calls, n) <==> Past(current, a.answered, settled, n)))
  }

  /** A publication has a callback exactly when it is a deferred profile. */
  ghost predicate Attached(owed: set<nat>, current: seq<Work>, queue: seq<Job>) {
    && (forall i :: 0 <= i < |current| ==> (current[i].profile <==> current[i].number in owed))
    && forall i :: 0 <= i < |queue| && queue[i].Publication? ==> (queue[i].work.profile <==> queue[i].work.number in owed)
  }

  /** Acknowledgements start once a batch is finished and then tell each publication its part of the outcome. */
  ghost predicate Answering(a: Callbacks, current: seq<Work>, made: seq<Option<Content>>, released: bool, committed: set<nat>) {
    && a.answered <= |current| && (!released ==> a.answered == 0)
    && (released ==> |made| == |current|)
    && forall i :: 0 <= i < |current| ==> (current[i].number in committed <==> released && !a.error && i < |made| && made[i].Some?)
  }

  /** A publication with a new number joins the queue. */
  lemma OwingMore(a: Callbacks, current: seq<Work>, queue: seq<Job>, settled: nat, admitted: nat, w: Work)
    requires Owing(a, current, queue, settled, admitted) && Attached(a.owed, current, queue)
    requires Ordered(current, queue, settled, admitted) && w.number == admitted + 1
    requires forall i :: 0 <= i < |a.calls| ==> a.calls[i].number in a.owed
    ensures var b := if w.profile then a.(owed := a.owed + {w.number}) else a;
      Owing(b, current, queue + [Publication(w)], settled, w.number) && Attached(b.owed, current, queue + [Publication(w)])
  {
    var b := if w.profile then a.(owed := a.owed + {w.number}) else a;
    var more := queue + [Publication(w)];
    assert more[|queue|] == Publication(w);
    forall n | n in b.owed
      ensures 1 <= n <= w.number && (n <= settled || InWorks(current, n) || InQueue(more, n))
    {
      if n == w.number {
        assert more[|queue|].work.number == n;
      } else if InQueue(queue, n) {
        var i :| 0 <= i < |queue| && queue[i].Publication? && queue[i].work.number == n;
        assert more[i] == queue[i];
      }
    }
    assert w.number !in a.owed;
  }

  /** The next publication of a finished batch is answered. */
  lemma OwingNext(a: Callbacks, current: seq<Work>, queue: seq<Job>, settled: nat, admitted: nat, committed: bool)
    requires Owing(a, current, queue, settled, admitted) && Attached(a.owed, current, queue)
    requires Ordered(current, queue, settled, admitted) && a.answered < |current|
    ensures var w := current[a.answered];
      var b := a.(answered := a.answered + 1, calls := if w.profile then a.calls + [Call(w.number, committed)] else a.calls);
      Owing(b, current, queue, settled, admitted) && (w.profile ==> !Called(a.calls, w.number))
  {
    var w := current[a.answered];
    var b := a.(answered := a.answered + 1, calls := if w.profile then a.calls + [Call(w.number, committed)] else a.calls);
    assert !Past(current, a.answered, settled, w.number);
    forall n | n in b.owed
      ensures Called(b.calls, n) <==> Past(current, b.answered, settled, n)
    {
      if n == w.number {
        assert b.calls[|a.calls|].number == n;
      } else if Called(a.calls, n) {
        var i :| 0 <= i < |a.calls| && a.calls[i].number == n;
        assert b.calls[i] == a.calls[i];
      }
    }
  }

  /** A batch that was answered completely is settled. */
  lemma OwingSettled(a: Callbacks, current: seq<Work>, queue: seq<Job>, settled: nat, admitted: nat)
    requires Owing(a, current, queue, settled, admitted) && Ordered(current, queue, settled, admitted)
    requires current != [] && a.answered == |current|
    ensures Owing(a.(answered := 0), [], queue, current[|current| - 1].number, admitted)
  {
    var last := current[|current| - 1].number;
    forall n | n in a.owed
      ensures n <= last || InQueue(queue, n)
      ensures Called(a.calls, n) <==> n <= last
    {
      if InWorks(current, n) {
        var i :| 0 <= i < |current| && current[i].number == n;
      }
      if n <= last && n > settled {
        assert !InQueue(queue, n);
      }
    }
  }

  /** The head of the queue moves into the batch. */
  lemma OwingAbsorbed(a: Callbacks, current: seq<Work>, queue: seq<Job>, settled: nat, admitted: nat)
    requires Owing(a, current, queue, settled, admitted) && a.answered == 0 && queue != [] && queue[0].Publication?
    ensures Owing(a, current + [queue[0].work], queue[1..], settled, admitted)
  {
    var more, rest := current + [queue[0].work], queue[1..];
    forall n | n in a.owed
      ensures n <= settled || InWorks(more, n) || InQueue(rest, n)
    {
      if InWorks(current, n) {
        var i :| 0 <= i < |current| && current[i].number == n;
        assert more[i].number == n;
      } else if InQueue(queue, n) {
        var i :| 0 <= i < |queue| && queue[i].Publication? && queue[i].work.number == n;
        if i == 0 {
          assert more[|current|].number == n;
        } else {
          assert rest[i - 1] == queue[i];
        }
      }
    }
  }

  /** A read at the head of the queue is taken. */
  lemma OwingPopped(a: Callbacks, current: seq<Work>, queue: seq<Job>, settled: nat, admitted: nat)
    requires Owing(a, current, queue, settled, admitted) && queue != [] && queue[0].Read?
    ensures Owing(a, current, queue[1..], settled, admitted)
  {
    forall n | n in a.owed && InQueue(queue, n)
      ensures InQueue(queue[1..], n)
    {
      var i :| 0 <= i < |queue| && queue[i].Publication? && queue[i].work.number == n;
      assert queue[1..][i - 1] == queue[i];
    }
  }

  /** A read joins the queue. */
  lemma OwingRead(a: Callbacks, current: seq<Work>, queue: seq<Job>, settled: nat, admitted: nat)
    requires Owing(a, current, queue, settled, admitted)
    ensures Owing(a, current, queue + [Read], settled, admitted)
  {
    forall n | n in a.owed && InQueue(queue, n)
      ensures InQueue(queue + [Read], n)
    {
      var i :| 0 <= i < |queue| && queue[i].Publication? && queue[i].work.number == n;
      assert (queue + [Read])[i] == queue[i];
    }
  }
}
