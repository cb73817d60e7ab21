/**
  From handoffs to the row: the row of a key is what the runs that were handed off and written so far teach an empty
  profile. Conditions are that the row starts absent and no retention pass deletes it, that nobody else writes under
  the key, and that nothing was lost.
 */
module StoredRuns {
  import opened Wrappers
  import opened Tables
  import opened Transaction
  import opened Publications
  import opened Barriers
  import opened Acknowledgements
  import opened Aggregates
  import opened CarriedRuns
  import opened Learning
  import opened RunTraces
  import Flushing
  import Lane
  import LaneRuns
  import LostAnswers
  import ProgressHistory
  import Protocol
  import Stored = History
  import Timing

  /** Every handoff the store was offered was prepared, and none was told False. */
  ghost predicate Clean(l: Protocol.Lane, closures: map<nat, Handoff>) {
    forall n :: n in closures && n < l.next ==> n in l.batchOf && (n in l.acks ==> l.acks[n])
  }

  /** The numbers below it are written, unless they failed. */
  function Frontier(k: Lane.Books, l: Protocol.Lane, log: seq<Batch>): nat {
    if l.current.Some? && l.current.value !in log && k.current != [] then k.current[0].number else l.next
  }

  /** Since the log had `start` entries it got exactly the deltas of the handoffs below the frontier. */
  ghost predicate InLog(log: seq<Batch>, handed: seq<nat>, closures: map<nat, Handoff>, f: nat, k: ProgressHistory.Key, start: nat)
  {
    && k.TimingKey? && start <= |log|
    && LogDeltas(log[start..], k.profile) == DeltasOf(PartsOf(Under(handed, f), closures, k.profile), k.stepCount)
  }

  ghost predicate Arrived(k: Lane.Books, l: Protocol.Lane, log: seq<Batch>, handed: seq<nat>, closures: map<nat, Handoff>,
                          key: ProgressHistory.Key, start: nat)
  {
    key.TimingKey? && start <= |log| && (Clean(l, closures) ==> InLog(log, handed, closures, Frontier(k, l, log), key, start))
  }

  // ---- one batch ----------------------------------------------------------------------------------------------

  /** Where the handoffs are relative to the batch: before everything unseen, in it, or after it. */
  ghost predicate Around(k: Lane.Books, l: Protocol.Lane, handed: seq<nat>) {
    && Rising(k.current) && Compact(handed, k.current)
    && (k.current != [] ==> forall n :: n in handed ==> n < l.next || k.current[0].number <= n)
  }

  /** A batch without a handoff does not matter to them. */
  lemma NothingCrossed(handed: seq<nat>, current: seq<Work>, f: nat)
    requires current != [] && Rising(current) && Compact(handed, current) && f <= current[0].number
    requires forall n :: n in handed ==> n < f || current[0].number <= n
    requires forall i :: 0 <= i < |current| ==> current[i].number !in handed
    ensures Under(handed, current[|current| - 1].number + 1) == Under(handed, f)
  {
    forall n | n in handed
      ensures !InWorks(current, n)
    {
    }
    assert current[0].number <= current[|current| - 1].number;
    UnderGap(handed, f, current[|current| - 1].number + 1);
  }

  /** The batch could not be offered: its publications have no batch for good. */
  lemma RefusedArrived(k: Lane.Books, l: Protocol.Lane, m: Protocol.Lane, log: seq<Batch>, handed: seq<nat>,
                       closures: map<nat, Handoff>, key: ProgressHistory.Key, start: nat)
    requires key.TimingKey? && Arrived(k, l, log, handed, closures, key, start) && Around(k, l, handed) && Handoffs(closures, handed)
    requires l.current.None? && k.current != [] && l.next <= k.current[0].number && forall n :: n in l.batchOf ==> n < l.next
    requires m.current.None? && m.batchOf == l.batchOf && m.next == k.current[|k.current| - 1].number + 1
    requires Clean(m, closures) ==> Clean(l, closures)
    ensures Arrived(k, m, log, handed, closures, key, start)
  {
    if Clean(m, closures) {
      assert forall i :: 0 <= i < |k.current| ==> l.next <= k.current[i].number < m.next && k.current[i].number !in closures;
      NothingCrossed(handed, k.current, l.next);
    }
  }

  /** A batch that is offered starts its frontier at its first publication. */
  lemma FormedArrived(k: Lane.Books, l: Protocol.Lane, m: Protocol.Lane, log: seq<Batch>, handed: seq<nat>,
                      closures: map<nat, Handoff>, key: ProgressHistory.Key, start: nat)
    requires key.TimingKey? && Arrived(k, l, log, handed, closures, key, start) && Around(k, l, handed)
    requires l.current.None? && k.current != [] && l.next <= k.current[0].number
    requires m.current.Some? && m.current.value !in log
    requires Clean(m, closures) ==> Clean(l, closures)
    ensures Arrived(k, m, log, handed, closures, key, start)
  {
    UnderGap(handed, l.next, k.current[0].number);
  }

  lemma BeginClean(l: Protocol.Lane, e: Protocol.Event, p: Policy, closures: map<nat, Handoff>)
    requires l.current.None? && e.Begin? && e.numbers != [] && |e.prepared| == |e.numbers| && Protocol.Increasing(e.numbers) && l.next <= e.numbers[0]
    ensures var m := Protocol.Begun(l, e, p);
      && (Clean(m, closures) ==> Clean(l, closures)) && m.next == e.numbers[|e.numbers| - 1] + 1
      && (m.current.None? ==> m.batchOf == l.batchOf)
  {
    Protocol.JobsAhead(e.numbers, l.next);
    BegunFacts(l, e, p);
    if Clean(Protocol.Begun(l, e, p), closures) {
      BegunClean(l, Protocol.Begun(l, e, p), e.numbers, Protocol.Numbered(e.numbers, e.prepared), closures);
    }
  }

  lemma BegunFacts(l: Protocol.Lane, e: Protocol.Event, p: Policy)
    requires l.current.None? && e.Begin? && e.numbers != [] && |e.prepared| == |e.numbers| && Protocol.Increasing(e.numbers)
    ensures var m, data := Protocol.Begun(l, e, p), Protocol.Numbered(e.numbers, e.prepared);
      && m.next == e.numbers[|e.numbers| - 1] + 1 && (m.current.None? ==> m.batchOf == l.batchOf)
      && (forall n :: n in data ==> n in Protocol.Jobs(e.numbers))
      && (forall n :: n in m.batchOf ==> n in l.batchOf || n in data)
      && (forall n :: n in l.acks && n !in Protocol.Jobs(e.numbers) ==> n in m.acks && m.acks[n] == l.acks[n])
  {
    hide Protocol.Increasing, Combined, ValidContent;
    Protocol.NumberedIs(e.numbers, e.prepared);
    forall n | n in Protocol.Numbered(e.numbers, e.prepared)
      ensures n in Protocol.Jobs(e.numbers)
    {
      assert n in e.numbers;
    }
  }

  lemma BeginArrived(k: Lane.Books, l: Protocol.Lane, e: Protocol.Event, p: Policy, log: seq<Batch>, handed: seq<nat>,
                     closures: map<nat, Handoff>, key: ProgressHistory.Key, start: nat)
    requires key.TimingKey? && Arrived(k, l, log, handed, closures, key, start) && Around(k, l, handed) && Handoffs(closures, handed)
    requires l.current.None? && e.Begin? && Flushing.Prepared(k) && e.numbers == Flushing.NumbersOf(k.current) && |e.prepared| == |e.numbers|
    requires l.next <= k.current[0].number && forall n :: n in l.batchOf ==> n < l.next
    requires var m := Protocol.Begun(l, e, p); m.current.Some? ==> m.current.value !in log
    ensures Arrived(k, Protocol.Begun(l, e, p), log, handed, closures, key, start)
  {
    BeginClean(l, e, p, closures);
    if Protocol.Begun(l, e, p).current.Some? {
      FormedArrived(k, l, Protocol.Begun(l, e, p), log, handed, closures, key, start);
    } else {
      RefusedArrived(k, l, Protocol.Begun(l, e, p), log, handed, closures, key, start);
    }
  }

  /** Beginning a batch only adds to what has a batch and what is answered. */
  lemma BegunClean(l: Protocol.Lane, m: Protocol.Lane, numbers: seq<nat>, data: map<nat, Content>, closures: map<nat, Handoff>)
    requires Clean(m, closures) && l.next <= m.next && forall n :: n in Protocol.Jobs(numbers) ==> l.next <= n
    requires forall n :: n in data ==> n in Protocol.Jobs(numbers)
    requires forall n :: n in m.batchOf ==> n in l.batchOf || n in data
    requires forall n :: n in l.acks && n !in Protocol.Jobs(numbers) ==> n in m.acks && m.acks[n] == l.acks[n]
    ensures Clean(l, closures)
  {
  }

  /** What an attempt writes are the deltas of the batch's handoffs. */
  lemma WrittenDeltas(k: Lane.Books, l: Protocol.Lane, handed: seq<nat>, closures: map<nat, Handoff>, key: ProgressHistory.Key)
    requires key.TimingKey? && Handoffs(closures, handed) && Works(k, closures, key.profile) && Offered(k, l)
    requires forall n :: n in closures && IsFor(closures[n], key.profile) ==> closures[n].delta.key == key
    requires l.current.Some? && Clean(l, closures) && LostAnswers.Placed(l)
    requires forall i :: 0 <= i < |k.current| ==> k.current[i].number in l.jobs && k.current[i].number < l.next
    ensures DeltasFor(l.current.value.content.profiles, key.profile)
         == DeltasOf(PartsOf(Flushing.NumbersOf(k.current), closures, key.profile), key.stepCount)
  {
    forall i | 0 <= i < |k.made| && k.current[i].number in closures
      ensures k.made[i].Some?
    {
      assert k.current[i].number in l.batchOf;
    }
    MadeDeltas(k.current, k.made, closures, handed, key);
    assert Flushing.NumbersOf(k.current)[..|k.made|] == Flushing.NumbersOf(k.current);
  }

  lemma LogMore(log: seq<Batch>, b: Batch, start: nat, key: ProfileKey)
    requires start <= |log|
    ensures LogDeltas((log + [b])[start..], key) == LogDeltas(log[start..], key) + DeltasFor(b.content.profiles, key)
  {
    assert (log + [b])[start..] == log[start..] + [b];
    assert (log[start..] + [b])[..|log[start..]|] == log[start..];
  }

  /** The batch reaches the log: the frontier passes over it and the log gets its deltas. */
  lemma BatchArrives(k: Lane.Books, l: Protocol.Lane, log: seq<Batch>, handed: seq<nat>, closures: map<nat, Handoff>,
                     key: ProgressHistory.Key, start: nat)
    requires key.TimingKey? && Handoffs(closures, handed) && Works(k, closures, key.profile) && Offered(k, l) && LostAnswers.Placed(l)
    requires forall n :: n in closures && IsFor(closures[n], key.profile) ==> closures[n].delta.key == key
    requires Clean(l, closures) && Around(k, l, handed) && l.current.Some?
    requires forall i :: 0 <= i < |k.current| ==> k.current[i].number in l.jobs && k.current[i].number < l.next
    requires l.next == k.current[|k.current| - 1].number + 1 && InLog(log, handed, closures, k.current[0].number, key, start)
    ensures InLog(log + [l.current.value], handed, closures, l.next, key, start)
  {
    WrittenDeltas(k, l, handed, closures, key);
    LogMore(log, l.current.value, start, key.profile);
    UnderBatch(handed, k.current, closures, key.profile, |k.current|);
    var numbers := Flushing.NumbersOf(k.current);
    assert numbers[..|k.current|] == numbers;
    DeltasOfConcat(PartsOf(Under(handed, k.current[0].number), closures, key.profile), PartsOf(numbers, closures, key.profile), key.stepCount);
  }

  /** A batch that failed had no handoff, if all handoffs so far are clean. */
  lemma BatchFails(k: Lane.Books, l: Protocol.Lane, m: Protocol.Lane, handed: seq<nat>, closures: map<nat, Handoff>)
    requires Handoffs(closures, handed) && Around(k, l, handed) && k.current != [] && Clean(m, closures)
    requires forall i :: 0 <= i < |k.current| ==>
               k.current[i].number < m.next && k.current[i].number in m.acks && !m.acks[k.current[i].number]
    ensures Under(handed, k.current[|k.current| - 1].number + 1) == Under(handed, k.current[0].number)
  {
    NothingCrossed(handed, k.current, k.current[0].number);
  }

  lemma AnsweredClean(l: Protocol.Lane, result: Result<Receipt>, spare: Producer, maxAttempts: nat, closures: map<nat, Handoff>)
    requires LostAnswers.Placed(l) && l.current.Some? && Clean(Protocol.Answered(l, result, spare, maxAttempts), closures)
    ensures Clean(l, closures)
  {
  }

  /** One attempt, whatever became of it and whatever the lane makes of its answer. */
  lemma AttemptArrived(k: Lane.Books, l: Protocol.Lane, log: seq<Batch>, after: seq<Batch>, result: Result<Receipt>, spare: Producer,
                       maxAttempts: nat, handed: seq<nat>, closures: map<nat, Handoff>, key: ProgressHistory.Key, start: nat)
    requires key.TimingKey? && Handoffs(closures, handed) && Works(k, closures, key.profile) && Offered(k, l) && LostAnswers.Placed(l)
    requires forall n :: n in closures && IsFor(closures[n], key.profile) ==> closures[n].delta.key == key
    requires Around(k, l, handed) && l.current.Some? && Arrived(k, l, log, handed, closures, key, start)
    requires forall i :: 0 <= i < |k.current| ==> k.current[i].number in l.jobs && k.current[i].number < l.next
    requires k.current != [] ==> l.next == k.current[|k.current| - 1].number + 1
    requires after == log || (after == log + [l.current.value] && l.current.value !in log)
    requires result.Success? ==> l.current.value in after
    ensures Arrived(k, Protocol.Answered(l, result, spare, maxAttempts), after, handed, closures, key, start)
  {
    hide Around, Handoffs;
    var m := Protocol.Answered(l, result, spare, maxAttempts);
    if Clean(m, closures) {
      AnsweredClean(l, result, spare, maxAttempts, closures);
      if after != log {
        BatchArrives(k, l, log, handed, closures, key, start);
        assert l.current.value in after;
      } else {
        QuietAttempt(k, l, log, result, spare, maxAttempts, handed, closures);
      }
    }
  }

  /** An attempt that adds nothing to the log leaves the frontier, or moves it over a batch without handoffs. */
  lemma QuietAttempt(k: Lane.Books, l: Protocol.Lane, log: seq<Batch>, result: Result<Receipt>, spare: Producer, maxAttempts: nat,
                     handed: seq<nat>, closures: map<nat, Handoff>)
    requires Handoffs(closures, handed) && Around(k, l, handed) && l.current.Some? && (result.Success? ==> l.current.value in log)
    requires forall i :: 0 <= i < |k.current| ==> k.current[i].number in l.jobs && k.current[i].number < l.next
    requires k.current != [] ==> l.next == k.current[|k.current| - 1].number + 1
    requires Clean(Protocol.Answered(l, result, spare, maxAttempts), closures)
    ensures Under(handed, Frontier(k, Protocol.Answered(l, result, spare, maxAttempts), log)) == Under(handed, Frontier(k, l, log))
  {
    hide Under;
    var m := Protocol.Answered(l, result, spare, maxAttempts);
    if m.current.None? && l.current.value !in log && k.current != [] {
      BatchFails(k, l, m, handed, closures);
    }
  }
}
