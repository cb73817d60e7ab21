/** Every run of one store. */
module History {
  // Writes by any client, maintenance, commits whose acknowledgement is lost and attempts that fail before committing.
  // The log lists the batches that took effect.

  import opened Wrappers
  import opened Tables
  import opened Transaction
  import opened Ledger
  import Prune

  // ---- the log of applied batches ------------------------------------------------------------------

  ghost function CountOf(log: seq<Batch>, p: Producer): nat {
    if log == [] then 0
    else CountOf(log[..|log| - 1], p) + if log[|log| - 1].producer == p then 1 else 0
  }

  ghost function Latest(log: seq<Batch>, p: Producer): Option<Content> {
    if log == [] then None
    else if log[|log| - 1].producer == p then Some(log[|log| - 1].content)
    else Latest(log[..|log| - 1], p)
  }

  /** Every producer's batches appear as 1, 2, 3, ... in this order. */
  ghost predicate Contiguous(log: seq<Batch>) {
    forall i :: 0 <= i < |log| ==> log[i].sequence == CountOf(log[..i], log[i].producer) + 1
  }

  lemma {:induction false} CountGrows(log: seq<Batch>, i: nat, p: Producer)
    requires i <= |log|
    ensures CountOf(log[..i], p) <= CountOf(log, p)
    ensures i < |log| && log[i].producer == p ==> CountOf(log[..i], p) + 1 <= CountOf(log, p)
    decreases |log|
  {
    if i < |log| {
      var init := log[..|log| - 1];
      CountGrows(init, i, p);
      assert init[..i] == log[..i];
      if i == |log| - 1 {
        assert init == log[..i];
      }
    } else {
      assert log[..i] == log;
    }
  }

  /** A batch identity occurs at most once in a contiguous log. */
  lemma AppliedAtMostOnce(log: seq<Batch>, i: nat, j: nat)
    requires Contiguous(log) && i < j < |log|
    ensures log[i].producer != log[j].producer || log[i].sequence != log[j].sequence
  {
    if log[i].producer == log[j].producer {
      CountGrows(log[..j], i, log[i].producer);
      assert log[..j][..i] == log[..i];
    }
  }

  lemma ContiguousAppend(log: seq<Batch>, b: Batch)
    requires Contiguous(log) && b.sequence == CountOf(log, b.producer) + 1
    ensures Contiguous(log + [b])
    ensures forall p :: CountOf(log + [b], p) == CountOf(log, p) + (if p == b.producer then 1 else 0)
    ensures forall p :: Latest(log + [b], p) == if p == b.producer then Some(b.content) else Latest(log, p)
  {
    var more := log + [b];
    assert more[..|more| - 1] == log;
    forall i | 0 <= i < |more|
      ensures more[i].sequence == CountOf(more[..i], more[i].producer) + 1
    {
      assert more[..i] == log[..i];
    }
  }

  lemma {:induction false} CountedBatch(log: seq<Batch>, p: Producer, n: nat) returns (i: nat)
    requires Contiguous(log) && 1 <= n <= CountOf(log, p)
    ensures i < |log| && log[i].producer == p && log[i].sequence == n
    ensures n == CountOf(log, p) ==> Latest(log, p) == Some(log[i].content)
  {
    var init, last := log[..|log| - 1], log[|log| - 1];
    if last.producer == p && n == CountOf(log, p) {
      i := |log| - 1;
    } else {
      assert Contiguous(init) by {
        forall k | 0 <= k < |init|
          ensures init[k].sequence == CountOf(init[..k], init[k].producer) + 1
        {
          assert init[..k] == log[..k];
        }
      }
      i := CountedBatch(init, p, n);
    }
  }

  // ---- the watermark ledger summarizes the log -----------------------------------------------------

  /**
    A stored watermark is the count and the latest content of its producer's applied batches; a producer
    with applied batches but no watermark is past its horizon on the stored clock.
   */
  ghost predicate Logged(log: seq<Batch>, s: Store, p: Policy) {
    && Contiguous(log) && FixedExpiry(s, p)
    && (forall k :: k in s.producers ==>
          s.producers[k].sequence == CountOf(log, k) >= 1 && s.producers[k].digest == Latest(log, k))
    && (forall k :: k !in s.producers && CountOf(log, k) > 0 ==> Expiry(k, p) <= s.meta.clock)
  }

  datatype History = History(store: Store, log: seq<Batch>)

  ghost predicate Consistent(h: History, p: Policy) {
    Sound(h.store) && Logged(h.log, h.store, p)
  }

  /**
    What the environment does to one attempt: nothing, stop it before its commit, or let it commit and then fail, which
    loses or replaces its answer. Either failure may be of any class the caller tells apart.
   */
  datatype Fault = Clean | Aborted(error: Error) | Lost(error: Error)

  datatype Operation = Offer(batch: Batch, wall: int, fault: Fault) | Tidy(wall: int, fault: Fault)

  /** What the caller sees: the failure, if there is one, or the answer. */
  ghost function Outcome(s: Store, op: Operation, c: Config): Result<Receipt> {
    if op.fault.Clean? then Committed(s, op, c).result else Failure(op.fault.error)
  }

  /** What a transaction leaves behind when it reaches its commit. */
  ghost function Committed(s: Store, op: Operation, c: Config): Written {
    match op
    case Offer(batch, wall, _) => WriteBatch(s, batch, wall, c)
    case Tidy(wall, _) => Maintain(s, wall, c)
  }

  /** Only a published batch is logged; a duplicate and a refusal are not. */
  function Extended(log: seq<Batch>, op: Operation, result: Result<Receipt>): seq<Batch> {
    if op.Offer? && result == Success(Receipt(op.batch.sequence, false)) then log + [op.batch] else log
  }

  function After(h: History, op: Operation, w: Written): History {
    if op.fault.Aborted? then h else History(w.store, Extended(h.log, op, w.result))
  }

  ghost function Apply(h: History, op: Operation, c: Config): History {
    After(h, op, Committed(h.store, op, c))
  }

  lemma PassKeepsLedger(log: seq<Batch>, s: Store, now: int, p: Policy)
    requires Sound(s) && Logged(log, s, p) && s.meta.clock == now
    ensures Logged(log, Prune.PruneAll(s, now, p).store, p) && Prune.PruneAll(s, now, p).store.meta.clock == now
  {
    Prune.PruneRetains(s, now, p);
  }

  lemma ClockKeepsLedger(log: seq<Batch>, s: Store, wall: int, p: Policy)
    requires Logged(log, s, p)
    ensures Logged(log, Clocked(s, wall), p)
  {
  }

  lemma AdvanceKeepsLedger(log: seq<Batch>, s: Store, u: Store, b: Batch, p: Policy)
    requires Logged(log, s, p) && Advances(u, s, b, s.meta.clock, p)
    requires b.sequence == ExpectedSequence(s, b.producer) && Expiry(b.producer, p) > s.meta.clock
    ensures Logged(log + [b], u, p)
  {
    if b.producer !in s.producers {
      assert CountOf(log, b.producer) == 0;
    }
    ContiguousAppend(log, b);
  }

  lemma PublishKeepsLedger(log: seq<Batch>, t: Store, b: Batch, c: Config)
    requires Sound(t) && Logged(log, t, c.policy)
    requires b.sequence == ExpectedSequence(t, b.producer) && !OutsideHorizon(b, t.meta.clock, c.policy)
    requires Publish(t, b, t.meta.clock, c).Success?
    ensures Logged(log + [b], Publish(t, b, t.meta.clock, c).value, c.policy)
  {
    PublishEffect(t, b, t.meta.clock, c);
    AdvanceKeepsLedger(log, t, Publish(t, b, t.meta.clock, c).value, b, c.policy);
  }

  /** A transaction either leaves the log alone or appends exactly the batch it published. */
  lemma WriteKeepsLedger(log: seq<Batch>, s: Store, b: Batch, wall: int, fault: Fault, c: Config)
    requires Sound(s) && Logged(log, s, c.policy)
    ensures var w := WriteBatch(s, b, wall, c);
      Logged(Extended(log, Offer(b, wall, fault), w.result), w.store, c.policy)
  {
    WriteOutcomes(s, b, wall, c);
    ClockKeepsLedger(log, s, wall, c.policy);
    if WriteBatch(s, b, wall, c).result == Success(Receipt(b.sequence, false)) {
      ClockedSound(s, wall);
      PublishKeepsLedger(log, Clocked(s, wall), b, c);
    }
  }

  lemma MaintainKeepsLedger(log: seq<Batch>, s: Store, wall: int, c: Config)
    requires Sound(s) && Logged(log, s, c.policy)
    ensures Logged(log, Maintain(s, wall, c).store, c.policy)
  {
    ClockKeepsLedger(log, s, wall, c.policy);
    ClockedSound(s, wall);
    PassKeepsLedger(log, Clocked(s, wall), Clocked(s, wall).meta.clock, c.policy);
  }

  lemma CommittedKeepsConsistent(log: seq<Batch>, s: Store, op: Operation, c: Config)
    requires Sound(s) && Logged(log, s, c.policy)
    ensures var w := Committed(s, op, c); Sound(w.store) && Logged(Extended(log, op, w.result), w.store, c.policy)
  {
    match op
    case Offer(b, wall, fault) =>
      WriteKeepsSound(s, b, wall, c);
      WriteKeepsLedger(log, s, b, wall, fault, c);
    case Tidy(wall, _) =>
      MaintainKeepsSound(s, wall, c);
      MaintainKeepsLedger(log, s, wall, c);
  }

  lemma ApplyKeepsConsistent(h: History, op: Operation, c: Config)
    requires Consistent(h, c.policy)
    ensures Consistent(Apply(h, op, c), c.policy)
  {
    CommittedKeepsConsistent(h.log, h.store, op, c);
  }

  ghost function ApplyAll(h: History, ops: seq<Operation>, c: Config): History {
    if ops == [] then h else Apply(ApplyAll(h, ops[..|ops| - 1], c), ops[|ops| - 1], c)
  }

  /** Over every run, whatever is lost or retried, the store stays sound and its ledger summarizes the log. */
  lemma {:induction false} EveryRunIsConsistent(h: History, ops: seq<Operation>, c: Config)
    requires Consistent(h, c.policy)
    ensures Consistent(ApplyAll(h, ops, c), c.policy)
  {
    if ops != [] {
      EveryRunIsConsistent(h, ops[..|ops| - 1], c);
      ApplyKeepsConsistent(ApplyAll(h, ops[..|ops| - 1], c), ops[|ops| - 1], c);
    }
  }

  lemma EmptyHistoryIsConsistent(p: Policy)
    ensures Consistent(History(EMPTY_STORE, []), p)
  {
    EmptyStoreIsSound();
  }

  /** From an empty store no batch identity ever takes effect twice. */
  lemma NoBatchAppliesTwice(ops: seq<Operation>, c: Config, i: nat, j: nat)
    requires i < j < |ApplyAll(History(EMPTY_STORE, []), ops, c).log|
    ensures var log := ApplyAll(History(EMPTY_STORE, []), ops, c).log;
      log[i].producer != log[j].producer || log[i].sequence != log[j].sequence
  {
    EmptyHistoryIsConsistent(c.policy);
    EveryRunIsConsistent(History(EMPTY_STORE, []), ops, c);
    AppliedAtMostOnce(ApplyAll(History(EMPTY_STORE, []), ops, c).log, i, j);
  }

  // ---- forgetting a watermark ----------------------------------------------------------------------

  /** The producer took effect once and its watermark is gone. */
  ghost predicate Forgotten(h: History, k: Producer) {
    k !in h.store.producers && CountOf(h.log, k) > 0
  }

  ghost predicate Unchanged(w: Written, s: Store) {
    w.result.Failure? && w.store == s
  }

  /** Its horizon is past on the stored clock, so the transaction refuses it before looking at the ledger. */
  lemma ForgottenRefused(h: History, b: Batch, wall: int, c: Config)
    requires Logged(h.log, h.store, c.policy) && Forgotten(h, b.producer)
    ensures Unchanged(WriteBatch(h.store, b, wall, c), h.store)
  {
    assert OutsideHorizon(b, Clocked(h.store, wall).meta.clock, c.policy);
  }

  lemma PublishDoesNotRevive(t: Store, b: Batch, c: Config, k: Producer)
    requires Sound(t) && FixedExpiry(t, c.policy) && !OutsideHorizon(b, t.meta.clock, c.policy)
    requires Publish(t, b, t.meta.clock, c).Success? && k !in t.producers && b.producer != k
    ensures k !in Publish(t, b, t.meta.clock, c).value.producers
  {
    PublishEffect(t, b, t.meta.clock, c);
  }

  lemma WriteDoesNotRevive(s: Store, b: Batch, wall: int, c: Config, k: Producer)
    requires Sound(s) && FixedExpiry(s, c.policy) && k !in s.producers && b.producer != k
    ensures k !in WriteBatch(s, b, wall, c).store.producers
  {
    WriteOutcomes(s, b, wall, c);
    if WriteBatch(s, b, wall, c).result == Success(Receipt(b.sequence, false)) {
      ClockedSound(s, wall);
      PublishDoesNotRevive(Clocked(s, wall), b, c, k);
    }
  }

  lemma MaintainDoesNotRevive(s: Store, wall: int, c: Config, k: Producer)
    requires Sound(s) && k !in s.producers
    ensures k !in Maintain(s, wall, c).store.producers
  {
    ClockedSound(s, wall);
    Prune.PruneRetains(Clocked(s, wall), Clocked(s, wall).meta.clock, c.policy);
  }

  lemma CommittedDoesNotRevive(h: History, op: Operation, c: Config, k: Producer)
    requires Consistent(h, c.policy) && Forgotten(h, k)
    ensures var w := Committed(h.store, op, c);
      k !in w.store.producers && (op.Offer? && op.batch.producer == k ==> Unchanged(w, h.store))
  {
    match op
    case Offer(b, wall, _) =>
      if b.producer == k {
        ForgottenRefused(h, b, wall, c);
      } else {
        WriteDoesNotRevive(h.store, b, wall, c, k);
      }
    case Tidy(wall, _) =>
      MaintainDoesNotRevive(h.store, wall, c, k);
  }

  lemma ForgottenAfter(h: History, op: Operation, w: Written, k: Producer)
    requires Forgotten(h, k) && k !in w.store.producers
    requires op.Offer? && op.batch.producer == k ==> Unchanged(w, h.store)
    ensures Forgotten(After(h, op, w), k) && CountOf(After(h, op, w).log, k) == CountOf(h.log, k)
  {
    if op.Offer? {
      assert (h.log + [op.batch])[..|h.log|] == h.log;
    }
  }

  lemma ForgottenStays(h: History, op: Operation, c: Config, k: Producer)
    requires Consistent(h, c.policy) && Forgotten(h, k)
    ensures Forgotten(Apply(h, op, c), k) && CountOf(Apply(h, op, c).log, k) == CountOf(h.log, k)
  {
    CommittedDoesNotRevive(h, op, c, k);
    ForgottenAfter(h, op, Committed(h.store, op, c), k);
  }

  /** Once a watermark has been pruned no later batch of its producer takes effect, however the wall clock moves. */
  lemma {:induction false} ForgettingIsSafe(h: History, ops: seq<Operation>, c: Config, k: Producer)
    requires Consistent(h, c.policy) && Forgotten(h, k)
    ensures Forgotten(ApplyAll(h, ops, c), k) && CountOf(ApplyAll(h, ops, c).log, k) == CountOf(h.log, k)
  {
    if ops != [] {
      var init := ops[..|ops| - 1];
      ForgettingIsSafe(h, init, c, k);
      EveryRunIsConsistent(h, init, c);
      ForgottenStays(ApplyAll(h, init, c), ops[|ops| - 1], c, k);
    }
  }
}
