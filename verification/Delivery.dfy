/**
  The loop that writes one batch: offers repeated while the outcome is uncertain, with maintenance in between.
  It is a run of the protocol, so everything the protocol guarantees holds of it.
 */
module Delivery {
  import opened Wrappers
  import opened Tables
  import opened Transaction
  import opened History
  import opened Protocol
  import SQLiteBackend

  /** What the environment does to one attempt and to the maintenance after it. */
  datatype Moment = Moment(wall: int, fault: Fault, upkeepWall: int, upkeepFault: Fault)

  method Attempt(backend: SQLiteBackend.Backend, b: Batch, wall: int, fault: Fault) returns (r: Result<Receipt>)
    requires Sound(backend.State())
    modifies backend
    ensures Sound(backend.State())
    ensures r == Outcome(old(backend.State()), Offer(b, wall, fault), backend.config)
    ensures backend.State() == if fault.Aborted? then old(backend.State())
                               else WriteBatch(old(backend.State()), b, wall, backend.config).store
  {
    if fault.Aborted? {
      return Failure(fault.error);
    }
    r := backend.Write(b, wall);
    if fault.Lost? {
      r := Failure(fault.error);
    }
  }

  method Upkeep(backend: SQLiteBackend.Backend, wall: int, fault: Fault) returns (r: Result<Receipt>)
    requires Sound(backend.State())
    modifies backend
    ensures Sound(backend.State())
    ensures r == Outcome(old(backend.State()), Tidy(wall, fault), backend.config)
    ensures backend.State() == if fault.Aborted? then old(backend.State())
                               else Maintain(old(backend.State()), wall, backend.config).store
  {
    if fault.Aborted? {
      return Failure(fault.error);
    }
    r := backend.Maintain(wall);
    if fault.Lost? {
      r := Failure(fault.error);
    }
  }

  /** The protocol is at the start of another attempt on `b`, and the store is what the protocol says. */
  ghost predicate Poised(w: World, b: Batch, jobs: set<nat>, ready: set<nat>, spare: Producer, p: Policy) {
    forall x {:trigger Look(x)} :: x == w ==> PoisedParts(x, b, jobs, ready, spare, p)
  }

  ghost predicate Look(w: World) {
    true
  }

  ghost predicate PoisedParts(w: World, b: Batch, jobs: set<nat>, ready: set<nat>, spare: Producer, p: Policy) {
    && Inv(w, p) && w.lane.current == Some(b) && w.lane.jobs == jobs && w.lane.ready == ready
    && spare !in w.lane.names && CountOf(w.history.log, spare) == 0
  }

  /** The batch is over: exactly once holds and every publication of the batch has its answer. */
  ghost predicate Ended(w: World, jobs: set<nat>, ready: set<nat>, committed: bool) {
    forall x {:trigger Look(x)} :: x == w ==> ExactlyOnce(x) && Answers(x, jobs, ready, committed)
  }

  ghost predicate Answers(w: World, jobs: set<nat>, ready: set<nat>, committed: bool) {
    w.lane.current.None? && forall n :: n in jobs ==> n in w.lane.acks && w.lane.acks[n] == (committed && n in ready)
  }

  lemma SpareUnused(w: World, op: Operation, spare: Producer, c: Config)
    requires Consistent(w.history, c.policy) && CountOf(w.history.log, spare) == 0 && (op.Offer? ==> op.batch.producer != spare)
    ensures CountOf(Apply(w.history, op, c).log, spare) == 0
  {
    OfferEffect(w.history, op, c);
    SpareStays(w.history.log, Apply(w.history, op, c).log, op, spare);
  }

  lemma PoisedFacts(w: World, b: Batch, jobs: set<nat>, ready: set<nat>, spare: Producer, p: Policy)
    requires Poised(w, b, jobs, ready, spare, p)
    ensures PoisedParts(w, b, jobs, ready, spare, p)
  {
    assert Look(w);
  }

  lemma PoisedWhole(w: World, b: Batch, jobs: set<nat>, ready: set<nat>, spare: Producer, p: Policy)
    requires PoisedParts(w, b, jobs, ready, spare, p)
    ensures Poised(w, b, jobs, ready, spare, p)
  {
  }

  lemma EndedWhole(w: World, jobs: set<nat>, ready: set<nat>, committed: bool, p: Policy)
    requires Inv(w, p) && Answers(w, jobs, ready, committed)
    ensures Ended(w, jobs, ready, committed)
  {
    ReachableExactlyOnce(w, p);
    assert ExactlyOnce(w);
  }

  /** What the lane does with the answer of one attempt. */
  lemma AnsweredLane(l: Lane, r: Result<Receipt>, spare: Producer, attempts: nat)
    ensures var m := Answered(l, r, spare, attempts);
      && (r.Success? || r.error == Contract || l.attempts + 1 >= attempts ==>
            m.current.None? && forall n :: n in l.jobs ==> n in m.acks && m.acks[n] == (r.Success? && n in l.ready))
      && (r.Failure? && r.error != Contract && l.attempts + 1 < attempts ==> m == l.(attempts := l.attempts + 1))
  {
  }

  lemma StepInv(w: World, e: Event, c: Config, attempts: nat)
    requires Inv(w, c.policy) && Enabled(w, e)
    ensures Inv(Step(w, e, c, attempts), c.policy) && Sound(Step(w, e, c, attempts).history.store)
  {
    StepKeepsInv(w, e, c, attempts);
  }

  /** An attempt ends the batch with its answer, or leaves the lane poised for the next one. */
  lemma AttemptStep(w: World, b: Batch, jobs: set<nat>, ready: set<nat>, m: Moment, spare: Producer, c: Config, attempts: nat)
    requires Poised(w, b, jobs, ready, spare, c.policy)
    ensures var e, r := Event.Attempt(m.wall, m.fault, spare), Outcome(w.history.store, Offer(b, m.wall, m.fault), c);
      var v := Step(w, e, c, attempts);
      && Enabled(w, e) && Sound(v.history.store) && v.history == Apply(w.history, Offer(b, m.wall, m.fault), c)
      && (r.Success? || r.error == Contract || w.lane.attempts + 1 >= attempts ==> Ended(v, jobs, ready, r.Success?))
      && (r.Failure? && r.error != Contract && w.lane.attempts + 1 < attempts ==>
            Poised(v, b, jobs, ready, spare, c.policy) && v.lane.attempts == w.lane.attempts + 1)
  {
    PoisedFacts(w, b, jobs, ready, spare, c.policy);
    var e, r := Event.Attempt(m.wall, m.fault, spare), Outcome(w.history.store, Offer(b, m.wall, m.fault), c);
    var v := Step(w, e, c, attempts);
    StepInv(w, e, c, attempts);
    AnsweredLane(w.lane, r, spare, attempts);
    if r.Success? || r.error == Contract || w.lane.attempts + 1 >= attempts {
      EndedWhole(v, jobs, ready, r.Success?, c.policy);
    } else {
      SpareUnused(w, Offer(b, m.wall, m.fault), spare, c);
      PoisedWhole(v, b, jobs, ready, spare, c.policy);
    }
  }

  predicate EndsBatch(r: Result<Receipt>) {
    r.Failure? && r.error == Contract
  }

  /** Maintenance that fails for good ends the batch; otherwise the lane stays poised. */
  lemma UpkeepStep(w: World, b: Batch, jobs: set<nat>, ready: set<nat>, m: Moment, spare: Producer, c: Config, attempts: nat)
    requires Poised(w, b, jobs, ready, spare, c.policy) && w.lane.attempts > 0
    ensures var e, op := Event.Upkeep(m.upkeepWall, m.upkeepFault, spare), Tidy(m.upkeepWall, m.upkeepFault);
      var v := Step(w, e, c, attempts);
      && Enabled(w, e) && Sound(v.history.store) && v.history == Apply(w.history, op, c)
      && if EndsBatch(Outcome(w.history.store, op, c)) then Ended(v, jobs, ready, false)
         else Poised(v, b, jobs, ready, spare, c.policy) && v.lane == w.lane
  {
    PoisedFacts(w, b, jobs, ready, spare, c.policy);
    var e, op := Event.Upkeep(m.upkeepWall, m.upkeepFault, spare), Tidy(m.upkeepWall, m.upkeepFault);
    StepInv(w, e, c, attempts);
    if EndsBatch(Outcome(w.history.store, op, c)) {
      AnsweredLane(w.lane, Failure(Contract), spare, attempts);
      EndedWhole(Step(w, e, c, attempts), jobs, ready, false, c.policy);
    } else {
      SpareUnused(w, op, spare, c);
      PoisedWhole(Step(w, e, c, attempts), b, jobs, ready, spare, c.policy);
    }
  }

  /** What came back of an attempt, or of the maintenance between two. */
  datatype Reply = Offered(result: Result<Receipt>) | Tended(result: Result<Receipt>)

  ghost function Replies(w: World, events: seq<Event>, c: Config, attempts: nat): seq<Reply> {
    if events == [] then []
    else
      var init, last := events[..|events| - 1], events[|events| - 1];
      var u := Protocol.Run(w, init, c, attempts);
      Replies(w, init, c, attempts) + match last
        case Attempt(wall, fault, _) =>
          if u.lane.current.Some? then [Offered(Outcome(u.history.store, Offer(u.lane.current.value, wall, fault), c))] else []
        case Upkeep(wall, fault, _) => [Tended(Outcome(u.history.store, Tidy(wall, fault), c))]
        case _ => []
  }

  /** The batch is over: it was acknowledged, or something failed in a class that is not retried. */
  predicate Settles(reply: Reply) {
    (reply.Offered? && reply.result.Success?) || (reply.result.Failure? && reply.result.error == Contract)
  }

  /**
    Offers with maintenance in between, until something settles the batch or no attempt is left; it is committed if the
    last offer succeeded.
   */
  ghost predicate Retried(replies: seq<Reply>, attempts: nat, committed: bool) {
    && replies != [] && (forall i :: 0 <= i < |replies| ==> (replies[i].Offered? <==> i % 2 == 0))
    && (forall i :: 0 <= i < |replies| - 1 ==> !Settles(replies[i]))
    && (Settles(replies[|replies| - 1]) || |replies| == 2 * attempts - 1)
    && (committed <==> replies[|replies| - 1].Offered? && replies[|replies| - 1].result.Success?)
  }

  /** So far nothing settled the batch. */
  ghost predicate Going(replies: seq<Reply>, rounds: nat) {
    && |replies| == 2 * rounds
    && forall i :: 0 <= i < |replies| ==> (replies[i].Offered? <==> i % 2 == 0) && !Settles(replies[i])
  }

  lemma RepliesMore(w: World, events: seq<Event>, e: Event, c: Config, attempts: nat, u: World, b: Batch)
    requires u == Protocol.Run(w, events, c, attempts) && u.lane.current == Some(b) && (e.Attempt? || e.Upkeep?)
    ensures Replies(w, events + [e], c, attempts)
         == Replies(w, events, c, attempts)
            + [match e
               case Attempt(wall, fault, _) => Offered(Outcome(u.history.store, Offer(b, wall, fault), c))
               case Upkeep(wall, fault, _) => Tended(Outcome(u.history.store, Tidy(wall, fault), c))]
  {
    assert (events + [e])[..|events|] == events;
  }

  /** One more offer settles the batch, is the last attempt, or goes before a maintenance. */
  lemma OfferMore(replies: seq<Reply>, rounds: nat, r: Result<Receipt>, tended: Result<Receipt>, attempts: nat)
    requires Going(replies, rounds) && rounds < attempts
    ensures r.Success? || r.error == Contract || rounds + 1 == attempts ==> Retried(replies + [Offered(r)], attempts, r.Success?)
    ensures r.Failure? && r.error != Contract && EndsBatch(tended) ==> Retried(replies + [Offered(r)] + [Tended(tended)], attempts, false)
    ensures r.Failure? && r.error != Contract && !EndsBatch(tended) ==> Going(replies + [Offered(r)] + [Tended(tended)], rounds + 1)
  {
  }

  lemma PoisedCurrent(w: World, b: Batch, jobs: set<nat>, ready: set<nat>, spare: Producer, p: Policy)
    requires Poised(w, b, jobs, ready, spare, p)
    ensures w.lane.current == Some(b)
  {
    PoisedFacts(w, b, jobs, ready, spare, p);
  }

  /** Where the loop is: the events so far, the world they lead to, and what came back. */
  ghost predicate Track(w: World, events: seq<Event>, v: World, replies: seq<Reply>, c: Config, attempts: nat) {
    && Possible(w, events, c, attempts) && v == Protocol.Run(w, events, c, attempts) && replies == Replies(w, events, c, attempts)
  }

  lemma TrackStart(w: World, c: Config, attempts: nat)
    ensures Track(w, [], w, [], c, attempts) && Going([], 0)
  {
  }

  lemma TrackMore(w: World, events: seq<Event>, v: World, replies: seq<Reply>, b: Batch, e: Event, c: Config, attempts: nat)
    requires Track(w, events, v, replies, c, attempts) && v.lane.current == Some(b) && Enabled(v, e) && (e.Attempt? || e.Upkeep?)
    ensures var reply := match e
                         case Attempt(wall, fault, _) => Offered(Outcome(v.history.store, Offer(b, wall, fault), c))
                         case Upkeep(wall, fault, _) => Tended(Outcome(v.history.store, Tidy(wall, fault), c));
      Track(w, events + [e], Step(v, e, c, attempts), replies + [reply], c, attempts)
  {
    hide Step, Outcome, Replies, Enabled;
    RunMore(w, events, e, c, attempts);
    RepliesMore(w, events, e, c, attempts, v, b);
  }

  /** One offer: the batch is over with its answer, or the next round may begin. */
  lemma OfferRound(w: World, events: seq<Event>, v: World, replies: seq<Reply>, b: Batch, jobs: set<nat>, ready: set<nat>, m: Moment,
                   spare: Producer, c: Config, attempts: nat)
    requires Track(w, events, v, replies, c, attempts) && Poised(v, b, jobs, ready, spare, c.policy)
    ensures var e, r := Event.Attempt(m.wall, m.fault, spare), Outcome(v.history.store, Offer(b, m.wall, m.fault), c);
      var u := Step(v, e, c, attempts);
      && Track(w, events + [e], u, replies + [Offered(r)], c, attempts)
      && Sound(u.history.store)
      && u.history.store == (if m.fault.Aborted? then v.history.store else WriteBatch(v.history.store, b, m.wall, c).store)
      && (r.Success? || r.error == Contract || v.lane.attempts + 1 >= attempts ==> Ended(u, jobs, ready, r.Success?))
      && (r.Failure? && r.error != Contract && v.lane.attempts + 1 < attempts ==>
            Poised(u, b, jobs, ready, spare, c.policy) && u.lane.attempts == v.lane.attempts + 1)
  {
    hide Track, Step, Outcome, Ended, Poised, Enabled, WriteBatch, Maintain, Sound;
    AttemptStep(v, b, jobs, ready, m, spare, c, attempts);
    PoisedCurrent(v, b, jobs, ready, spare, c.policy);
    TrackMore(w, events, v, replies, b, Event.Attempt(m.wall, m.fault, spare), c, attempts);
  }

  lemma UpkeepRound(w: World, events: seq<Event>, v: World, replies: seq<Reply>, b: Batch, jobs: set<nat>, ready: set<nat>, m: Moment,
                    spare: Producer, c: Config, attempts: nat)
    requires Track(w, events, v, replies, c, attempts) && Poised(v, b, jobs, ready, spare, c.policy) && v.lane.attempts > 0
    ensures var e, op := Event.Upkeep(m.upkeepWall, m.upkeepFault, spare), Tidy(m.upkeepWall, m.upkeepFault);
      var u, r := Step(v, e, c, attempts), Outcome(v.history.store, op, c);
      && Track(w, events + [e], u, replies + [Tended(r)], c, attempts)
      && Sound(u.history.store)
      && u.history.store == (if m.upkeepFault.Aborted? then v.history.store else Maintain(v.history.store, m.upkeepWall, c).store)
      && if EndsBatch(r) then Ended(u, jobs, ready, false)
         else Poised(u, b, jobs, ready, spare, c.policy) && u.lane == v.lane
  {
    hide Track, Step, Outcome, Ended, Poised, Enabled, WriteBatch, Maintain, Sound;
    UpkeepStep(v, b, jobs, ready, m, spare, c, attempts);
    PoisedCurrent(v, b, jobs, ready, spare, c.policy);
    TrackMore(w, events, v, replies, b, Event.Upkeep(m.upkeepWall, m.upkeepFault, spare), c, attempts);
  }

  lemma TrackMeans(w: World, events: seq<Event>, v: World, replies: seq<Reply>, c: Config, attempts: nat)
    requires Track(w, events, v, replies, c, attempts)
    ensures Possible(w, events, c, attempts) && v == Protocol.Run(w, events, c, attempts) && replies == Replies(w, events, c, attempts)
  {
  }

  /**
    Offer `b` up to once per moment, with maintenance in between. The caller gives the world of the protocol the backend is in; the result names
    the events the loop went through and the world they lead to, in which every publication of the batch is answered.
   */
  method Deliver(backend: SQLiteBackend.Backend, b: Batch, moments: seq<Moment>, ghost w: World, ghost spare: Producer)
    returns (committed: bool, ghost events: seq<Event>, ghost v: World)
    requires moments != [] && w.history.store == backend.State() && Sound(w.history.store) && w.lane.attempts == 0
    requires Poised(w, b, w.lane.jobs, w.lane.ready, spare, backend.config.policy)
    modifies backend
    ensures Possible(w, events, backend.config, |moments|) && v == Protocol.Run(w, events, backend.config, |moments|)
    ensures v.history.store == backend.State() && Ended(v, w.lane.jobs, w.lane.ready, committed)
    ensures Retried(Replies(w, events, backend.config, |moments|), |moments|, committed)
  {
    hide Step, Going, Retried, Track, Poised, Ended, Possible, Protocol.Run, Replies, Outcome, WriteBatch, Maintain, Sound;
    ghost var c, jobs, ready := backend.config, w.lane.jobs, w.lane.ready;
    v, events, committed := w, [], false;
    ghost var replies: seq<Reply> := [];
    TrackStart(w, c, |moments|);
    var i := 0;
    while true
      invariant i < |moments| && v.history.store == backend.State() && Sound(v.history.store)
      invariant Track(w, events, v, replies, c, |moments|) && Going(replies, i)
      invariant Poised(v, b, jobs, ready, spare, c.policy) && v.lane.attempts == i
      decreases |moments| - i
    {
      var m := moments[i];
      ghost var before := replies;
      OfferRound(w, events, v, replies, b, jobs, ready, m, spare, c, |moments|);
      var r := Attempt(backend, b, m.wall, m.fault);
      ghost var offer := Event.Attempt(m.wall, m.fault, spare);
      events, v, replies := events + [offer], Step(v, offer, c, |moments|), replies + [Offered(r)];
      if r.Success? || r.error == Contract || i + 1 == |moments| {
        committed := r.Success?;
        OfferMore(before, i, r, r, |moments|);
        TrackMeans(w, events, v, replies, c, |moments|);
        return;
      }
      UpkeepRound(w, events, v, replies, b, jobs, ready, m, spare, c, |moments|);
      ghost var answer := r;
      r := Upkeep(backend, m.upkeepWall, m.upkeepFault);
      OfferMore(before, i, answer, r, |moments|);
      ghost var upkeep := Event.Upkeep(m.upkeepWall, m.upkeepFault, spare);
      events, v, replies := events + [upkeep], Step(v, upkeep, c, |moments|), replies + [Tended(r)];
      if EndsBatch(r) {
        TrackMeans(w, events, v, replies, c, |moments|);
        return;
      }
      i := i + 1;
    }
  }
}
