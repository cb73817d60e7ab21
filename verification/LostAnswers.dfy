/** What an acknowledgement is worth. */
module LostAnswers {
  // True means applied. False means not applied exactly as long as no attempt on the batch was published without its
  // acknowledgement being heard, however the last attempt ended.

  import opened Wrappers
  import opened Totals
  import opened Tables
  import opened Rows
  import opened Prune
  import opened Transaction
  import opened History
  import opened Publications
  import opened Protocol

  /** The event publishes the current batch, and the acknowledgement is lost. */
  ghost predicate Unheard(w: World, e: Event, c: Config) {
    && e.Attempt? && e.fault.Lost? && w.lane.current.Some?
    && WriteBatch(w.history.store, w.lane.current.value, e.wall, c).result
       == Success(Receipt(w.lane.current.value.sequence, false))
  }

  /** Event `j` of a run published batch `k` unheard. */
  ghost predicate UnheardAt(w: World, events: seq<Event>, j: nat, k: int, c: Config, maxAttempts: nat) {
    && j < |events| && Unheard(Protocol.Run(w, events[..j], c, maxAttempts), events[j], c)
    && k == |Protocol.Run(w, events[..j], c, maxAttempts).lane.offers| - 1
  }

  /** The batches with an unheard publication. */
  ghost function Losses(w: World, events: seq<Event>, c: Config, maxAttempts: nat): set<int> {
    if events == [] then {}
    else
      var init, last := events[..|events| - 1], events[|events| - 1];
      var before := Protocol.Run(w, init, c, maxAttempts);
      Losses(w, init, c, maxAttempts) + if Unheard(before, last, c) then {|before.lane.offers| - 1} else {}
  }

  lemma UnheardEarlier(w: World, events: seq<Event>, j: nat, k: int, c: Config, maxAttempts: nat)
    requires j + 1 < |events|
    ensures UnheardAt(w, events, j, k, c, maxAttempts) <==> UnheardAt(w, events[..|events| - 1], j, k, c, maxAttempts)
  {
    assert events[..|events| - 1][..j] == events[..j];
  }

  lemma {:induction false} LossHappened(w: World, events: seq<Event>, c: Config, maxAttempts: nat, k: int) returns (j: nat)
    requires k in Losses(w, events, c, maxAttempts)
    ensures UnheardAt(w, events, j, k, c, maxAttempts)
  {
    var n := |events| - 1;
    if k in Losses(w, events[..n], c, maxAttempts) {
      j := LossHappened(w, events[..n], c, maxAttempts, k);
      UnheardEarlier(w, events, j, k, c, maxAttempts);
    } else {
      j := n;
    }
  }

  lemma {:induction false} UnheardIsLoss(w: World, events: seq<Event>, c: Config, maxAttempts: nat, k: int, j: nat)
    requires UnheardAt(w, events, j, k, c, maxAttempts)
    ensures k in Losses(w, events, c, maxAttempts)
  {
    if j < |events| - 1 {
      UnheardEarlier(w, events, j, k, c, maxAttempts);
      UnheardIsLoss(w, events[..|events| - 1], c, maxAttempts, k, j);
    }
  }

  lemma LossesAre(w: World, events: seq<Event>, c: Config, maxAttempts: nat, k: int)
    ensures k in Losses(w, events, c, maxAttempts) <==> exists j :: UnheardAt(w, events, j, k, c, maxAttempts)
  {
    if k in Losses(w, events, c, maxAttempts) {
      var j := LossHappened(w, events, c, maxAttempts, k);
    }
    forall j: nat | UnheardAt(w, events, j, k, c, maxAttempts)
      ensures k in Losses(w, events, c, maxAttempts)
    {
      UnheardIsLoss(w, events, c, maxAttempts, k, j);
    }
  }

  // ---- what every run keeps --------------------------------------------------------------------------------

  /** Publications of earlier batches are answered; those of the current one are its jobs, and are not. */
  ghost predicate Placed(l: Lane) {
    && (forall n :: n in l.acks ==> n < l.next)
    && (l.current.None? ==> forall n :: n in l.batchOf ==> n in l.acks)
    && (l.current.Some? ==>
          && l.ready != {} && l.ready <= l.jobs && (forall n :: n in l.jobs ==> n !in l.acks)
          && (forall n :: n in l.batchOf ==> (l.batchOf[n] == |l.offers| - 1 <==> n in l.jobs) && (n in l.jobs ==> n in l.ready))
          && (forall n :: n in l.batchOf && n !in l.jobs ==> n in l.acks))
  }

  ghost predicate Heard(l: Lane, k: int) {
    forall n :: n in l.batchOf && l.batchOf[n] == k ==> n in l.acks && l.acks[n]
  }

  /** A batch in the log was published unheard or has been acknowledged True; unheard publications are in the log. */
  ghost predicate Traced(l: Lane, log: seq<Batch>, lost: set<int>) {
    && (forall k :: k in lost ==> 0 <= k < |l.offers| && l.offers[k] in log)
    && (forall k :: 0 <= k < |l.offers| && l.offers[k] in log ==> k in lost || Heard(l, k))
  }

  lemma RefusedTraced(l: Lane, numbers: seq<nat>, spare: Producer, log: seq<Batch>, lost: set<int>)
    requires l.current.None? && Traced(l, log, lost) && Answering(l, log)
    requires numbers != [] && Increasing(numbers) && l.next <= numbers[0]
    ensures Traced(Acknowledged(Taken(l, numbers), false), log, lost) && Traced(Failed(Taken(l, numbers), spare), log, lost)
  {
    JobsAhead(numbers, l.next);
    var m := Acknowledged(Taken(l, numbers), false);
    forall k | 0 <= k < |l.offers| && Heard(l, k)
      ensures Heard(m, k) && Heard(Renamed(m, spare), k)
    {
    }
  }

  /** A batch that was never offered is not in the log. */
  lemma NewBatchUnlogged(log: seq<Batch>, b: Batch)
    requires Contiguous(log) && b.sequence > CountOf(log, b.producer)
    ensures b !in log
  {
    if b in log {
      var i :| 0 <= i < |log| && log[i] == b;
      CountGrows(log, i, b.producer);
    }
  }

  lemma FormedPlaced(l: Lane, named: Producer, sequence: nat, numbers: seq<nat>, prepared: seq<Option<Content>>, log: seq<Batch>)
    requires l.current.None? && Placed(l) && Answering(l, log) && Survivors(prepared) != []
    requires numbers != [] && |prepared| == |numbers| && Increasing(numbers) && l.next <= numbers[0]
    ensures Placed(Formed(l, named, sequence, numbers, prepared))
  {
    JobsAhead(numbers, l.next);
    NumberedIs(numbers, prepared);
    var i := SomeSurvivor(prepared);
    var m := Formed(l, named, sequence, numbers, prepared);
    assert numbers[i] in m.ready;
    forall n | n in m.ready
      ensures n in m.jobs
    {
      assert n in numbers;
    }
  }

  lemma FormedTraced(l: Lane, named: Producer, sequence: nat, numbers: seq<nat>, prepared: seq<Option<Content>>, log: seq<Batch>,
                     lost: set<int>)
    requires Traced(l, log, lost) && Answering(l, log) && Named(l, named, sequence, log) && Contiguous(log)
    ensures Traced(Formed(l, named, sequence, numbers, prepared), log, lost)
  {
    var m := Formed(l, named, sequence, numbers, prepared);
    NewBatchUnlogged(log, m.current.value);
    forall k | 0 <= k < |m.offers| && m.offers[k] in log
      ensures k in lost || Heard(m, k)
    {
      assert k < |l.offers| && m.offers[k] == l.offers[k];
      assert Heard(l, k) ==> Heard(m, k);
    }
  }

  lemma RefusedPlaced(l: Lane, numbers: seq<nat>, spare: Producer)
    requires l.current.None? && Placed(l) && numbers != [] && Increasing(numbers) && l.next <= numbers[0]
    ensures Placed(Acknowledged(Taken(l, numbers), false)) && Placed(Failed(Taken(l, numbers), spare))
  {
    JobsAhead(numbers, l.next);
  }

  lemma BeginPlaced(w: World, e: Event, p: Policy)
    requires Inv(w, p) && Enabled(w, e) && e.Begin? && Placed(w.lane)
    ensures Placed(Begun(w.lane, e, p))
  {
    var l, log := w.lane, w.history.log;
    if Survivors(e.prepared) == [] || !ValidContent(Combined(Survivors(e.prepared))) {
      RefusedPlaced(l, e.numbers, e.spare);
    } else {
      FormedPlaced(l, NameFor(l, e, p), SequenceFor(l, e, p), e.numbers, e.prepared, log);
    }
  }

  lemma BeginTraced(w: World, e: Event, lost: set<int>, c: Config, maxAttempts: nat)
    requires Inv(w, c.policy) && Enabled(w, e) && e.Begin? && Placed(w.lane) && Traced(w.lane, w.history.log, lost)
    ensures var v := Step(w, e, c, maxAttempts); Placed(v.lane) && Traced(v.lane, v.history.log, lost)
  {
    var l, log := w.lane, w.history.log;
    BeginPlaced(w, e, c.policy);
    if Survivors(e.prepared) == [] || !ValidContent(Combined(Survivors(e.prepared))) {
      RefusedTraced(l, e.numbers, e.spare, log, lost);
    } else {
      RenamedOffering(l, e.spare, log);
      assert Named(l, NameFor(l, e, c.policy), SequenceFor(l, e, c.policy), log) by {
        assert Applying(Renamed(l, e.spare), log) && Offering(Renamed(l, e.spare));
      }
      FormedTraced(l, NameFor(l, e, c.policy), SequenceFor(l, e, c.policy), e.numbers, e.prepared, log, lost);
    }
  }

  /** The log after one attempt: it grew only if the attempt succeeded or went unheard. */
  lemma AttemptLog(w: World, e: Event, c: Config)
    requires e.Attempt? && w.lane.current.Some? && Logged(w.history.log, w.history.store, c.policy)
    ensures var b := w.lane.current.value;
      var op := Offer(b, e.wall, e.fault);
      var after := Apply(w.history, op, c).log;
      && (after == w.history.log || after == w.history.log + [b])
      && (after != w.history.log ==> Outcome(w.history.store, op, c).Success? || Unheard(w, e, c))
      && (Unheard(w, e, c) ==> b in after && Outcome(w.history.store, op, c).Failure?)
  {
    var op := Offer(w.lane.current.value, e.wall, e.fault);
    OfferEffect(w.history, op, c);
  }

  /** Batch `k` is in the extended log only if it was before or is the batch offered now. */
  lemma OfferedOnce(l: Lane, log: seq<Batch>, k: int)
    requires Offering(l) && l.current.Some? && 0 <= k < |l.offers| && l.offers[k] in log + [l.current.value]
    ensures l.offers[k] in log || k == |l.offers| - 1
  {
    if l.offers[k] == l.current.value && k < |l.offers| - 1 {
      AppliedAtMostOnce(l.offers, k, |l.offers| - 1);
    }
  }

  lemma AnsweredPlaced(l: Lane, result: Result<Receipt>, spare: Producer, maxAttempts: nat, log: seq<Batch>)
    requires Placed(l) && Answering(l, log) && l.current.Some?
    ensures Placed(Answered(l, result, spare, maxAttempts))
  {
  }

  /** The answer to the current batch leaves what other batches were told; success is told to all of the current one. */
  lemma AnsweredHeard(l: Lane, result: Result<Receipt>, spare: Producer, maxAttempts: nat, k: int)
    requires Placed(l) && l.current.Some? && 0 <= k < |l.offers|
    ensures var m := Answered(l, result, spare, maxAttempts);
      && m.offers == l.offers
      && (k < |l.offers| - 1 && Heard(l, k) ==> Heard(m, k)) && (k == |l.offers| - 1 && result.Success? ==> Heard(m, k))
  {
  }

  /** Only what was in doubt before stays in doubt: an attempt leaves the other batches alone. */
  lemma AnsweredTraced(l: Lane, before: seq<Batch>, after: seq<Batch>, result: Result<Receipt>, unheard: bool, spare: Producer,
                       maxAttempts: nat, lost: set<int>)
    requires Offering(l) && Placed(l) && Traced(l, before, lost) && Answering(l, before) && l.current.Some?
    requires after == before || after == before + [l.current.value]
    requires after != before ==> result.Success? || unheard
    requires unheard ==> l.current.value in after && result.Failure?
    ensures Traced(Answered(l, result, spare, maxAttempts), after, lost + if unheard then {|l.offers| - 1} else {})
  {
    hide Protocol.Answered;
    var m, last := Answered(l, result, spare, maxAttempts), |l.offers| - 1;
    var n :| n in l.ready;
    assert n in l.batchOf && l.batchOf[n] == last && !Heard(l, last);
    AnsweredHeard(l, result, spare, maxAttempts, last);
    forall k | 0 <= k < |l.offers| && l.offers[k] in after
      ensures k in lost || (unheard && k == last) || Heard(m, k)
    {
      OfferedOnce(l, before, k);
      AnsweredHeard(l, result, spare, maxAttempts, k);
    }
  }

  lemma AttemptTraced(w: World, e: Event, lost: set<int>, c: Config, maxAttempts: nat)
    requires e.Attempt? && w.lane.current.Some? && Logged(w.history.log, w.history.store, c.policy)
    requires Offering(w.lane) && Answering(w.lane, w.history.log) && Placed(w.lane) && Traced(w.lane, w.history.log, lost)
    ensures var op := Offer(w.lane.current.value, e.wall, e.fault);
      var m := Answered(w.lane, Outcome(w.history.store, op, c), e.spare, maxAttempts);
      Placed(m) && Traced(m, Apply(w.history, op, c).log, lost + if Unheard(w, e, c) then {|w.lane.offers| - 1} else {})
  {
    var op := Offer(w.lane.current.value, e.wall, e.fault);
    AttemptLog(w, e, c);
    AnsweredPlaced(w.lane, Outcome(w.history.store, op, c), e.spare, maxAttempts, w.history.log);
    AnsweredTraced(w.lane, w.history.log, Apply(w.history, op, c).log, Outcome(w.history.store, op, c), Unheard(w, e, c), e.spare,
                   maxAttempts, lost);
  }

  /** Maintenance that ends the batch answers it like an attempt that failed for good. */
  lemma UpkeepTraced(w: World, e: Event, lost: set<int>, c: Config, maxAttempts: nat)
    requires e.Upkeep? && Inv(w, c.policy) && Placed(w.lane) && Traced(w.lane, w.history.log, lost)
    ensures var v := Step(w, e, c, maxAttempts); Placed(v.lane) && Traced(v.lane, v.history.log, lost)
  {
    hide Placed, Apply, Answering;
    OfferEffect(w.history, Tidy(e.wall, e.fault), c);
    if Step(w, e, c, maxAttempts).lane != w.lane {
      AnsweredPlaced(w.lane, Failure(Contract), e.spare, maxAttempts, w.history.log);
      AnsweredTraced(w.lane, w.history.log, w.history.log, Failure(Contract), false, e.spare, maxAttempts, lost);
      assert lost + {} == lost;
    }
  }

  lemma StepTraced(w: World, e: Event, lost: set<int>, c: Config, maxAttempts: nat)
    requires Inv(w, c.policy) && Enabled(w, e) && Placed(w.lane) && Traced(w.lane, w.history.log, lost)
    ensures var v := Step(w, e, c, maxAttempts);
      Placed(v.lane) && Traced(v.lane, v.history.log, lost + if Unheard(w, e, c) then {|w.lane.offers| - 1} else {})
  {
    hide Logged, Offering, Placed, Traced, Apply;
    match e
    case Begin(_, _, _, _) =>
      BeginTraced(w, e, lost, c, maxAttempts);
      assert lost + {} == lost;
    case Attempt(wall, fault, spare) =>
      AttemptTraced(w, e, lost, c, maxAttempts);
    case Upkeep(_, _, _) =>
      UpkeepTraced(w, e, lost, c, maxAttempts);
      assert lost + {} == lost;
    case Other(op) =>
      BystanderTraced(w, op, lost, c);
      assert lost + {} == lost;
  }

  /** The answers alone, without what was lost. */
  lemma StepPlaced(w: World, e: Event, c: Config, maxAttempts: nat)
    requires Inv(w, c.policy) && Enabled(w, e) && Placed(w.lane)
    ensures Placed(Step(w, e, c, maxAttempts).lane)
  {
    hide Placed, Apply, Outcome;
    match e
    case Begin(_, _, _, _) => BeginPlaced(w, e, c.policy);
    case Attempt(wall, fault, spare) =>
      AnsweredPlaced(w.lane, Outcome(w.history.store, Offer(w.lane.current.value, wall, fault), c), spare, maxAttempts, w.history.log);
    case Upkeep(wall, fault, spare) =>
      if w.lane.current.Some? {
        AnsweredPlaced(w.lane, Failure(Contract), spare, maxAttempts, w.history.log);
      }
    case Other(_) =>
  }

  lemma BystanderTraced(w: World, op: Operation, lost: set<int>, c: Config)
    requires Inv(w, c.policy) && Traced(w.lane, w.history.log, lost) && (op.Offer? ==> op.batch.producer !in w.lane.names)
    ensures Traced(w.lane, Apply(w.history, op, c).log, lost)
  {
    OfferEffect(w.history, op, c);
    var after := Apply(w.history, op, c).log;
    forall k | 0 <= k < |w.lane.offers| && w.lane.offers[k] in after
      ensures w.lane.offers[k] in w.history.log
    {
      assert w.lane.offers[k].producer in w.lane.names;
    }
  }

  lemma {:induction false} RunTraced(h: History, producer: Producer, events: seq<Event>, c: Config, maxAttempts: nat)
    requires Consistent(h, c.policy) && CountOf(h.log, producer) == 0
    requires Possible(World(h, Start(producer)), events, c, maxAttempts)
    ensures var w := Protocol.Run(World(h, Start(producer)), events, c, maxAttempts);
      Inv(w, c.policy) && Placed(w.lane) && Traced(w.lane, w.history.log, Losses(World(h, Start(producer)), events, c, maxAttempts))
  {
    hide Consistent, Step, Enabled;
    var w := World(h, Start(producer));
    StartInv(h, producer, c.policy);
    RunKeepsInv(w, events, c, maxAttempts);
    if events != [] {
      var init := events[..|events| - 1];
      RunTraced(h, producer, init, c, maxAttempts);
      StepTraced(Protocol.Run(w, init, c, maxAttempts), events[|events| - 1], Losses(w, init, c, maxAttempts), c, maxAttempts);
    }
  }

  // ---- what True and False mean -------------------------------------------------------------------------------

  ghost predicate Applied(w: World, n: nat) {
    exists i: nat :: AppliesPublication(w, n, i)
  }

  lemma AppliedIsLogged(w: World, p: Policy, n: nat)
    requires Inv(w, p) && n in w.lane.batchOf
    ensures Applied(w, n) <==> w.lane.offers[w.lane.batchOf[n]] in w.history.log
  {
    if Applied(w, n) {
      var i: nat :| AppliesPublication(w, n, i);
      AppliedAsOffered(w, p, n, i);
    } else if w.lane.offers[w.lane.batchOf[n]] in w.history.log {
      var i :| 0 <= i < |w.history.log| && w.history.log[i] == w.lane.offers[w.lane.batchOf[n]];
      assert AppliesPublication(w, n, i);
    }
  }

  /**
    Over every run, for every publication that was answered: told False, it was applied exactly when some attempt on
    its batch was published unheard. So without such an attempt True means applied and False means not applied. One
    that got no batch was told False and never applied.
   */
  lemma WhatAnswersMean(h: History, producer: Producer, events: seq<Event>, c: Config, maxAttempts: nat, n: nat)
    requires Consistent(h, c.policy) && CountOf(h.log, producer) == 0
    requires Possible(World(h, Start(producer)), events, c, maxAttempts)
    requires n in Protocol.Run(World(h, Start(producer)), events, c, maxAttempts).lane.acks
    ensures var s := World(h, Start(producer));
      var w := Protocol.Run(s, events, c, maxAttempts);
      if n in w.lane.batchOf then
        var unheard := exists j :: UnheardAt(s, events, j, w.lane.batchOf[n], c, maxAttempts);
        && (!w.lane.acks[n] ==> (Applied(w, n) <==> unheard))
        && (!unheard ==> (w.lane.acks[n] <==> Applied(w, n)))
      else !w.lane.acks[n] && !Applied(w, n)
  {
    var s := World(h, Start(producer));
    RunTraced(h, producer, events, c, maxAttempts);
    var w := Protocol.Run(s, events, c, maxAttempts);
    if n in w.lane.batchOf {
      LossesAre(s, events, c, maxAttempts, w.lane.batchOf[n]);
      AppliedIsLogged(w, c.policy, n);
    }
  }

  // ---- an instance ------------------------------------------------------------------------------------------------

  const CLIENT := Producer(0, Text(1, 8))
  const NEXT := Producer(0, Text(2, 8))
  const OPENED := SessionEntry(SessionHeader(Text(1, 4), Some(0), None, None, None), Blob(0, 1), Blob(0, 1), Blob(0, 1), 1)
  const OPENING := Content([], [OPENED], [], None)
  const ROOMY := Policy(10, 1000, None, 10, 1000, None, 10, 100, 1000, None, 10, 10.0, 10, 1000)
  const SMALL := Batch(CLIENT, 1, OPENING)

  function Plain(): Config {
    Config(ROOMY, Limits(10, 10000, 1000, 1000, 10, 10000), (a: Aggregate) => 0, (h: ContextHeader, n: nat) => 0)
  }

  lemma NoneFirst<K, V>(table: map<K, V>, rank: V -> Rank)
    requires table == map[]
    ensures First(table, rank) == None
  {
  }

  /** With nothing due a retention pass leaves the store as it is. */
  lemma QuietPass(s: Store, now: int, p: Policy)
    requires Expired(s.producers, now) == map[] && DueContexts(s, now, p) == map[]
    requires DueProfiles(s, now, p) == map[] && DueSessions(s, now, p) == map[]
    ensures PruneAll(s, now, p).store == s
  {
    NoneFirst(Expired(s.producers, now), ByExpiry());
    NoneFirst(DueContexts(s, now, p), ByTime());
    NoneFirst(DueProfiles(s, now, p), ByUpdate());
    NoneFirst(DueSessions(s, now, p), ByShutdown());
    assert PruneProducers(s.producers, now, MAINTENANCE_ITEMS).rows == s.producers;
    assert WithoutExpired(s, now).store == s;
  }

  lemma FirstBatchPublishes()
    ensures WriteBatch(EMPTY_STORE, SMALL, 0, Plain()).result == Success(Receipt(1, false))
  {
    var c, s := Plain(), EMPTY_STORE;
    assert Clocked(s, 0) == s;
    QuietPass(s, 0, ROOMY);
    var t := AddProducer(s, CLIENT, Expiry(CLIENT, ROOMY));
    assert Registered(s, SMALL, 0, c) == Success(t);
    assert [OPENED][..0] == [];
    var u := PutSession(t, OPENED).value;
    assert PutSessions(t, [OPENED]) == PutSession(t, OPENED);
    assert PutContent(t, OPENING, 0, c) == Success(u);
    QuietPass(u, 0, ROOMY);
    assert Publish(s, SMALL, 0, c).Success?;
    NotRefused();
  }

  lemma NoRefusals<T(!new)>(entries: seq<T>)
    requires |entries| <= 1
    ensures forall f: T -> Option<Error> :: FirstRefusal(entries, f) == if entries == [] then None else f(entries[0])
  {
    forall f: T -> Option<Error> | entries != []
      ensures FirstRefusal(entries, f) == f(entries[0])
    {
      assert entries[1..] == [];
      assert FirstRefusal(entries[1..], f) == None;
    }
  }

  lemma NotRefused()
    ensures Refusal(SMALL, Plain()) == None
  {
    var c := Plain();
    assert [OPENED][..0] == [];
    assert SessionsBytes([OPENED]) == SessionsBytes([OPENED][..0]) + OPENED.body.size + 1024;
    assert ContextsBytes([]) == 0 && ProfilesBytes([], c) == 0;
    assert ByteSize(OPENING, c) == 1025;
    NoRefusals<ContextEntry>([]);
    NoRefusals([OPENED]);
    NoRefusals<Aggregate>([]);
    assert SessionRefusal(OPENED, c) == None;
  }

  /** Batch and answers of the instance: published unheard, then an attempt that never reaches the store. */
  function Unlucky(): seq<Event> {
    [Begin([1], [Some(OPENING)], 0, NEXT)] + [Attempt(0, Lost(Unavailable), NEXT)] + [Attempt(0, Aborted(Unavailable), NEXT)]
  }

  /** What the lane has formed of its first publication. */
  function FirstFormed(): Lane {
    Start(CLIENT).(sequence := 1, offers := [SMALL], current := Some(SMALL), jobs := {1}, ready := {1},
                   next := 2, data := map[1 := OPENING], batchOf := map[1 := 0])
  }

  lemma SoleSurvivor(prepared: seq<Option<Content>>)
    requires prepared == [Some(OPENING)]
    ensures Survivors(prepared) == [OPENING] && Combined([OPENING]) == OPENING && Numbered([1], prepared) == map[1 := OPENING]
  {
    var parts := [OPENING];
    assert prepared[..0] == [] && parts[..0] == [] && [1][..0] == [];
    assert Survivors(prepared) == Survivors([]) + [OPENING];
    assert AllContexts(parts) == AllContexts([]) + OPENING.contexts && AllSessions(parts) == AllSessions([]) + OPENING.sessions;
    assert AllProfiles(parts) == AllProfiles([]) + OPENING.profiles;
    assert Numbered([1], prepared) == Numbered([], [])[1 := OPENING];
  }

  lemma InstanceForms(prepared: seq<Option<Content>>)
    requires prepared == [Some(OPENING)]
    ensures Formed(Start(CLIENT), CLIENT, 0, [1], prepared) == FirstFormed()
  {
    SoleSurvivor(prepared);
    var m := Formed(Start(CLIENT), CLIENT, 0, [1], prepared);
    assert Jobs([1]) == {1} && m.names == {CLIENT} && m.offers == [] + [SMALL] == [SMALL];
    assert m.batchOf == map[1 := 0] && m.data == map[1 := OPENING];
  }

  lemma InstanceBegins(w: World, e: Event)
    requires w == World(History(EMPTY_STORE, []), Start(CLIENT)) && e == Begin([1], [Some(OPENING)], 0, NEXT)
    ensures Enabled(w, e) && Step(w, e, Plain(), 2) == w.(lane := FirstFormed())
  {
    SoleSurvivor(e.prepared);
    InstanceForms(e.prepared);
    assert ValidContent(OPENING) && !RotationDue(w.lane, 0, ROOMY);
  }

  /** The batch is published unheard, and offered once more. */
  lemma InstanceUnheard(w: World)
    requires w.history == History(EMPTY_STORE, []) && w.lane.current == Some(SMALL) && w.lane.attempts == 0 && w.lane.names == {CLIENT}
    ensures var e := Attempt(0, Lost(Unavailable), NEXT);
      Enabled(w, e) && Step(w, e, Plain(), 2).history.log == [SMALL] && Step(w, e, Plain(), 2).lane == w.lane.(attempts := 1)
  {
    hide WriteBatch;
    FirstBatchPublishes();
  }

  /** The last attempt stops before its commit, so everybody is told False. */
  lemma InstanceEnds(w: World)
    requires w.history.log == [SMALL] && w.lane.current == Some(SMALL) && w.lane.attempts == 1 && w.lane.names == {CLIENT}
    requires w.lane.offers == [SMALL] && w.lane.batchOf == map[1 := 0] && w.lane.jobs == {1} && w.lane.acks == map[]
    ensures var e := Attempt(0, Aborted(Unavailable), NEXT);
      var v := Step(w, e, Plain(), 2);
      Enabled(w, e) && v.lane.acks == map[1 := false] && Applied(v, 1)
  {
    assert [SMALL][..0] == [];
    var v := Step(w, Attempt(0, Aborted(Unavailable), NEXT), Plain(), 2);
    assert AppliesPublication(v, 1, 0);
  }

  /**
    Told False and applied, in a run from an empty store, although the answer to the last attempt was not lost: that
    attempt never reached the store, but an earlier one was published unheard.
   */
  lemma FalseButApplied()
    ensures var s := World(History(EMPTY_STORE, []), Start(CLIENT));
      var w := Protocol.Run(s, Unlucky(), Plain(), 2);
      Possible(s, Unlucky(), Plain(), 2) && 1 in w.lane.acks && !w.lane.acks[1] && Applied(w, 1)
  {
    hide Step;
    var s, c := World(History(EMPTY_STORE, []), Start(CLIENT)), Plain();
    var a, b, d := Begin([1], [Some(OPENING)], 0, NEXT), Attempt(0, Lost(Unavailable), NEXT), Attempt(0, Aborted(Unavailable), NEXT);
    InstanceBegins(s, a);
    RunMore(s, [], a, c, 2);
    assert [] + [a] == [a];
    InstanceUnheard(Step(s, a, c, 2));
    RunMore(s, [a], b, c, 2);
    InstanceEnds(Step(Step(s, a, c, 2), b, c, 2));
    RunMore(s, [a] + [b], d, c, 2);
  }
}
