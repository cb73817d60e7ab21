/** The write lane on top of the store. */
module Protocol {
  // Batches, retries after uncertain commits, producer rotation, and other clients of the same store, composed into one
  // protocol.

  import opened Wrappers
  import opened Tables
  import opened Transaction
  import opened History
  import opened Publications

  /**
    `names` are the producer names this lane ever drew, `offers` the batches it ever formed, in order.
    `data` is what each publication carries, `batchOf` its batch's position in `offers`, `acks` what its owner was told.
   */
  datatype Lane = Lane(
    producer: Producer, sequence: nat, names: set<Producer>, offers: seq<Batch>, current: Option<Batch>,
    attempts: nat, jobs: set<nat>, ready: set<nat>, next: nat,
    data: map<nat, Content>, batchOf: map<nat, nat>, acks: map<nat, bool>)

  datatype World = World(history: History, lane: Lane)

  /**
    Begin: adjacent publications, with the numbers of their handoffs, are taken; those whose preparation succeeds are
    combined into one batch, which the constructor may refuse.
    Attempt: one offer of the current batch. Upkeep: the maintenance between two attempts, or while no batch is written.
    Other: another client.
    `spare` is the next generated name, used if the lane has to replace its producer.
   */
  datatype Event =
    | Begin(numbers: seq<nat>, prepared: seq<Option<Content>>, wall: int, spare: Producer)
    | Attempt(wall: int, fault: Fault, spare: Producer)
    | Upkeep(wall: int, fault: Fault, spare: Producer)
    | Other(op: Operation)

  function Start(producer: Producer): Lane {
    Lane(producer, 0, {producer}, [], None, 0, {}, {}, 1, map[], map[], map[])
  }

  function Renamed(l: Lane, spare: Producer): Lane {
    l.(producer := spare, sequence := 0, names := l.names + {spare})
  }

  function Acknowledged(l: Lane, committed: bool): Lane {
    l.(current := None, attempts := 0, jobs := {}, ready := {},
       acks := l.acks + map n | n in l.jobs :: committed && n in l.ready)
  }

  /** A failed batch is acknowledged False as a whole and its producer is never used again. */
  function Failed(l: Lane, spare: Producer): Lane {
    Renamed(Acknowledged(l, false), spare)
  }

  predicate RotationDue(l: Lane, wall: int, p: Policy) {
    (wall - l.producer.issued) as real > p.retryHorizon * 500000.0
  }

  predicate Increasing(numbers: seq<nat>) {
    forall i, j :: 0 <= i < j < |numbers| ==> numbers[i] < numbers[j]
  }

  function Jobs(numbers: seq<nat>): set<nat> {
    set i | 0 <= i < |numbers| :: numbers[i]
  }

  function Beyond(numbers: seq<nat>, next: nat): nat {
    if numbers == [] then next else numbers[|numbers| - 1] + 1
  }

  /** The data of the publications whose preparation succeeded. */
  function Numbered(numbers: seq<nat>, prepared: seq<Option<Content>>): map<nat, Content> {
    if numbers == [] || |prepared| < |numbers| then map[]
    else
      var n := |numbers| - 1;
      var before := Numbered(numbers[..n], prepared[..n]);
      if prepared[n].Some? then before[numbers[n] := prepared[n].value] else before
  }

  function Formed(l: Lane, named: Producer, sequence: nat, numbers: seq<nat>, prepared: seq<Option<Content>>): Lane {
    var batch := Batch(named, sequence + 1, Combined(Survivors(prepared)));
    var data := Numbered(numbers, prepared);
    l.(producer := named, sequence := sequence + 1, names := l.names + {named}, offers := l.offers + [batch],
       current := Some(batch), attempts := 0, jobs := Jobs(numbers), ready := data.Keys,
       next := Beyond(numbers, l.next), data := l.data + data, batchOf := l.batchOf + map n | n in data :: |l.offers|)
  }

  function Taken(l: Lane, numbers: seq<nat>): Lane {
    l.(jobs := Jobs(numbers), ready := {}, next := Beyond(numbers, l.next))
  }

  /**
    Nothing is offered when no preparation succeeded, or when the batch cannot be constructed, which also costs the
    producer; a producer past half its horizon is replaced first.
   */
  function Begun(l: Lane, e: Event, p: Policy): Lane
    requires e.Begin?
  {
    if Survivors(e.prepared) == [] then Acknowledged(Taken(l, e.numbers), false)
    else if !ValidContent(Combined(Survivors(e.prepared))) then Failed(Taken(l, e.numbers), e.spare)
    else if RotationDue(l, e.wall, p) then Formed(l, e.spare, 0, e.numbers, e.prepared)
    else Formed(l, l.producer, l.sequence, e.numbers, e.prepared)
  }

  function Answered(l: Lane, result: Result<Receipt>, spare: Producer, maxAttempts: nat): Lane {
    match result
    case Success(_) => Acknowledged(l, true)
    case Failure(error) =>
      if error == Contract || l.attempts + 1 >= maxAttempts then Failed(l, spare)
      else l.(attempts := l.attempts + 1)
  }

  /** Maintenance between two attempts that fails in a class which is not retried ends the batch; any other is ignored. */
  function Tended(l: Lane, result: Result<Receipt>, spare: Producer): Lane {
    if l.current.Some? && result.Failure? && result.error == Contract then Failed(l, spare) else l
  }

  /** Generated names are unique: a spare name is in no log and no other client uses this lane's names. */
  ghost predicate Enabled(w: World, e: Event) {
    match e
    case Begin(numbers, prepared, wall, spare) =>
      && w.lane.current.None? && numbers != [] && |prepared| == |numbers| && Increasing(numbers) && w.lane.next <= numbers[0]
      && Combinable(Survivors(prepared))
      && spare !in w.lane.names && CountOf(w.history.log, spare) == 0
    case Attempt(wall, fault, spare) =>
      w.lane.current.Some? && spare !in w.lane.names && CountOf(w.history.log, spare) == 0
    case Upkeep(wall, fault, spare) =>
      w.lane.current.Some? ==> w.lane.attempts > 0 && spare !in w.lane.names && CountOf(w.history.log, spare) == 0
    case Other(op) => op.Offer? ==> op.batch.producer !in w.lane.names
  }

  ghost function Step(w: World, e: Event, c: Config, maxAttempts: nat): World {
    match e
    case Begin(_, _, _, _) => w.(lane := Begun(w.lane, e, c.policy))
    case Attempt(wall, fault, spare) =>
      if w.lane.current.None? then w
      else
        var op := Offer(w.lane.current.value, wall, fault);
        World(Apply(w.history, op, c), Answered(w.lane, Outcome(w.history.store, op, c), spare, maxAttempts))
    case Upkeep(wall, fault, spare) =>
      World(Apply(w.history, Tidy(wall, fault), c), Tended(w.lane, Outcome(w.history.store, Tidy(wall, fault), c), spare))
    case Other(op) => w.(history := Apply(w.history, op, c))
  }

  /** The producer is kept for half of its retry horizon, in microseconds. */
  ghost predicate HalfOver(l: Lane, wall: int, p: Policy) {
    2.0 * (wall - l.producer.issued) as real > p.retryHorizon * 1000000.0
  }

  /**
    What the lane makes of a prepared batch: without a prepared publication nothing is offered; what cannot be constructed
    costs the producer and is acknowledged False; anything else is offered next, under a new name once half the horizon is over.
   */
  lemma BegunMeans(l: Lane, e: Event, p: Policy)
    requires e.Begin? && |e.prepared| == |e.numbers|
    ensures var m, parts := Begun(l, e, p), Survivors(e.prepared);
      && m.next == (if e.numbers == [] then l.next else e.numbers[|e.numbers| - 1] + 1)
      && if parts != [] && ValidContent(Combined(parts)) then
           && m.current == Some(if HalfOver(l, e.wall, p) then Batch(e.spare, 1, Combined(parts))
                                else Batch(l.producer, l.sequence + 1, Combined(parts)))
           && m.offers == l.offers + [m.current.value] && m.acks == l.acks && m.attempts == 0
         else
           && m.current.None? && m.offers == l.offers && m.producer == (if parts == [] then l.producer else e.spare)
           && forall i :: 0 <= i < |e.numbers| ==> e.numbers[i] in m.acks && !m.acks[e.numbers[i]]
  {
    forall i | 0 <= i < |e.numbers|
      ensures e.numbers[i] in Jobs(e.numbers)
    {
    }
  }

  // ---- what one operation on the store can do to the log ---------------------------------------------

  /** The log grows by at most the offered batch, and only in its producer's next place. */
  ghost predicate LogStep(before: seq<Batch>, after: seq<Batch>, op: Operation) {
    || after == before
    || (op.Offer? && after == before + [op.batch] && op.batch.sequence == CountOf(before, op.batch.producer) + 1)
  }

  lemma CoveredIsLogged(log: seq<Batch>, s: Store, b: Batch, p: Policy) returns (i: nat)
    requires Logged(log, s, p) && Covered(s, b) && !Conflicting(s, b) && b.sequence == CountOf(log, b.producer)
    ensures i < |log| && log[i] == b
  {
    i := CountedBatch(log, b.producer, b.sequence);
  }

  lemma WriteLogs(log: seq<Batch>, s: Store, op: Operation, c: Config)
    requires Logged(log, s, c.policy) && op.Offer?
    ensures var result := WriteBatch(s, op.batch, op.wall, c).result;
      && LogStep(log, Extended(log, op, result), op)
      && (result.Success? && CountOf(log, op.batch.producer) <= op.batch.sequence ==> op.batch in Extended(log, op, result))
  {
    var b, t := op.batch, Clocked(s, op.wall);
    WriteOutcomes(s, b, op.wall, c);
    ClockKeepsLedger(log, s, op.wall, c.policy);
    if WriteBatch(s, b, op.wall, c).result == Success(Receipt(b.sequence, true)) && CountOf(log, b.producer) <= b.sequence {
      var i := CoveredIsLogged(log, t, b, c.policy);
    }
  }

  /** The log a step leaves, and an unambiguous success means the batch is in it. */
  lemma OfferEffect(h: History, op: Operation, c: Config)
    requires Logged(h.log, h.store, c.policy)
    ensures LogStep(h.log, Apply(h, op, c).log, op)
    ensures op.Offer? && Outcome(h.store, op, c).Success? && CountOf(h.log, op.batch.producer) <= op.batch.sequence ==>
              op.batch in Apply(h, op, c).log
  {
    if op.Offer? {
      WriteLogs(h.log, h.store, op, c);
    }
  }

  // ---- the protocol invariant ------------------------------------------------------------------------

  /** Offers are contiguous per producer and belong to this lane's names; the producer in use is at its last offer. */
  ghost predicate Offering(l: Lane) {
    && l.producer in l.names && Contiguous(l.offers)
    && (forall i :: 0 <= i < |l.offers| ==> l.offers[i].producer in l.names)
    && CountOf(l.offers, l.producer) == l.sequence
    && (l.current.Some? ==>
          l.offers != [] && l.current.value == l.offers[|l.offers| - 1]
          && l.current.value.producer == l.producer && l.current.value.sequence == l.sequence)
  }

  /** What the store applied under this lane's names was offered, and only the current batch can be outstanding. */
  ghost predicate Applying(l: Lane, log: seq<Batch>) {
    && (forall i :: 0 <= i < |log| && log[i].producer in l.names ==> log[i] in l.offers)
    && CountOf(log, l.producer) <= l.sequence
    && l.sequence <= CountOf(log, l.producer) + (if l.current.Some? then 1 else 0)
  }

  /** Every publication's data is in the batch it was put into. */
  ghost predicate Carrying(offers: seq<Batch>, batchOf: map<nat, nat>, data: map<nat, Content>) {
    && data.Keys == batchOf.Keys
    && forall n :: n in batchOf ==> batchOf[n] < |offers| && Includes(offers[batchOf[n]].content, data[n])
  }

  /** Publications know their batch, and one acknowledged True has its batch in the log. */
  ghost predicate Answering(l: Lane, log: seq<Batch>) {
    && (forall n :: n in l.batchOf ==> l.batchOf[n] < |l.offers| && n < l.next)
    && (forall n :: n in l.jobs ==> n < l.next)
    && (l.current.Some? ==> forall n :: n in l.ready ==> n in l.batchOf && l.batchOf[n] == |l.offers| - 1)
    && (forall n :: n in l.acks && l.acks[n] ==> n in l.batchOf && l.offers[l.batchOf[n]] in log)
  }

  ghost predicate Inv(w: World, p: Policy) {
    && Consistent(w.history, p) && Offering(w.lane) && Applying(w.lane, w.history.log) && Answering(w.lane, w.history.log)
    && Carrying(w.lane.offers, w.lane.batchOf, w.lane.data)
  }

  lemma NoneOf(log: seq<Batch>, p: Producer, names: set<Producer>)
    requires forall i :: 0 <= i < |log| ==> log[i].producer in names
    requires p !in names
    ensures CountOf(log, p) == 0
    decreases |log|
  {
    if log != [] {
      NoneOf(log[..|log| - 1], p, names);
    }
  }

  lemma RenamedOffering(l: Lane, spare: Producer, log: seq<Batch>)
    requires Offering(l) && l.current.None? && spare !in l.names && CountOf(log, spare) == 0
    requires forall i :: 0 <= i < |log| && log[i].producer in l.names ==> log[i] in l.offers
    ensures Offering(Renamed(l, spare)) && Applying(Renamed(l, spare), log)
  {
    NoneOf(l.offers, spare, l.names);
    forall i | 0 <= i < |log|
      ensures log[i].producer != spare
    {
      CountGrows(log, i, spare);
    }
  }

  /** The numbers whose preparation succeeded, each with its own data. */
  lemma {:induction false} NumberedIs(numbers: seq<nat>, prepared: seq<Option<Content>>)
    requires |prepared| == |numbers| && Increasing(numbers)
    ensures var data := Numbered(numbers, prepared);
      && (forall i :: 0 <= i < |numbers| ==>
            (numbers[i] in data <==> prepared[i].Some?) && (prepared[i].Some? ==> data[numbers[i]] == prepared[i].value))
      && (forall n :: n in data ==> n in numbers)
  {
    if numbers != [] {
      NumberedIs(numbers[..|numbers| - 1], prepared[..|numbers| - 1]);
    }
  }

  /** Every publication that survived preparation has its data in the combined batch. */
  lemma SurvivorsIncluded(numbers: seq<nat>, prepared: seq<Option<Content>>)
    requires Combinable(Survivors(prepared)) && |prepared| == |numbers| && Increasing(numbers)
    ensures forall n :: n in Numbered(numbers, prepared) ==>
              Includes(Combined(Survivors(prepared)), Numbered(numbers, prepared)[n])
  {
    NumberedIs(numbers, prepared);
    forall n | n in Numbered(numbers, prepared)
      ensures Includes(Combined(Survivors(prepared)), Numbered(numbers, prepared)[n])
    {
      var i :| 0 <= i < |numbers| && numbers[i] == n;
      var j := SurvivorAt(prepared, i);
      CombinedIncludes(Survivors(prepared), j);
    }
  }

  lemma {:induction false} SomeSurvivor(prepared: seq<Option<Content>>) returns (i: nat)
    requires Survivors(prepared) != []
    ensures i < |prepared| && prepared[i].Some?
  {
    i := |prepared| - 1;
    if prepared[i].None? {
      i := SomeSurvivor(prepared[..i]);
    }
  }

  /** The jobs of a batch lie at or beyond `next` and below the next `next`. */
  lemma JobsAhead(numbers: seq<nat>, next: nat)
    requires numbers != [] && Increasing(numbers) && next <= numbers[0]
    ensures forall n :: n in Jobs(numbers) ==> next <= n < Beyond(numbers, next)
    ensures next <= Beyond(numbers, next)
  {
  }

  /** The producer a new batch goes out under has offered `sequence` batches and everything it applied was offered. */
  ghost predicate Named(l: Lane, named: Producer, sequence: nat, log: seq<Batch>) {
    CountOf(l.offers, named) == sequence && CountOf(log, named) == sequence
    && forall i :: 0 <= i < |log| && (log[i].producer in l.names || log[i].producer == named) ==> log[i] in l.offers
  }

  lemma BegunKeeps(w: World, e: Event, p: Policy)
    requires e.Begin? && Enabled(w, e) && Offering(w.lane) && Applying(w.lane, w.history.log) && Answering(w.lane, w.history.log)
    ensures var m := Begun(w.lane, e, p); Offering(m) && Applying(m, w.history.log) && Answering(m, w.history.log)
  {
    var l, log := w.lane, w.history.log;
    JobsAhead(e.numbers, l.next);
    RenamedOffering(l, e.spare, log);
    if Survivors(e.prepared) == [] || !ValidContent(Combined(Survivors(e.prepared))) {
      RefusedKeeps(l, e.numbers, e.spare, log);
    } else {
      var named, sequence := NameFor(l, e, p), SequenceFor(l, e, p);
      assert Named(l, named, sequence, log) by {
        assert Applying(Renamed(l, e.spare), log) && Offering(Renamed(l, e.spare));
      }
      FormedOffering(l, named, sequence, e.numbers, e.prepared, log);
      FormedAnswering(l, named, sequence, e.numbers, e.prepared, log);
    }
  }

  function NameFor(l: Lane, e: Event, p: Policy): Producer
    requires e.Begin?
  {
    if RotationDue(l, e.wall, p) then e.spare else l.producer
  }

  function SequenceFor(l: Lane, e: Event, p: Policy): nat
    requires e.Begin?
  {
    if RotationDue(l, e.wall, p) then 0 else l.sequence
  }

  /** Publications that get no batch are told False. */
  lemma RefusedKeeps(l: Lane, numbers: seq<nat>, spare: Producer, log: seq<Batch>)
    requires l.current.None? && Offering(l) && Applying(l, log) && Answering(l, log)
    requires numbers != [] && Increasing(numbers) && l.next <= numbers[0] && spare !in l.names && CountOf(log, spare) == 0
    ensures var m := Acknowledged(Taken(l, numbers), false); Offering(m) && Applying(m, log) && Answering(m, log)
    ensures var m := Failed(Taken(l, numbers), spare); Offering(m) && Applying(m, log) && Answering(m, log)
  {
    JobsAhead(numbers, l.next);
    RenamedKeeps(Acknowledged(Taken(l, numbers), false), spare, log);
  }

  lemma FormedOffering(l: Lane, named: Producer, sequence: nat, numbers: seq<nat>, prepared: seq<Option<Content>>, log: seq<Batch>)
    requires Offering(l) && Named(l, named, sequence, log)
    ensures var m := Formed(l, named, sequence, numbers, prepared); Offering(m) && Applying(m, log)
  {
    var m := Formed(l, named, sequence, numbers, prepared);
    ContiguousAppend(l.offers, m.current.value);
    forall i | 0 <= i < |log| && log[i].producer in m.names
      ensures log[i] in m.offers
    {
      assert log[i] in l.offers;
    }
  }

  lemma FormedAnswering(l: Lane, named: Producer, sequence: nat, numbers: seq<nat>, prepared: seq<Option<Content>>, log: seq<Batch>)
    requires Answering(l, log) && numbers != [] && |prepared| == |numbers| && Increasing(numbers) && l.next <= numbers[0]
    ensures Answering(Formed(l, named, sequence, numbers, prepared), log)
  {
    JobsAhead(numbers, l.next);
    NumberedIs(numbers, prepared);
    var m := Formed(l, named, sequence, numbers, prepared);
    forall n | n in Numbered(numbers, prepared)
      ensures l.next <= n < m.next
    {
      assert n in Jobs(numbers);
    }
    forall n | n in m.acks && m.acks[n]
      ensures n in m.batchOf && m.offers[m.batchOf[n]] in log
    {
      assert m.batchOf[n] == l.batchOf[n] && m.offers[m.batchOf[n]] == l.offers[l.batchOf[n]];
    }
  }

  lemma FormedCarrying(l: Lane, named: Producer, sequence: nat, numbers: seq<nat>, prepared: seq<Option<Content>>)
    requires Carrying(l.offers, l.batchOf, l.data) && Combinable(Survivors(prepared)) && |prepared| == |numbers| && Increasing(numbers)
    ensures var m := Formed(l, named, sequence, numbers, prepared); Carrying(m.offers, m.batchOf, m.data)
  {
    var m := Formed(l, named, sequence, numbers, prepared);
    SurvivorsIncluded(numbers, prepared);
    MoreCarried(l.offers, l.batchOf, l.data, m.current.value, Numbered(numbers, prepared));
  }

  lemma MoreCarried(offers: seq<Batch>, batchOf: map<nat, nat>, data: map<nat, Content>, b: Batch, more: map<nat, Content>)
    requires Carrying(offers, batchOf, data) && forall n :: n in more ==> Includes(b.content, more[n])
    ensures Carrying(offers + [b], batchOf + map n | n in more :: |offers|, data + more)
  {
  }

  /** Only forming a batch touches offers and data. */
  lemma StepKeepsCarrying(w: World, e: Event, c: Config, maxAttempts: nat)
    requires Carrying(w.lane.offers, w.lane.batchOf, w.lane.data) && Enabled(w, e)
    ensures var l := Step(w, e, c, maxAttempts).lane; Carrying(l.offers, l.batchOf, l.data)
  {
    if e.Begin? && Survivors(e.prepared) != [] && ValidContent(Combined(Survivors(e.prepared))) {
      FormedCarrying(w.lane, NameFor(w.lane, e, c.policy), SequenceFor(w.lane, e, c.policy), e.numbers, e.prepared);
    }
  }

  /** Answering the current batch True needs it in the log; answering False needs nothing. */
  lemma AcknowledgedKeeps(l: Lane, log: seq<Batch>, committed: bool)
    requires l.current.Some? && Offering(l) && Answering(l, log) && (committed ==> l.current.value in log)
    ensures Offering(Acknowledged(l, committed)) && Answering(Acknowledged(l, committed), log)
  {
    var m := Acknowledged(l, committed);
    forall n | n in m.acks && m.acks[n]
      ensures n in m.batchOf && m.offers[m.batchOf[n]] in log
    {
      assert n in l.jobs ==> n in l.ready && l.batchOf[n] == |l.offers| - 1;
    }
  }

  lemma RenamedKeeps(l: Lane, spare: Producer, log: seq<Batch>)
    requires Offering(l) && Answering(l, log) && l.current.None? && spare !in l.names && CountOf(log, spare) == 0
    requires forall i :: 0 <= i < |log| && log[i].producer in l.names ==> log[i] in l.offers
    ensures var m := Renamed(l, spare); Offering(m) && Applying(m, log) && Answering(m, log)
  {
    RenamedOffering(l, spare, log);
  }

  lemma SucceededKeeps(l: Lane, log: seq<Batch>)
    requires l.current.Some? && Offering(l) && Applying(l, log) && Answering(l, log)
    requires l.current.value in log && CountOf(log, l.producer) == l.sequence
    ensures var m := Acknowledged(l, true); Offering(m) && Applying(m, log) && Answering(m, log)
  {
    AcknowledgedKeeps(l, log, true);
  }

  lemma FailedKeeps(l: Lane, log: seq<Batch>, spare: Producer)
    requires l.current.Some? && Offering(l) && Applying(l, log) && Answering(l, log)
    requires spare !in l.names && CountOf(log, spare) == 0
    ensures var m := Failed(l, spare); Offering(m) && Applying(m, log) && Answering(m, log)
  {
    AcknowledgedKeeps(l, log, false);
    RenamedKeeps(Acknowledged(l, false), spare, log);
  }

  lemma AnsweredKeeps(l: Lane, log: seq<Batch>, result: Result<Receipt>, spare: Producer, maxAttempts: nat)
    requires l.current.Some? && Offering(l) && Applying(l, log) && Answering(l, log)
    requires spare !in l.names && CountOf(log, spare) == 0
    requires result.Success? ==> l.current.value in log && CountOf(log, l.producer) == l.sequence
    ensures var m := Answered(l, result, spare, maxAttempts); Offering(m) && Applying(m, log) && Answering(m, log)
  {
    if result.Success? {
      SucceededKeeps(l, log);
    } else if result.error == Contract || l.attempts + 1 >= maxAttempts {
      FailedKeeps(l, log, spare);
    }
  }

  /** A log step by this lane's own batch, or by anyone else's, keeps what the lane relies on. */
  lemma LogStepKeeps(l: Lane, before: seq<Batch>, after: seq<Batch>, op: Operation)
    requires Offering(l) && Applying(l, before) && Answering(l, before) && LogStep(before, after, op)
    requires op.Offer? ==> op.batch.producer !in l.names || l.current == Some(op.batch)
    ensures Applying(l, after) && Answering(l, after)
    ensures op.Offer? && op.batch in after ==> CountOf(after, op.batch.producer) >= op.batch.sequence || !Contiguous(after)
  {
    if after != before {
      assert after[..|after| - 1] == before;
      assert forall i :: 0 <= i < |before| ==> after[i] == before[i];
    }
    if op.Offer? && op.batch in after && Contiguous(after) {
      var i :| 0 <= i < |after| && after[i] == op.batch;
      CountGrows(after, i, op.batch.producer);
    }
  }

  lemma SpareStays(before: seq<Batch>, after: seq<Batch>, op: Operation, spare: Producer)
    requires LogStep(before, after, op) && CountOf(before, spare) == 0 && (op.Offer? ==> op.batch.producer != spare)
    ensures CountOf(after, spare) == 0
  {
    if after != before {
      assert after[..|after| - 1] == before;
    }
  }

  lemma AttemptAnswered(l: Lane, before: seq<Batch>, after: seq<Batch>, op: Operation, result: Result<Receipt>,
                        spare: Producer, maxAttempts: nat)
    requires Offering(l) && Applying(l, before) && Answering(l, before)
    requires op.Offer? && l.current == Some(op.batch) && LogStep(before, after, op) && Contiguous(before)
    requires spare !in l.names && CountOf(before, spare) == 0
    requires result.Success? ==> op.batch in after
    ensures var m := Answered(l, result, spare, maxAttempts); Offering(m) && Applying(m, after) && Answering(m, after)
  {
    if after != before {
      ContiguousAppend(before, op.batch);
    }
    LogStepKeeps(l, before, after, op);
    SpareStays(before, after, op, spare);
    AnsweredKeeps(l, after, result, spare, maxAttempts);
  }

  lemma AttemptKeeps(w: World, e: Event, c: Config, maxAttempts: nat)
    requires Inv(w, c.policy) && Enabled(w, e) && e.Attempt?
    ensures var v := Step(w, e, c, maxAttempts);
      Offering(v.lane) && Applying(v.lane, v.history.log) && Answering(v.lane, v.history.log)
  {
    var op := Offer(w.lane.current.value, e.wall, e.fault);
    OfferEffect(w.history, op, c);
    AttemptAnswered(w.lane, w.history.log, Apply(w.history, op, c).log, op, Outcome(w.history.store, op, c), e.spare, maxAttempts);
  }

  lemma UpkeepKeeps(w: World, e: Event, c: Config, maxAttempts: nat)
    requires Inv(w, c.policy) && Enabled(w, e) && e.Upkeep?
    ensures var v := Step(w, e, c, maxAttempts);
      Offering(v.lane) && Applying(v.lane, v.history.log) && Answering(v.lane, v.history.log)
  {
    OfferEffect(w.history, Tidy(e.wall, e.fault), c);
    if Step(w, e, c, maxAttempts).lane != w.lane {
      FailedKeeps(w.lane, w.history.log, e.spare);
    }
  }

  lemma StepKeepsInv(w: World, e: Event, c: Config, maxAttempts: nat)
    requires Inv(w, c.policy) && Enabled(w, e)
    ensures Inv(Step(w, e, c, maxAttempts), c.policy)
  {
    StepKeepsConsistent(w, e, c, maxAttempts);
    StepKeepsCarrying(w, e, c, maxAttempts);
    match e
    case Begin(_, _, _, _) => BegunKeeps(w, e, c.policy);
    case Attempt(_, _, _) => AttemptKeeps(w, e, c, maxAttempts);
    case Upkeep(_, _, _) => UpkeepKeeps(w, e, c, maxAttempts);
    case Other(op) => BystanderKeeps(w, op, c);
  }

  lemma StepKeepsConsistent(w: World, e: Event, c: Config, maxAttempts: nat)
    requires Consistent(w.history, c.policy)
    ensures Consistent(Step(w, e, c, maxAttempts).history, c.policy)
  {
    match e
    case Begin(_, _, _, _) =>
    case Attempt(wall, fault, _) =>
      if w.lane.current.Some? {
        ApplyKeepsConsistent(w.history, Offer(w.lane.current.value, wall, fault), c);
      }
    case Upkeep(wall, fault, _) => ApplyKeepsConsistent(w.history, Tidy(wall, fault), c);
    case Other(op) => ApplyKeepsConsistent(w.history, op, c);
  }

  lemma BystanderKeeps(w: World, op: Operation, c: Config)
    requires Inv(w, c.policy) && (op.Offer? ==> op.batch.producer !in w.lane.names)
    ensures Applying(w.lane, Apply(w.history, op, c).log) && Answering(w.lane, Apply(w.history, op, c).log)
  {
    OfferEffect(w.history, op, c);
    LogStepKeeps(w.lane, w.history.log, Apply(w.history, op, c).log, op);
  }

  // ---- runs --------------------------------------------------------------------------------------------

  ghost function Run(w: World, events: seq<Event>, c: Config, maxAttempts: nat): World {
    if events == [] then w
    else Step(Run(w, events[..|events| - 1], c, maxAttempts), events[|events| - 1], c, maxAttempts)
  }

  ghost predicate Possible(w: World, events: seq<Event>, c: Config, maxAttempts: nat) {
    events != [] ==>
      && Possible(w, events[..|events| - 1], c, maxAttempts)
      && Enabled(Run(w, events[..|events| - 1], c, maxAttempts), events[|events| - 1])
  }

  lemma RunMore(w: World, events: seq<Event>, e: Event, c: Config, maxAttempts: nat)
    requires Possible(w, events, c, maxAttempts) && Enabled(Run(w, events, c, maxAttempts), e)
    ensures Possible(w, events + [e], c, maxAttempts)
    ensures Run(w, events + [e], c, maxAttempts) == Step(Run(w, events, c, maxAttempts), e, c, maxAttempts)
  {
    assert (events + [e])[..|events|] == events;
  }

  lemma {:induction false} RunKeepsInv(w: World, events: seq<Event>, c: Config, maxAttempts: nat)
    requires Inv(w, c.policy) && Possible(w, events, c, maxAttempts)
    ensures Inv(Run(w, events, c, maxAttempts), c.policy)
  {
    if events != [] {
      var init := events[..|events| - 1];
      RunKeepsInv(w, init, c, maxAttempts);
      StepKeepsInv(Run(w, init, c, maxAttempts), events[|events| - 1], c, maxAttempts);
    }
  }

  /** Position `i` of the log is an application of publication `n`. */
  ghost predicate AppliesPublication(w: World, n: nat, i: nat) {
    && i < |w.history.log| && n in w.lane.batchOf && w.lane.batchOf[n] < |w.lane.offers|
    && w.history.log[i].producer == w.lane.offers[w.lane.batchOf[n]].producer
    && w.history.log[i].sequence == w.lane.offers[w.lane.batchOf[n]].sequence
  }

  lemma StartInv(h: History, producer: Producer, p: Policy)
    requires Consistent(h, p) && CountOf(h.log, producer) == 0
    ensures Inv(World(h, Start(producer)), p)
  {
    forall i | 0 <= i < |h.log|
      ensures h.log[i].producer != producer
    {
      CountGrows(h.log, i, producer);
    }
  }

  /** What took effect under a publication's batch identity is that batch, data included. */
  lemma AppliedAsOffered(w: World, p: Policy, n: nat, i: nat)
    requires Inv(w, p) && AppliesPublication(w, n, i)
    ensures w.history.log[i] == w.lane.offers[w.lane.batchOf[n]] && Includes(w.history.log[i].content, w.lane.data[n])
  {
    var offers, k := w.lane.offers, w.lane.batchOf[n];
    assert w.history.log[i] in offers;
    var j :| 0 <= j < |offers| && offers[j] == w.history.log[i];
    if j < k {
      AppliedAtMostOnce(offers, j, k);
    } else if k < j {
      AppliedAtMostOnce(offers, k, j);
    }
  }

  /**
    The store can refuse the lane's batch for its horizon, its checkpoint or its contents, never for its place in
    the sequence and never as a conflicting duplicate, however many earlier attempts committed unnoticed.
   */
  lemma OfferFits(w: World, wall: int, p: Policy)
    requires Inv(w, p) && w.lane.current.Some?
    ensures var b, t := w.lane.current.value, Clocked(w.history.store, wall);
      !OutsideHorizon(b, t.meta.clock, p) ==>
        !Conflicting(t, b) && (Covered(t, b) || b.sequence == ExpectedSequence(t, b.producer))
  {
    var b, t, log := w.lane.current.value, Clocked(w.history.store, wall), w.history.log;
    if b.producer in t.producers && b.sequence == t.producers[b.producer].sequence {
      var i := CountedBatch(log, b.producer, b.sequence);
      var offers := w.lane.offers;
      assert log[i] in offers;
      var j :| 0 <= j < |offers| && offers[j] == log[i];
      if j < |offers| - 1 {
        AppliedAtMostOnce(offers, j, |offers| - 1);
      }
    }
  }

  /**
    Each publication takes effect at most once, with all its data and nothing else under its identity; one that was
    acknowledged True took effect exactly once; and the lane's offers are contiguous for every producer.
   */
  ghost predicate ExactlyOnce(w: World) {
    && (forall n: nat, i: nat, j: nat :: AppliesPublication(w, n, i) && AppliesPublication(w, n, j) ==> i == j)
    && (forall n: nat, i: nat :: AppliesPublication(w, n, i) ==>
          w.history.log[i] == w.lane.offers[w.lane.batchOf[n]] && n in w.lane.data
          && Includes(w.history.log[i].content, w.lane.data[n]))
    && (forall n :: n in w.lane.acks && w.lane.acks[n] ==> exists i: nat :: AppliesPublication(w, n, i))
    && Contiguous(w.lane.offers)
  }

  lemma ReachableExactlyOnce(w: World, p: Policy)
    requires Inv(w, p)
    ensures ExactlyOnce(w)
  {
    var log := w.history.log;
    forall n: nat, i: nat, j: nat | AppliesPublication(w, n, i) && AppliesPublication(w, n, j)
      ensures i == j
    {
      if i < j {
        AppliedAtMostOnce(log, i, j);
      } else if j < i {
        AppliedAtMostOnce(log, j, i);
      }
    }
    forall n: nat, i: nat | AppliesPublication(w, n, i)
      ensures log[i] == w.lane.offers[w.lane.batchOf[n]] && Includes(log[i].content, w.lane.data[n])
    {
      AppliedAsOffered(w, p, n, i);
    }
    forall n | n in w.lane.acks && w.lane.acks[n]
      ensures exists i: nat :: AppliesPublication(w, n, i)
    {
      var i :| 0 <= i < |log| && log[i] == w.lane.offers[w.lane.batchOf[n]];
      assert AppliesPublication(w, n, i);
    }
  }

  /** The end-to-end guarantee: from any consistent store and an unused producer name, over every possible run. */
  lemma ExactlyOnceEndToEnd(h: History, producer: Producer, events: seq<Event>, c: Config, maxAttempts: nat)
    requires Consistent(h, c.policy) && CountOf(h.log, producer) == 0
    requires Possible(World(h, Start(producer)), events, c, maxAttempts)
    ensures var w := Run(World(h, Start(producer)), events, c, maxAttempts); ExactlyOnce(w) && Sound(w.history.store)
  {
    StartInv(h, producer, c.policy);
    RunKeepsInv(World(h, Start(producer)), events, c, maxAttempts);
    ReachableExactlyOnce(Run(World(h, Start(producer)), events, c, maxAttempts), c.policy);
  }
}
