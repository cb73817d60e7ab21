/** Coalescing keeps batches within their limits, and what holds over every run of the lane. */
module LaneRuns {
  import opened Wrappers
  import opened Totals
  import opened Tables
  import opened Transaction
  import opened Publications
  import opened Reservations
  import opened Barriers
  import opened Acknowledgements
  import opened Lane

  // ---- batches ----------------------------------------------------------------------------------------------

  /** Every queued publication fits a batch of its own. */
  ghost predicate Batchable(queue: seq<Job>, b: Bounds) {
    forall i :: 0 <= i < |queue| && queue[i].Publication? ==> queue[i].work.bytes <= b.batchBytes && queue[i].work.items <= b.batchItems
  }

  /** The batch being written is within both limits, and an import is written alone. */
  ghost predicate Batched(current: seq<Work>, b: Bounds) {
    && (current != [] ==> BytesOf(current) <= b.batchBytes && ItemsOf(current) <= b.batchItems)
    && (|current| > 1 ==> forall i :: 0 <= i < |current| ==> !current[i].imports)
  }

  function WorksOf(jobs: seq<Job>): seq<Work>
    requires forall i :: 0 <= i < |jobs| ==> jobs[i].Publication?
  {
    if jobs == [] then [] else [jobs[0].work] + WorksOf(jobs[1..])
  }

  /** The batch takes the next `n` jobs of the queue, all publications, none past a read or an import. */
  ghost predicate TakesRun(k: Books, l: Books, n: nat)
    requires k.current != []
  {
    && n <= |k.queue| && (forall i :: 0 <= i < n ==> k.queue[i].Publication? && !k.queue[i].work.imports)
    && l == k.(current := k.current + WorksOf(k.queue[..n]), queue := k.queue[n..])
    && (n > 0 ==> !k.current[0].imports)
  }

  lemma RunStep(k: Books, l: Books, m: nat)
    requires k.current != [] && !k.current[0].imports && k.queue != [] && k.queue[0].Publication? && !k.queue[0].work.imports
    requires TakesRun(Absorbed(k), l, m)
    ensures TakesRun(k, l, m + 1)
  {
    var a := Absorbed(k);
    assert k.queue[..m + 1][1..] == a.queue[..m] && k.queue[m + 1..] == a.queue[m..];
    assert k.current + WorksOf(k.queue[..m + 1]) == a.current + WorksOf(a.queue[..m]);
    forall i | 0 <= i < m + 1
      ensures k.queue[i].Publication? && !k.queue[i].work.imports
    {
      assert i > 0 ==> k.queue[i] == a.queue[i - 1];
    }
  }

  lemma AbsorbedBatched(k: Books, b: Bounds)
    requires k.current != [] && Batched(k.current, b) && Joins(k.current, k.queue, b)
    ensures Batched(Absorbed(k).current, b)
  {
    assert Absorbed(k).current[..|k.current|] == k.current;
  }

  /** Coalescing extends the batch by an adjacent run, stops only when nothing more may join, and keeps the limits. */
  lemma {:induction false} CoalescedRun(k: Books, b: Bounds) returns (n: nat)
    requires k.current != [] && Batched(k.current, b)
    ensures TakesRun(k, Coalesced(k, b), n)
    ensures Batched(Coalesced(k, b).current, b) && !Joins(Coalesced(k, b).current, Coalesced(k, b).queue, b)
    decreases |k.queue|
  {
    n := 0;
    if Joins(k.current, k.queue, b) {
      AbsorbedBatched(k, b);
      var m := CoalescedRun(Absorbed(k), b);
      RunStep(k, Coalesced(k, b), m);
      n := m + 1;
    }
  }

  /** The batch took a run of adjacent publications, and whatever is next may not or does not fit to follow. */
  ghost predicate ExtendedFully(k: Books, l: Books, b: Bounds)
    requires k.current != []
  {
    && (exists n :: TakesRun(k, l, n))
    && (|| k.current[0].imports || l.queue == [] || l.queue[0].Read? || l.queue[0].work.imports
        || BytesOf(l.current) + l.queue[0].work.bytes > b.batchBytes || ItemsOf(l.current) + l.queue[0].work.items > b.batchItems)
  }

  lemma CoalescedFully(k: Books, b: Bounds)
    requires k.current != [] && Batched(k.current, b)
    ensures ExtendedFully(k, Coalesced(k, b), b)
  {
    hide Coalesced, TakesRun, BytesOf, ItemsOf, Batched;
    var n := CoalescedRun(k, b);
    TakenHead(k, Coalesced(k, b), n);
  }

  lemma TakenHead(k: Books, l: Books, n: nat)
    requires k.current != [] && TakesRun(k, l, n)
    ensures l.current != [] && l.current[0] == k.current[0]
  {
    hide WorksOf;
  }

  function ItemsList(works: seq<Work>): (r: seq<nat>)
    ensures |r| == |works| && forall i :: 0 <= i < |r| ==> r[i] == works[i].items
  {
    seq<nat>(|works|, i requires 0 <= i < |works| => works[i].items)
  }

  function BytesList(works: seq<Work>): (r: seq<nat>)
    requires forall i :: 0 <= i < |works| ==> works[i].bytes >= 0
    ensures |r| == |works| && forall i :: 0 <= i < |r| ==> r[i] == works[i].bytes
  {
    seq<nat>(|works|, i requires 0 <= i < |works| => works[i].bytes)
  }

  lemma {:induction false} ItemsSum(works: seq<Work>)
    ensures SumOf(ItemsList(works)) == ItemsOf(works)
  {
    if works != [] {
      var n := |works| - 1;
      ItemsSum(works[..n]);
      assert ItemsList(works)[..n] == ItemsList(works[..n]);
    }
  }

  lemma {:induction false} BytesSum(works: seq<Work>)
    requires forall i :: 0 <= i < |works| ==> works[i].bytes >= 0
    ensures SumOf(BytesList(works)) == BytesOf(works)
  {
    if works != [] {
      var n := |works| - 1;
      BytesSum(works[..n]);
      assert BytesList(works)[..n] == BytesList(works[..n]);
    }
  }

  /** The bytes of what was prepared. */
  function MadeBytes(made: seq<Option<Content>>, c: Config): (r: seq<nat>)
    ensures |r| == |made| && forall i :: 0 <= i < |r| && made[i].Some? ==> r[i] == ByteSize(made[i].value, c)
  {
    seq<nat>(|made|, i requires 0 <= i < |made| => if made[i].Some? then ByteSize(made[i].value, c) else 0)
  }

  lemma {:induction false} SurvivorsValid(made: seq<Option<Content>>)
    requires forall i :: 0 <= i < |made| && made[i].Some? ==> ValidContent(made[i].value)
    ensures forall i :: 0 <= i < |Survivors(made)| ==> ValidContent(Survivors(made)[i])
    ensures |Survivors(made)| <= |made|
  {
    if made != [] {
      SurvivorsValid(made[..|made| - 1]);
    }
  }

  lemma {:induction false} SurvivorsPlain(made: seq<Option<Content>>)
    requires forall i :: 0 <= i < |made| && made[i].Some? ==> made[i].value.checkpoint.None?
    ensures forall i :: 0 <= i < |Survivors(made)| ==> Survivors(made)[i].checkpoint.None?
  {
    if made != [] {
      SurvivorsPlain(made[..|made| - 1]);
    }
  }

  lemma PreparedCombines(current: seq<Work>, made: seq<Option<Content>>, b: Bounds, c: Config)
    requires |made| == |current| && Batched(current, b) && Survivors(made) != []
    requires forall i :: 0 <= i < |made| && made[i].Some? ==> Fits(current[i], made[i].value, c)
    ensures var content := Combined(Survivors(made));
      Combinable(Survivors(made)) && Items(content) <= b.batchItems && (b.batchItems <= 1024 ==> ValidContent(content))
  {
    SurvivorsValid(made);
    PreparedAlone(current, made, b, c);
    PreparedItems(current, made, b, c);
    CombinedValid(Survivors(made));
  }

  lemma PreparedAlone(current: seq<Work>, made: seq<Option<Content>>, b: Bounds, c: Config)
    requires |made| == |current| && Batched(current, b)
    requires forall i :: 0 <= i < |made| && made[i].Some? ==> Fits(current[i], made[i].value, c)
    ensures Combinable(Survivors(made))
  {
    SurvivorsValid(made);
    if |current| > 1 {
      SurvivorsPlain(made);
    }
  }

  lemma PreparedItems(current: seq<Work>, made: seq<Option<Content>>, b: Bounds, c: Config)
    requires |made| == |current| && Batched(current, b) && current != [] && Combinable(Survivors(made))
    requires forall i :: 0 <= i < |made| && made[i].Some? ==> Fits(current[i], made[i].value, c)
    ensures Items(Combined(Survivors(made))) <= b.batchItems
  {
    CombinedSizes(Survivors(made), c);
    SurvivorsFit(made, ItemsList(current), MadeBytes(made, c), c);
    ItemsSum(current);
  }

  lemma PreparedFits(current: seq<Work>, made: seq<Option<Content>>, b: Bounds, c: Config)
    requires |made| == |current| && Batched(current, b) && Survivors(made) != [] && Combinable(Survivors(made))
    requires forall i :: 0 <= i < |current| ==> current[i].bytes >= 0
    requires forall i :: 0 <= i < |made| && made[i].Some? ==> Fits(current[i], made[i].value, c)
    ensures ByteSize(Combined(Survivors(made)), c) <= b.batchBytes
  {
    hide ByteSize;
    CombinedSizes(Survivors(made), c);
    SurvivorsFit(made, ItemsList(current), BytesList(current), c);
    BytesSum(current);
  }

  lemma CombinedValid(parts: seq<Content>)
    requires Combinable(parts) && parts != [] && forall i :: 0 <= i < |parts| ==> ValidContent(parts[i])
    ensures Items(Combined(parts)) <= 1024 ==> ValidContent(Combined(parts))
  {
    CombinedIncludes(parts, 0);
    SomeItems(Combined(parts), parts[0]);
    if |parts| == 1 {
      assert parts[..0] == [];
      assert AllProfiles(parts) == AllProfiles([]) + parts[0].profiles;
    }
  }

  lemma SomeItems(whole: Content, part: Content)
    requires Includes(whole, part) && Items(part) > 0
    ensures Items(whole) > 0
  {
  }

  /** At most 1024 items of a kind make a batch: with single-context publications the constructor draws the line there. */
  lemma SingleContextBatches(content: Content, n: nat)
    requires content.checkpoint.None? && |content.contexts| == 1 && content.sessions == [] && content.profiles == []
    ensures ValidContent(Combined(seq(n, _ => content))) <==> 1 <= n <= 1024
  {
    var parts := seq(n, _ => content);
    CopiesCombined(content, n);
    assert |parts| == 1 ==> parts[0].checkpoint.None?;
  }

  lemma {:induction false} CopiesCombined(content: Content, n: nat)
    requires |content.contexts| == 1 && content.sessions == [] && content.profiles == []
    ensures var parts := seq(n, _ => content);
      |AllContexts(parts)| == n && AllSessions(parts) == [] && AllProfiles(parts) == []
  {
    if n > 0 {
      CopiesCombined(content, n - 1);
      assert seq(n, _ => content)[..n - 1] == seq(n - 1, _ => content);
    }
  }

  // ---- runs -------------------------------------------------------------------------------------------------

  datatype Event =
    | OnReserve | OnReserveDetail(id: nat, bytes: nat) | OnSettleCapture(id: nat, excess: nat)
    | OnReleaseDetail(id: nat, bytes: nat) | OnReserveCache(bytes: nat) | OnDiscard(id: nat, gap: bool)
    | OnSubmit(id: nat, content: Content) | OnDefer(id: nat, profile: bool) | OnRequest | OnBarrier(report: bool)
    | OnGap(gap: bool) | OnOpened | OnOpenFailed(tolerated: bool) | OnClose
    | OnTake | OnCoalesce | OnFinishRead | OnPrepare(built: Built) | OnFinish(failed: bool)
    | OnAcknowledge(raised: bool) | OnSettleBatch | OnDrain

  datatype Setup = Setup(bounds: Bounds, config: Config, strict: bool, notifies: bool)

  function Step(s: State, e: Event, u: Setup): State {
    match e
    case OnReserve => Reserve(s, u.bounds, u.strict, u.notifies).state
    case OnReserveDetail(id, bytes) => ReserveDetail(s, id, bytes, u.bounds).state
    case OnSettleCapture(id, excess) => SettleCapture(s, id, excess).state
    case OnReleaseDetail(id, bytes) => ReleaseDetail(s, id, bytes).state
    case OnReserveCache(bytes) => ReserveCache(s, bytes, u.bounds).state
    case OnDiscard(id, gap) => Discard(s, id, gap).state
    case OnSubmit(id, content) => Submit(s, id, content, u.bounds, u.config).state
    case OnDefer(id, profile) => Defer(s, id, profile, u.bounds).state
    case OnRequest => Request(s, u.bounds).state
    case OnBarrier(report) => AskBarrier(s, report, u.bounds).state
    case OnGap(gap) => Gap(s, gap)
    case OnOpened => Opened(s)
    case OnOpenFailed(tolerated) => OpenFailed(s, tolerated)
    case OnClose => Close(s)
    case OnTake => Take(s)
    case OnCoalesce => Coalesce(s, u.bounds)
    case OnFinishRead => FinishRead(s)
    case OnPrepare(built) => Prepare(s, built, u.config)
    case OnFinish(failed) => Finish(s, failed)
    case OnAcknowledge(raised) => Acknowledge(s, raised)
    case OnSettleBatch => SettleBatch(s)
    case OnDrain => Drain(s)
  }

  /** A capture that settles still has the allowance it reserved; see `SettleCaptureWithin`. */
  predicate Orderly(s: State, e: Event) {
    e.OnSettleCapture? && e.id in s.charges.held ==> e.excess <= s.charges.held[e.id].detail
  }

  lemma ModeValid(s: State, mode: Mode, b: Bounds, c: Config)
    requires Valid(s, b, c)
    ensures Valid(s.(mode := mode), b, c)
  {
    assert LookAtState(s);
    assert ValidParts(s.(mode := mode), b, c);
  }

  lemma CoalesceValid(s: State, b: Bounds, c: Config)
    requires Valid(s, b, c)
    ensures Valid(Coalesce(s, b), b, c)
  {
    if s.books.current != [] && !s.books.released {
      CoalescedValid(s, b, c);
    }
  }

  lemma FinishReadValid(s: State, b: Bounds, c: Config)
    requires Valid(s, b, c)
    ensures Valid(FinishRead(s), b, c)
  {
    assert LookAtState(s);
    PromisesMore(s.waiting, FinishRead(s).waiting, s.books, s.books);
    assert ValidParts(FinishRead(s), b, c);
  }

  lemma OpenFailedValid(s: State, tolerated: bool, b: Bounds, c: Config)
    requires Valid(s, b, c)
    ensures Valid(OpenFailed(s, tolerated), b, c)
  {
    assert LookAtState(s);
    LineMissing(s.books, {}, c);
    FailValid(s, 0, false, {}, b, c);
    ModeValid(Fail(s, 0, false, {}), OpenFailed(s, tolerated).mode, b, c);
  }

  predicate ByLane(e: Event) {
    || e.OnTake? || e.OnCoalesce? || e.OnFinishRead? || e.OnPrepare? || e.OnFinish? || e.OnAcknowledge?
    || e.OnSettleBatch? || e.OnDrain?
  }

  lemma OwnerStepValid(s: State, e: Event, u: Setup)
    requires Valid(s, u.bounds, u.config) && ValidBounds(u.bounds) && !ByLane(e)
    ensures Valid(Step(s, e, u), u.bounds, u.config)
  {
    hide Valid;
    var b, c := u.bounds, u.config;
    match e
    case OnReserve => ReserveValid(s, b, c, u.strict, u.notifies);
    case OnReserveDetail(id, bytes) => ReserveDetailValid(s, id, bytes, b, c);
    case OnSettleCapture(id, excess) => SettleCaptureValid(s, id, excess, b, c);
    case OnReleaseDetail(id, bytes) => ReleaseDetailValid(s, id, bytes, b, c);
    case OnReserveCache(bytes) => ReserveCacheValid(s, bytes, b, c);
    case OnDiscard(id, gap) => DiscardValid(s, id, gap, b, c);
    case OnSubmit(id, content) => SubmitValid(s, id, content, b, c);
    case OnDefer(id, profile) => DeferValid(s, id, profile, b, c);
    case OnRequest => RequestValid(s, b, c);
    case OnBarrier(report) => AskBarrierValid(s, report, b, c);
    case OnGap(gap) => GapValid(s, gap, b, c);
    case OnOpened => ModeValid(s, Opened(s).mode, b, c);
    case OnOpenFailed(tolerated) => OpenFailedValid(s, tolerated, b, c);
    case OnClose => ModeValid(s, Close(s).mode, b, c);
  }

  lemma LaneStepValid(s: State, e: Event, u: Setup)
    requires Valid(s, u.bounds, u.config) && ByLane(e)
    ensures Valid(Step(s, e, u), u.bounds, u.config)
  {
    var b, c := u.bounds, u.config;
    match e
    case OnTake => TakeValid(s, b, c);
    case OnCoalesce => CoalesceValid(s, b, c);
    case OnFinishRead => FinishReadValid(s, b, c);
    case OnDrain => DrainValid(s, b, c);
    case _ => BatchStepValid(s, e, u);
  }

  lemma BatchStepValid(s: State, e: Event, u: Setup)
    requires Valid(s, u.bounds, u.config)
    requires e.OnPrepare? || e.OnFinish? || e.OnAcknowledge? || e.OnSettleBatch?
    ensures Valid(Step(s, e, u), u.bounds, u.config)
  {
    var b, c := u.bounds, u.config;
    match e
    case OnPrepare(built) => PrepareValid(s, built, b, c);
    case OnFinish(failed) => FinishValid(s, failed, b, c);
    case OnAcknowledge(raised) => AcknowledgeValid(s, raised, b, c);
    case OnSettleBatch => SettleBatchValid(s, b, c);
  }

  /** Every step, by the owners or by the lane, keeps the totals, the line of numbers, the promises and the slots. */
  lemma StepValid(s: State, e: Event, u: Setup)
    requires Valid(s, u.bounds, u.config) && ValidBounds(u.bounds)
    ensures Valid(Step(s, e, u), u.bounds, u.config)
  {
    if ByLane(e) {
      LaneStepValid(s, e, u);
    } else {
      OwnerStepValid(s, e, u);
    }
  }

  /** Only the steps that reserve, resize, release or hand off touch a charge. */
  lemma ChargesStay(s: State, e: Event, u: Setup)
    requires !(e.OnReserve? || e.OnReserveDetail? || e.OnSettleCapture? || e.OnReleaseDetail? || e.OnReserveCache?)
    requires !(e.OnDiscard? || e.OnSubmit? || e.OnDefer? || e.OnFinish?)
    ensures Step(s, e, u).charges == s.charges
  {
  }

  /** The limits hold after every step exactly when a capture that settles still has its allowance. */
  lemma StepWithin(s: State, e: Event, u: Setup)
    requires Valid(s, u.bounds, u.config) && Within(s.charges, u.bounds) && ValidBounds(u.bounds)
    ensures Within(Step(s, e, u).charges, u.bounds) <==> Orderly(s, e)
  {
    var b, c := u.bounds, u.config;
    match e
    case OnReserve => ReserveValid(s, b, c, u.strict, u.notifies);
    case OnReserveDetail(id, bytes) => ReserveDetailValid(s, id, bytes, b, c);
    case OnSettleCapture(id, excess) => SettleCaptureWithin(s, id, excess, b, c);
    case OnReleaseDetail(id, bytes) => ReleaseDetailValid(s, id, bytes, b, c);
    case OnReserveCache(bytes) => ReserveCacheValid(s, bytes, b, c);
    case OnDiscard(id, gap) => DiscardValid(s, id, gap, b, c);
    case OnSubmit(id, content) => SubmitValid(s, id, content, b, c);
    case OnDefer(id, profile) => DeferValid(s, id, profile, b, c);
    case OnFinish(failed) => FinishValid(s, failed, b, c);
    case _ => ChargesStay(s, e, u);
  }

  function Run(events: seq<Event>, u: Setup): State {
    if events == [] then START else Step(Run(events[..|events| - 1], u), events[|events| - 1], u)
  }

  ghost predicate AllOrderly(events: seq<Event>, u: Setup) {
    events != [] ==>
      AllOrderly(events[..|events| - 1], u) && Orderly(Run(events[..|events| - 1], u), events[|events| - 1])
  }

  lemma {:induction false} EveryRunIsValid(events: seq<Event>, u: Setup)
    requires ValidBounds(u.bounds)
    ensures Valid(Run(events, u), u.bounds, u.config)
  {
    if events == [] {
      StartIsValid(u.bounds, u.config);
    } else {
      EveryRunIsValid(events[..|events| - 1], u);
      StepValid(Run(events[..|events| - 1], u), events[|events| - 1], u);
    }
  }

  lemma {:induction false} OrderlyRunsStayWithin(events: seq<Event>, u: Setup)
    requires ValidBounds(u.bounds) && AllOrderly(events, u)
    ensures Within(Run(events, u).charges, u.bounds)
  {
    if events == [] {
      StartIsValid(u.bounds, u.config);
    } else {
      OrderlyRunsStayWithin(events[..|events| - 1], u);
      EveryRunIsValid(events[..|events| - 1], u);
      StepWithin(Run(events[..|events| - 1], u), events[|events| - 1], u);
    }
  }

  /**
    A reporting barrier that succeeded with target t: every publication numbered at most t committed, and no failure
    and no gap was recorded at or below t. Reader slots are queued reads, the one being served and waiting barriers.
   */
  lemma BarriersTellTheTruth(events: seq<Event>, u: Setup)
    requires ValidBounds(u.bounds)
    ensures var s := Run(events, u);
      && (forall id :: id in s.waiting.verdicts && id < |s.waiting.asked| && s.waiting.asked[id].report && s.waiting.verdicts[id].Flushed? ==>
            && s.waiting.verdicts[id].target == s.waiting.asked[id].target
            && (forall n: nat :: 1 <= n <= s.waiting.asked[id].target ==> n in s.books.committed && n !in s.books.failures))
      && s.waiting.readers == Reads(s.books.queue) + (if s.waiting.reading then 1 else 0) + |s.waiting.barriers|
  {
    EveryRunIsValid(events, u);
    assert LookAtState(Run(events, u));
    assert LookBooks(Run(events, u).books);
  }

  /** The running totals are the sums over the live reservations; orderly captures keep them within their limits. */
  lemma ReservationsAddUp(events: seq<Event>, u: Setup)
    requires ValidBounds(u.bounds)
    ensures var h := Run(events, u).charges;
      && h.pending == Sum(h.held, Sizes()) && h.detail == Sum(h.held, Details()) && h.pending == Essential(u.bounds, h.held) + h.detail
      && (AllOrderly(events, u) ==>
            && h.pending <= u.bounds.pendingBytes && h.detail <= u.bounds.pendingBytes - u.bounds.protectedBytes
            && |h.held.Keys| <= u.bounds.pendingItems)
  {
    EveryRunIsValid(events, u);
    assert LookAtState(Run(events, u));
    assert LookAt(Run(events, u).charges.held);
    if AllOrderly(events, u) {
      OrderlyRunsStayWithin(events, u);
    }
  }

  // ---- callbacks ----------------------------------------------------------------------------------------------

  /**
    Over every run no callback is called twice, each tells whether its publication was committed, and each that is
    owed has been called exactly when its turn came: its batch is settled, or finished and acknowledged so far.
   */
  lemma CallbacksAreCalledOnce(events: seq<Event>, u: Setup)
    requires ValidBounds(u.bounds)
    ensures var k := Run(events, u).books;
      && (forall i, j :: 0 <= i < j < |k.callbacks.calls| ==> k.callbacks.calls[i].number != k.callbacks.calls[j].number)
      && (forall i :: 0 <= i < |k.callbacks.calls| ==>
            k.callbacks.calls[i].number in k.callbacks.owed && (k.callbacks.calls[i].committed <==> k.callbacks.calls[i].number in k.committed))
      && (forall n :: n in k.callbacks.owed ==>
            (Called(k.callbacks.calls, n) <==> Past(k.current, k.callbacks.answered, k.settled, n)))
      && (k.queue == [] && k.current == [] ==> forall n :: n in k.callbacks.owed ==> Called(k.callbacks.calls, n))
  {
    EveryRunIsValid(events, u);
    assert LookAtState(Run(events, u));
    assert LookBooks(Run(events, u).books);
  }

  /** Only an acknowledgement calls, one callback at a time. */
  ghost predicate CallsMore(k: Books, l: Books, e: Event) {
    if e.OnAcknowledge? && k.released && k.callbacks.answered < |k.current| && k.current[k.callbacks.answered].profile then
      && |l.callbacks.calls| == |k.callbacks.calls| + 1 && l.callbacks.calls[..|k.callbacks.calls|] == k.callbacks.calls
      && l.callbacks.calls[|k.callbacks.calls|].number == k.current[k.callbacks.answered].number
    else l.callbacks.calls == k.callbacks.calls
  }

  lemma {:induction false} CoalescedOnly(k: Books, b: Bounds)
    requires k.current != []
    ensures Coalesced(k, b) == k.(current := Coalesced(k, b).current, queue := Coalesced(k, b).queue)
    decreases |k.queue|
  {
    if Joins(k.current, k.queue, b) {
      CoalescedOnly(Absorbed(k), b);
    }
  }

  lemma StepCalls(s: State, e: Event, u: Setup)
    ensures CallsMore(s.books, Step(s, e, u).books, e)
  {
    if e.OnCoalesce? && s.books.current != [] {
      CoalescedOnly(s.books, u.bounds);
    }
  }

  /** Settling never touches the verdict of a barrier that no longer waits. */
  lemma SettleKeepsVerdict(s: State, id: nat)
    requires id in s.waiting.verdicts && !Waits(s.waiting.barriers, id)
    ensures id in Settle(s).waiting.verdicts && Settle(s).waiting.verdicts[id] == s.waiting.verdicts[id]
  {
    JudgedOther(s.waiting.barriers, s.waiting.verdicts, s.books.first, s.books.settled, s.charges.held, id);
  }

  lemma FailKeepsVerdict(s: State, number: nat, gap: bool, missing: set<nat>, id: nat)
    requires id in s.waiting.verdicts && !Waits(s.waiting.barriers, id)
    ensures var t := Fail(s, number, gap, missing);
      id in t.waiting.verdicts && t.waiting.verdicts[id] == s.waiting.verdicts[id]
  {
    var phase := if !s.mode.closing && s.mode.phase != Opening then Degraded else s.mode.phase;
    SettleKeepsVerdict(s.(mode := s.mode.(phase := phase), books := Recorded(s.books, number, gap, missing)), id);
  }

  ghost predicate SameVerdict(w: Waiting, v: Waiting, id: nat) {
    id in w.verdicts && id in v.verdicts && v.verdicts[id] == w.verdicts[id]
  }

  lemma GapKeepsVerdict(s: State, gap: bool, id: nat)
    requires id in s.waiting.verdicts && !Waits(s.waiting.barriers, id)
    ensures SameVerdict(s.waiting, Gap(s, gap).waiting, id)
  {
    var number := s.books.admitted + 1;
    FailKeepsVerdict(s.(books := s.books.(admitted := number)), number, gap, {number}, id);
  }

  lemma PrepareKeepsVerdict(s: State, built: Built, c: Config, id: nat)
    requires id in s.waiting.verdicts && !Waits(s.waiting.barriers, id)
    ensures SameVerdict(s.waiting, Prepare(s, built, c).waiting, id)
  {
    var k := s.books;
    if |k.made| < |k.current| {
      var n := k.current[|k.made|].number;
      FailKeepsVerdict(s, n, true, {n}, id);
      FailKeepsVerdict(s, n, true, {}, id);
    }
  }

  lemma FinishKeepsVerdict(s: State, failed: bool, id: nat)
    requires id in s.waiting.verdicts && !Waits(s.waiting.barriers, id)
    ensures SameVerdict(s.waiting, Finish(s, failed).waiting, id)
  {
    var k := s.books;
    if |k.made| == |k.current| && Survivors(k.made) != [] {
      FailKeepsVerdict(s.(books := Ended(k, failed)), k.current[FirstReady(k)].number, false, Ready(k), id);
    }
  }

  lemma AcknowledgeKeepsVerdict(s: State, raised: bool, id: nat)
    requires id in s.waiting.verdicts && !Waits(s.waiting.barriers, id)
    ensures SameVerdict(s.waiting, Acknowledge(s, raised).waiting, id)
  {
    var k := s.books;
    if k.callbacks.answered < |k.current| {
      FailKeepsVerdict(s.(books := Told(k)), k.current[k.callbacks.answered].number, true, {}, id);
    }
  }

  lemma BarrierKeepsVerdict(s: State, report: bool, b: Bounds, id: nat)
    requires id in s.waiting.verdicts && !Waits(s.waiting.barriers, id) && id < |s.waiting.asked|
    ensures SameVerdict(s.waiting, AskBarrier(s, report, b).state.waiting, id)
  {
    var w := s.waiting;
    var barrier := Barrier(|w.asked|, s.books.admitted, report);
    SettleKeepsVerdict(s.(waiting := w.(readers := w.readers + 1, barriers := w.barriers + [barrier], asked := w.asked + [barrier])), id);
  }

  lemma EndKeepsVerdict(s: State, id: nat)
    requires id in s.waiting.verdicts && !Waits(s.waiting.barriers, id)
    ensures SameVerdict(s.waiting, SettleBatch(s).waiting, id) && SameVerdict(s.waiting, Drain(s).waiting, id)
  {
    var k := s.books;
    if k.current != [] {
      SettleKeepsVerdict(s.(books := BatchSettled(k)), id);
    }
    SettleKeepsVerdict(s.(mode := s.mode.(phase := Closed)), id);
  }

  lemma StepKeepsVerdict(s: State, e: Event, u: Setup, id: nat)
    requires id in s.waiting.verdicts && !Waits(s.waiting.barriers, id) && id < |s.waiting.asked|
    ensures SameVerdict(s.waiting, Step(s, e, u).waiting, id)
  {
    hide Fail, Gap;
    match e
    case OnReserve => FailKeepsVerdict(s, 0, false, {}, id); GapKeepsVerdict(s, true, id);
    case OnDiscard(_, _) => GapKeepsVerdict(s, true, id);
    case OnGap(gap) => GapKeepsVerdict(s, gap, id);
    case OnOpenFailed(_) => FailKeepsVerdict(s, 0, false, {}, id);
    case OnBarrier(report) => BarrierKeepsVerdict(s, report, u.bounds, id);
    case OnPrepare(built) => PrepareKeepsVerdict(s, built, u.config, id);
    case OnFinish(failed) => FinishKeepsVerdict(s, failed, id);
    case OnAcknowledge(raised) => AcknowledgeKeepsVerdict(s, raised, id);
    case OnSettleBatch => EndKeepsVerdict(s, id);
    case OnDrain => EndKeepsVerdict(s, id);
    case _ =>
  }

  /** A barrier is resolved once: its verdict never changes again. */
  lemma VerdictIsFinal(s: State, e: Event, u: Setup, id: nat)
    requires Valid(s, u.bounds, u.config) && id in s.waiting.verdicts
    ensures SameVerdict(s.waiting, Step(s, e, u).waiting, id)
  {
    assert LookAtState(s);
    assert !Waits(s.waiting.barriers, id) && id < |s.waiting.asked| by { assert LookBooks(s.books); }
    StepKeepsVerdict(s, e, u, id);
  }

  ghost predicate WellBatched(k: Books, b: Bounds) {
    Batchable(k.queue, b) && Batched(k.current, b)
  }

  lemma AloneBatched(w: Work, b: Bounds)
    requires w.bytes <= b.batchBytes && w.items <= b.batchItems
    ensures Batched([w], b)
  {
    assert [w][..0] == [];
  }

  lemma OwnerStepWellBatched(s: State, e: Event, u: Setup)
    requires WellBatched(s.books, u.bounds) && ValidBounds(u.bounds) && !ByLane(e)
    ensures WellBatched(Step(s, e, u).books, u.bounds)
  {
    assert Step(s, e, u).books.current == s.books.current;
    if Step(s, e, u).books.queue != s.books.queue {
      assert e.OnSubmit? || e.OnDefer? || e.OnRequest?;
    }
  }

  /** Neither the queue nor the batch changes, except that a settled batch is over. */
  ghost predicate SameBatch(k: Books, l: Books) {
    l.queue == k.queue && (l.current == k.current || l.current == [])
  }

  lemma PrepareSameBatch(s: State, built: Built, c: Config)
    ensures SameBatch(s.books, Prepare(s, built, c).books)
  {
  }

  lemma FinishSameBatch(s: State, failed: bool)
    ensures SameBatch(s.books, Finish(s, failed).books)
  {
  }

  lemma EndSameBatch(s: State, raised: bool)
    ensures SameBatch(s.books, Acknowledge(s, raised).books) && SameBatch(s.books, SettleBatch(s).books)
  {
  }

  lemma LaneStepSameBatch(s: State, e: Event, u: Setup)
    requires ByLane(e) && !e.OnTake? && !e.OnCoalesce?
    ensures SameBatch(s.books, Step(s, e, u).books)
  {
    match e
    case OnPrepare(built) => PrepareSameBatch(s, built, u.config);
    case OnFinish(failed) => FinishSameBatch(s, failed);
    case OnAcknowledge(raised) => EndSameBatch(s, raised);
    case OnSettleBatch => EndSameBatch(s, false);
    case _ =>
  }

  lemma LaneStepWellBatched(s: State, e: Event, u: Setup)
    requires WellBatched(s.books, u.bounds) && ByLane(e)
    ensures WellBatched(Step(s, e, u).books, u.bounds)
  {
    var k, b := s.books, u.bounds;
    if e.OnTake? {
      TakeWellBatched(s, b);
    } else if e.OnCoalesce? {
      if k.current != [] && k.made == [] && !k.released {
        var n := CoalescedRun(k, b);
      }
    } else {
      LaneStepSameBatch(s, e, u);
    }
  }

  lemma TakeWellBatched(s: State, b: Bounds)
    requires WellBatched(s.books, b)
    ensures WellBatched(Take(s).books, b)
  {
    var k := s.books;
    if Idle(s) && k.queue != [] && k.queue[0].Publication? {
      assert k.current + [k.queue[0].work] == [k.queue[0].work];
      AloneBatched(k.queue[0].work, b);
    }
  }

  lemma {:induction false} EveryRunWellBatched(events: seq<Event>, u: Setup)
    requires ValidBounds(u.bounds)
    ensures WellBatched(Run(events, u).books, u.bounds)
  {
    if events != [] {
      EveryRunWellBatched(events[..|events| - 1], u);
      var before, e := Run(events[..|events| - 1], u), events[|events| - 1];
      if ByLane(e) {
        LaneStepWellBatched(before, e, u);
      } else {
        OwnerStepWellBatched(before, e, u);
      }
    }
  }

  /** Whatever was told is told for good. */
  ghost predicate Final(before: map<nat, Verdict>, after: map<nat, Verdict>) {
    forall id :: id in before ==> id in after && after[id] == before[id]
  }

  /** A step keeps everything: the books, the batch limits, the verdicts and, when orderly, the capacity limits. */
  lemma StepKeepsAll(s: State, e: Event, u: Setup)
    requires Valid(s, u.bounds, u.config) && ValidBounds(u.bounds) && WellBatched(s.books, u.bounds)
    ensures var t := Step(s, e, u);
      && Valid(t, u.bounds, u.config) && WellBatched(t.books, u.bounds) && Final(s.waiting.verdicts, t.waiting.verdicts)
      && (Within(s.charges, u.bounds) ==> (Within(t.charges, u.bounds) <==> Orderly(s, e)))
  {
    StepValid(s, e, u);
    if ByLane(e) {
      LaneStepWellBatched(s, e, u);
    } else {
      OwnerStepWellBatched(s, e, u);
    }
    forall id | id in s.waiting.verdicts
      ensures SameVerdict(s.waiting, Step(s, e, u).waiting, id)
    {
      VerdictIsFinal(s, e, u, id);
    }
    if Within(s.charges, u.bounds) {
      StepWithin(s, e, u);
    }
  }

  /** What a region that takes the lane from `s` to `t` keeps; a capture that settles may lose the limits. */
  ghost predicate Keeps(s: State, t: State, u: Setup) {
    && Valid(t, u.bounds, u.config) && WellBatched(t.books, u.bounds) && Final(s.waiting.verdicts, t.waiting.verdicts)
    && (Within(s.charges, u.bounds) ==> Within(t.charges, u.bounds))
  }

  lemma OwnersKeep(s: State, u: Setup)
    requires Valid(s, u.bounds, u.config) && ValidBounds(u.bounds) && WellBatched(s.books, u.bounds)
    ensures Keeps(s, Reserve(s, u.bounds, u.strict, u.notifies).state, u) && Keeps(s, Request(s, u.bounds).state, u) && Keeps(s, Close(s), u)
  {
    hide Valid, WellBatched, Final, Within, Reserve, Request, Close;
    StepKeepsAll(s, OnReserve, u);
    StepKeepsAll(s, OnRequest, u);
    StepKeepsAll(s, OnClose, u);
  }

  lemma LaneKeeps(s: State, u: Setup)
    requires Valid(s, u.bounds, u.config) && ValidBounds(u.bounds) && WellBatched(s.books, u.bounds)
    ensures Keeps(s, Take(s), u) && Keeps(s, FinishRead(s), u) && forall built :: Keeps(s, Prepare(s, built, u.config), u)
  {
    hide Valid, WellBatched, Final, Within, Take, FinishRead, Prepare;
    StepKeepsAll(s, OnTake, u);
    StepKeepsAll(s, OnFinishRead, u);
    forall built
      ensures Keeps(s, Prepare(s, built, u.config), u)
    {
      StepKeepsAll(s, OnPrepare(built), u);
    }
  }

  /** Both ends of the startup keep everything. */
  lemma OpeningKeepsAll(s: State, tolerated: bool, u: Setup)
    requires Valid(s, u.bounds, u.config) && ValidBounds(u.bounds) && WellBatched(s.books, u.bounds)
    ensures var t := Opened(s);
      && Valid(t, u.bounds, u.config) && WellBatched(t.books, u.bounds) && Final(s.waiting.verdicts, t.waiting.verdicts)
      && (Within(s.charges, u.bounds) ==> Within(t.charges, u.bounds))
    ensures var t := OpenFailed(s, tolerated);
      && Valid(t, u.bounds, u.config) && WellBatched(t.books, u.bounds) && Final(s.waiting.verdicts, t.waiting.verdicts)
      && (Within(s.charges, u.bounds) ==> Within(t.charges, u.bounds))
  {
    hide Valid, WellBatched, Final, Within, Opened, OpenFailed;
    StepKeepsAll(s, OnOpened, u);
    StepKeepsAll(s, OnOpenFailed(tolerated), u);
  }

  // ---- what a step means to its caller ------------------------------------------------------------------------

  /** While the protected bytes cover one more essential reservation, the pending bytes have room for it. */
  lemma KeptHeadroom(s: State, t: State, b: Bounds, c: Config)
    requires Valid(t, b, c) && (Within(s.charges, b) ==> Within(t.charges, b))
    ensures Within(s.charges, b) && Essential(b, t.charges.held) + b.essentialBytes <= b.protectedBytes ==>
              t.charges.pending + b.essentialBytes <= b.pendingBytes
  {
    assert LookAtState(t);
    if Within(s.charges, b) && Essential(b, t.charges.held) + b.essentialBytes <= b.protectedBytes {
      ProtectedHeadroom(b, t.charges.held, t.charges.pending, t.charges.detail);
    }
  }

  lemma OwedNumbers(s: State, b: Bounds, c: Config)
    requires Valid(s, b, c)
    ensures forall n: nat :: n in s.books.callbacks.owed || Called(s.books.callbacks.calls, n) ==> n <= s.books.admitted
  {
    assert LookAtState(s);
    assert LookBooks(s.books);
  }

  /** A barrier just asked for waits or is answered, and a success covers everything admitted. */
  lemma BarrierMeans(s: State, report: bool, u: Setup)
    requires Valid(s, u.bounds, u.config)
    ensures var a := AskBarrier(s, report, u.bounds);
      a.result.Success? ==>
        && a.result.value < |a.state.waiting.asked| && a.state.waiting.asked[a.result.value] == Barrier(a.result.value, s.books.admitted, report)
        && (a.result.value in a.state.waiting.verdicts || Waits(a.state.waiting.barriers, a.result.value))
        && (report && a.result.value in a.state.waiting.verdicts && a.state.waiting.verdicts[a.result.value].Flushed? ==>
              forall n: nat :: 1 <= n <= s.books.admitted ==> n in s.books.committed)
  {
    assert LookAtState(s);
    AskBarrierValid(s, report, u.bounds, u.config);
    assert LookAtState(AskBarrier(s, report, u.bounds).state);
    assert LookBooks(AskBarrier(s, report, u.bounds).state.books);
  }

  /** A finished batch accounts for each of its publications. */
  lemma FinishMeans(s: State, failed: bool, u: Setup)
    requires Valid(s, u.bounds, u.config) && ValidBounds(u.bounds) && WellBatched(s.books, u.bounds)
    ensures var t := Finish(s, failed);
      && Valid(t, u.bounds, u.config) && WellBatched(t.books, u.bounds) && Final(s.waiting.verdicts, t.waiting.verdicts)
      && (Within(s.charges, u.bounds) ==> Within(t.charges, u.bounds))
      && (t.books.released ==> CurrentDone(t.books, t.books.lost))
  {
    assert LookAtState(s);
    StepKeepsAll(s, OnFinish(failed), u);
    assert LookAtState(Finish(s, failed));
    assert Finish(s, failed).books.lost + {} == Finish(s, failed).books.lost;
    assert LookBooks(Finish(s, failed).books);
  }

  ghost predicate ReportsBefore(barriers: seq<Barrier>, first: nat) {
    forall b :: b in barriers && b.report ==> b.target < first
  }

  /** After a failure no reporting barrier waits for it or for anything after it. */
  lemma FailMeans(s: State, number: nat, gap: bool, missing: set<nat>)
    ensures var t := Fail(s, number, gap, missing);
      && t.books.first.Some? && t.books.first.value <= number && ReportsBefore(t.waiting.barriers, t.books.first.value)
      && t.books.failures == s.books.failures + {number}
  {
    WaitingUnanswered(s.waiting.barriers, Recorded(s.books, number, gap, missing).first, s.books.settled, s.charges.held);
  }

  /** The callback whose turn it is was not called before and hears whether its publication was committed. */
  lemma CallMeans(s: State, b: Bounds, c: Config)
    requires Valid(s, b, c)
    ensures var k := s.books;
      k.released && k.callbacks.answered < |k.current| ==>
        && (Committing(k) <==> k.current[k.callbacks.answered].number in k.committed)
        && (k.current[k.callbacks.answered].profile ==> !Called(k.callbacks.calls, k.current[k.callbacks.answered].number))
  {
    assert LookAtState(s);
    var k := s.books;
    assert LookBooks(k);
    if k.released && k.callbacks.answered < |k.current| {
      ToldCalling(k);
      OwingNext(k.callbacks, k.current, k.queue, k.settled, k.admitted, true);
    }
  }

  ghost predicate Beyond(barriers: seq<Barrier>, settled: nat) {
    forall b :: b in barriers ==> b.target > settled
  }

  /** Once a batch is settled no callback up to it is outstanding and no barrier waits for it. */
  lemma SettledMeans(s: State, b: Bounds, c: Config)
    requires Valid(s, b, c)
    ensures var t := SettleBatch(s);
      && (forall n :: n in t.books.callbacks.owed && n <= t.books.settled ==> Called(t.books.callbacks.calls, n))
      && (s.books.released && s.books.current != [] && s.books.callbacks.answered == |s.books.current| ==>
            Beyond(t.waiting.barriers, t.books.settled))
  {
    assert LookAtState(s);
    SettleBatchValid(s, b, c);
    var t := SettleBatch(s);
    assert LookAtState(t);
    assert LookBooks(t.books);
    WaitingUnanswered(s.waiting.barriers, s.books.first, t.books.settled, s.charges.held);
  }

  /**
    Over every run: once a batch is prepared, what survived combines into one write within the item limit, and within
    the byte limit if captures were orderly; with at most 1024 items allowed the batch can be constructed.
   */
  lemma BatchesFit(events: seq<Event>, u: Setup)
    requires ValidBounds(u.bounds)
    ensures var k := Run(events, u).books;
      var content := Combined(Survivors(k.made));
      |k.made| == |k.current| && !k.released && Survivors(k.made) != [] ==>
        && Combinable(Survivors(k.made)) && Items(content) <= u.bounds.batchItems
        && (u.bounds.batchItems <= 1024 ==> ValidContent(content))
        && (AllOrderly(events, u) ==> ByteSize(content, u.config) <= u.bounds.batchBytes)
  {
    EveryRunIsValid(events, u);
    EveryRunWellBatched(events, u);
    var s := Run(events, u);
    if |s.books.made| == |s.books.current| && !s.books.released && Survivors(s.books.made) != [] {
      ReadyBatch(s, u);
      if AllOrderly(events, u) {
        OrderlyRunsStayWithin(events, u);
        ChargesPositive(s, u);
        PreparedFits(s.books.current, s.books.made, u.bounds, u.config);
      }
    }
  }

  /** What survived the preparation of a whole batch combines. */
  lemma ReadyBatch(s: State, u: Setup)
    requires Valid(s, u.bounds, u.config) && WellBatched(s.books, u.bounds) && !s.books.released
    requires |s.books.made| == |s.books.current| && Survivors(s.books.made) != []
    ensures var content := Combined(Survivors(s.books.made));
      && Combinable(Survivors(s.books.made)) && Items(content) <= u.bounds.batchItems
      && (u.bounds.batchItems <= 1024 ==> ValidContent(content))
    ensures forall i :: 0 <= i < |s.books.made| && s.books.made[i].Some? ==> Fits(s.books.current[i], s.books.made[i].value, u.config)
  {
    assert LookAtState(s);
    assert LookBooks(s.books);
    PreparedCombines(s.books.current, s.books.made, u.bounds, u.config);
  }

  lemma ChargesPositive(s: State, u: Setup)
    requires Valid(s, u.bounds, u.config) && Within(s.charges, u.bounds) && !s.books.released
    ensures forall i :: 0 <= i < |s.books.current| ==> s.books.current[i].bytes >= 0
  {
    assert LookAtState(s);
    assert LookBooks(s.books);
  }

  const TIGHT := Bounds(8, 100, 10, 20, 32, 100, 16)

  function NegativeAllowance(): State {
    var s := Reserve(Opened(START), TIGHT, true, false).state;
    var t := ReleaseDetail(ReserveDetail(s, 0, 50, TIGHT).state, 0, 50).state;
    SettleCapture(t, 0, 50).state
  }

  function Sole(detail: int): Charges {
    Charges(map[0 := Reservation(10 + detail, detail, false, 0)], 1, 10 + detail, detail)
  }

  lemma FirstReservation(s: State)
    requires s == Opened(START)
    ensures Reserve(s, TIGHT, true, false).state == s.(charges := Sole(0))
  {
    assert s.charges.held.Keys == {};
  }

  lemma SoleDetail(s: State, detail: nat, bytes: nat)
    requires s.charges == Sole(detail)
    ensures detail + bytes <= 80 ==> ReserveDetail(s, 0, bytes, TIGHT).state == s.(charges := Sole(detail + bytes))
    ensures bytes <= detail ==> ReleaseDetail(s, 0, bytes).state == s.(charges := Sole(detail - bytes))
    ensures SettleCapture(s, 0, bytes).state == s.(charges := Sole(detail - bytes))
  {
  }

  lemma NegativeAllowanceIs()
    ensures NegativeAllowance() == Opened(START).(charges := Sole(-50))
  {
    var s := Opened(START);
    FirstReservation(s);
    SoleDetail(s.(charges := Sole(0)), 0, 50);
    SoleDetail(s.(charges := Sole(50)), 50, 50);
    SoleDetail(s.(charges := Sole(0)), 0, 50);
  }

  lemma OverflowFrom(s: State)
    requires s.charges == Sole(-50) && s.mode == Mode(Open, false, false)
    ensures var t := ReserveCache(ReserveCache(s, 100, TIGHT).state, 30, TIGHT).state;
      t.charges.pending == 90 && 0 in t.charges.held && t.charges.held[0] == Reservation(-40, -50, false, 0)
  {
    var t := ReserveCache(s, 100, TIGHT).state;
    assert s.charges.held.Keys == {0};
    assert t.charges == Charges(s.charges.held[1 := Reservation(100, 100, true, 0)], 2, 60, 50);
    assert t.charges.held.Keys == {0, 1};
  }

  /**
    Why a capture must settle before its allowance is released: otherwise the reservation's detail turns negative,
    others take the room, and returning it leaves more bytes pending than the limit.
   */
  lemma ReleasedCaptureOverflows()
    ensures var s := ReserveCache(ReserveCache(NegativeAllowance(), 100, TIGHT).state, 30, TIGHT).state;
      ValidBounds(TIGHT) && Discard(s, 0, false).state.charges.pending == 130 > TIGHT.pendingBytes
  {
    NegativeAllowanceIs();
    OverflowFrom(NegativeAllowance());
  }
}
