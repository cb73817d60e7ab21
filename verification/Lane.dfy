/**
  The state the write lane shares with its owners under one lock: reservations, the queue, the batch being
  written and the flush barriers. Every function is one region under that lock, and keeps `Valid`.
 */
module Lane {
  import opened Wrappers
  import opened Totals
  import opened Tables
  import opened Transaction
  import opened Publications
  import opened Reservations
  import opened Barriers
  import opened Acknowledgements

  // ---- the whole state ------------------------------------------------------------------------------

  datatype Phase = Opening | Open | Degraded | Closing | Closed

  datatype Mode = Mode(phase: Phase, closing: bool, unavailable: bool)

  datatype Charges = Charges(held: map<nat, Reservation>, nextId: nat, pending: int, detail: int)

  /**
    Numbers: `current` is being written, `made` is what preparation made of its first publications, `released` says
    their charge was returned. `committed`, `lost` and `failures` record what became of every number.
   */
  datatype Books = Books(
    admitted: nat, settled: nat, failed: nat, gaps: nat, first: Option<nat>, queue: seq<Job>, current: seq<Work>,
    made: seq<Option<Content>>, released: bool, committed: set<nat>, lost: set<nat>, failures: set<nat>, callbacks: Callbacks)

  datatype Waiting = Waiting(readers: int, reading: bool, barriers: seq<Barrier>, verdicts: map<nat, Verdict>, asked: seq<Barrier>)

  datatype State = State(mode: Mode, charges: Charges, books: Books, waiting: Waiting)

  const START := State(Mode(Opening, false, false), Charges(map[], 0, 0, 0),
                       Books(0, 0, 0, 0, None, [], [], [], false, {}, {}, {}, NO_CALLBACKS), Waiting(0, false, [], map[], []))

  ghost predicate Fits(w: Work, content: Content, c: Config) {
    && ValidContent(content) && Items(content) <= w.items && ByteSize(content, c) <= w.bytes
    && (content.checkpoint.Some? ==> w.imports)
  }

  /** A prepared publication has content within its charge; one that could not be prepared is recorded as lost. */
  ghost predicate Preparing(current: seq<Work>, queue: seq<Job>, made: seq<Option<Content>>, lost: set<nat>, c: Config) {
    && |made| <= |current|
    && (forall i :: 0 <= i < |current| && current[i].content.Some? ==> Fits(current[i], current[i].content.value, c))
    && (forall i :: 0 <= i < |queue| && queue[i].Publication? && queue[i].work.content.Some? ==>
          Fits(queue[i].work, queue[i].work.content.value, c))
    && forall i :: 0 <= i < |made| ==>
         (made[i].None? ==> current[i].number in lost) && (made[i].Some? ==> Fits(current[i], made[i].value, c))
  }

  ghost predicate CurrentDone(k: Books, lost: set<nat>) {
    k.released ==> forall i :: 0 <= i < |k.current| ==> k.current[i].number in k.committed || k.current[i].number in lost
  }

  /** Every callback was called as often as it is its turn, with the truth. */
  ghost predicate Calling(k: Books) {
    && CalledOnce(k.callbacks, k.committed) && Owing(k.callbacks, k.current, k.queue, k.settled, k.admitted)
    && Attached(k.callbacks.owed, k.current, k.queue) && Answering(k.callbacks, k.current, k.made, k.released, k.committed)
  }

  /** Every number but the `missing` ones is accounted for. */
  ghost predicate LineParts(k: Books, missing: set<nat>, c: Config) {
    && Ordered(k.current, k.queue, k.settled, k.admitted)
    && Tracked(k.current, k.queue, k.admitted, k.committed, k.lost + missing)
    && Failing(k.failures, k.first, k.lost) && Confined(k.committed, k.settled, k.current)
    && Preparing(k.current, k.queue, k.made, k.lost, c) && CurrentDone(k, k.lost + missing) && Calling(k)
  }

  ghost predicate LookBooks(k: Books) {
    true
  }

  ghost predicate Line(k: Books, missing: set<nat>, c: Config) {
    forall l {:trigger LookBooks(l)} :: l == k ==> LineParts(l, missing, c)
  }

  /** The batch being written as long as it is charged. */
  function Writing(k: Books): seq<Work> {
    if k.released then [] else k.current
  }

  /** The totals are exact and every publication keeps its reservation until its batch ends. */
  ghost predicate Charging(h: Charges, writing: seq<Work>, queue: seq<Job>, b: Bounds) {
    && Balanced(b, h.held, h.pending, h.detail) && (forall id :: id in h.held ==> id < h.nextId)
    && Charged(writing, queue, h.held)
  }

  /** The totals are within their limits and no reservation is negative. */
  ghost predicate Within(h: Charges, b: Bounds) {
    && WithinCapacity(b, h.held, h.pending, h.detail)
    && forall id :: id in h.held ==> h.held[id].size >= 0 && h.held[id].detail >= 0
  }

  ghost predicate PromisesParts(w: Waiting, k: Books) {
    Accountable(w.barriers, w.verdicts, w.asked, k.admitted) && Honest(w.verdicts, w.asked, k.committed, k.failures, k.settled)
  }

  ghost predicate Promises(w: Waiting, k: Books) {
    forall l {:trigger LookBooks(l)} :: l == k ==> PromisesParts(w, l)
  }

  /** Reader slots are held by queued reads, the read being served, and waiting barriers. */
  ghost predicate Slots(w: Waiting, k: Books) {
    w.readers == Reads(k.queue) + (if w.reading then 1 else 0) + |w.barriers|
  }

  ghost predicate ValidParts(s: State, b: Bounds, c: Config) {
    Charging(s.charges, Writing(s.books), s.books.queue, b) && Line(s.books, {}, c) && Promises(s.waiting, s.books) && Slots(s.waiting, s.books)
  }

  ghost predicate LookAtState(s: State) {
    true
  }

  /** What every step keeps, whoever takes it. */
  ghost predicate Valid(s: State, b: Bounds, c: Config) {
    forall t {:trigger LookAtState(t)} :: t == s ==> ValidParts(t, b, c)
  }

  lemma StartLine(c: Config)
    ensures Line(START.books, {}, c) && Promises(START.waiting, START.books) && Slots(START.waiting, START.books)
  {
    assert LineParts(START.books, {}, c);
    assert PromisesParts(START.waiting, START.books);
  }

  lemma NothingHeld(b: Bounds, held: map<nat, Reservation>)
    requires held == map[]
    ensures Balanced(b, held, 0, 0)
  {
    SumEmpty(held, Sizes());
    SumEmpty(held, Details());
    SumEmpty(held, Essentials(b));
    assert BalancedParts(b, held, 0, 0);
  }

  lemma StartCharging(h: Charges, b: Bounds)
    requires ValidBounds(b) && h.held == map[] && h.pending == h.detail == 0
    ensures Charging(h, [], [], b) && Within(h, b)
  {
    NothingHeld(b, h.held);
  }

  lemma StartIsValid(b: Bounds, c: Config)
    requires ValidBounds(b)
    ensures Valid(START, b, c) && Within(START.charges, b)
  {
    StartCharging(START.charges, b);
    StartLine(c);
    assert ValidParts(START, b, c);
  }

  /** Identities are used in order, and reader slots are accounted for. */
  lemma ValidFacts(s: State, b: Bounds, c: Config)
    requires Valid(s, b, c)
    ensures (forall id :: id in s.charges.held ==> id < s.charges.nextId) && Slots(s.waiting, s.books)
  {
    assert LookAtState(s);
  }

  // ---- failures --------------------------------------------------------------------------------------

  /** `_settle_barriers`. */
  function Settle(s: State): State {
    var w := s.waiting;
    var rest := StillWaiting(w.barriers, s.books.first, s.books.settled, s.charges.held);
    s.(waiting := w.(barriers := rest, readers := w.readers - |w.barriers| + |rest|,
                     verdicts := Judged(w.barriers, w.verdicts, s.books.first, s.books.settled, s.charges.held)))
  }

  function Earliest(first: Option<nat>, number: nat): nat {
    if first.Some? && first.value < number then first.value else number
  }

  function Recorded(k: Books, number: nat, gap: bool, missing: set<nat>): Books {
    k.(first := Some(Earliest(k.first, number)), failed := k.failed + 1, gaps := k.gaps + (if gap then 1 else 0),
       failures := k.failures + {number}, lost := k.lost + missing)
  }

  /** `_failure`: record the number, degrade an open lane, and let barriers learn of it. `missing` is lost by it. */
  function Fail(s: State, number: nat, gap: bool, missing: set<nat>): State {
    var phase := if !s.mode.closing && s.mode.phase != Opening then Degraded else s.mode.phase;
    Settle(s.(mode := s.mode.(phase := phase), books := Recorded(s.books, number, gap, missing)))
  }

  /** A lost capture, drain or maintenance takes a number of its own and fails at once. */
  function Gap(s: State, gap: bool): State {
    var number := s.books.admitted + 1;
    Fail(s.(books := s.books.(admitted := number)), number, gap, {number})
  }

  lemma SettlePromises(s: State, c: Config)
    requires Line(s.books, {}, c) && Promises(s.waiting, s.books)
    ensures Promises(Settle(s).waiting, s.books)
  {
    var k, w := s.books, s.waiting;
    assert LookBooks(k);
    SettledAccountable(w.barriers, w.verdicts, w.asked, k.admitted, k.first, k.settled, s.charges.held);
    SettledHonest(w.barriers, w.verdicts, w.asked, s.charges.held, k.first, k.settled, k.current, k.queue, k.admitted,
                  k.committed, k.lost, k.failures);
  }

  lemma SettleValid(s: State, b: Bounds, c: Config)
    requires Charging(s.charges, Writing(s.books), s.books.queue, b) && Line(s.books, {}, c) && Promises(s.waiting, s.books) && Slots(s.waiting, s.books)
    ensures Valid(Settle(s), b, c)
  {
    SettlePromises(s, c);
    assert ValidParts(Settle(s), b, c);
  }

  lemma RecordedLine(k: Books, number: nat, gap: bool, missing: set<nat>, c: Config)
    requires Line(k, missing, c) && forall m :: m in missing ==> number <= m <= k.admitted
    ensures Line(Recorded(k, number, gap, missing), {}, c)
  {
    assert LookBooks(k);
    var l := Recorded(k, number, gap, missing);
    assert l.lost + {} == k.lost + missing;
    assert LineParts(l, {}, c);
  }

  lemma RecordedPromises(w: Waiting, k: Books, number: nat, gap: bool, missing: set<nat>)
    requires Promises(w, k) && (number == 0 || number > k.settled)
    ensures Promises(w, Recorded(k, number, gap, missing))
  {
    assert LookBooks(k);
    assert PromisesParts(w, Recorded(k, number, gap, missing));
  }

  /** A failure at a number no reporting barrier was released beyond keeps everything. */
  lemma FailValid(s: State, number: nat, gap: bool, missing: set<nat>, b: Bounds, c: Config)
    requires Charging(s.charges, Writing(s.books), s.books.queue, b) && Line(s.books, missing, c) && Promises(s.waiting, s.books) && Slots(s.waiting, s.books)
    requires number == 0 || number > s.books.settled
    requires forall m :: m in missing ==> number <= m <= s.books.admitted
    ensures Valid(Fail(s, number, gap, missing), b, c)
  {
    RecordedLine(s.books, number, gap, missing, c);
    RecordedPromises(s.waiting, s.books, number, gap, missing);
    var t := s.(mode := Fail(s, number, gap, missing).mode, books := Recorded(s.books, number, gap, missing));
    SettleValid(t, b, c);
  }

  lemma NextNumber(w: Waiting, k: Books, c: Config)
    requires Line(k, {}, c) && Promises(w, k)
    ensures var l := k.(admitted := k.admitted + 1);
      Line(l, {l.admitted}, c) && Promises(w, l) && k.admitted >= k.settled
  {
    assert LookBooks(k);
    var l := k.(admitted := k.admitted + 1);
    assert k.lost + {} == k.lost;
    assert LineParts(l, {l.admitted}, c);
    assert PromisesParts(w, l);
  }

  lemma GapValid(s: State, gap: bool, b: Bounds, c: Config)
    requires Valid(s, b, c)
    ensures Valid(Gap(s, gap), b, c)
  {
    assert LookAtState(s);
    NextNumber(s.waiting, s.books, c);
    var number := s.books.admitted + 1;
    FailValid(s.(books := s.books.(admitted := number)), number, gap, {number}, b, c);
  }

  // ---- reservations -----------------------------------------------------------------------------------

  datatype Answer<T> = Answer(state: State, result: Result<T>)

  function Held(h: Charges, id: nat, r: Reservation): Charges {
    var prior := if id in h.held then h.held[id] else Reservation(0, 0, true, 0);
    Charges(h.held[id := r], if id < h.nextId then h.nextId else id + 1, h.pending + r.size - prior.size, h.detail + r.detail - prior.detail)
  }

  function Freed(h: Charges, id: nat): Charges
    requires id in h.held
  {
    h.(held := h.held - {id}, pending := h.pending - h.held[id].size, detail := h.detail - h.held[id].detail)
  }

  predicate Refused(s: State, b: Bounds, strict: bool) {
    || s.mode.unavailable || |s.charges.held.Keys| >= b.pendingItems
    || s.charges.pending + b.essentialBytes > b.pendingBytes || (strict && s.books.first.Some?)
  }

  /** `_reserve`: a strict lane raises, any other records a gap and hands out nothing. */
  function Reserve(s: State, b: Bounds, strict: bool, notifies: bool): Answer<Option<nat>> {
    if s.mode.closing || s.mode.phase == Opening then Answer(s, Failure(Contract))
    else if Refused(s, b, strict) then
      if strict then Answer(if notifies then Fail(s, 0, false, {}) else s, Failure(Backpressure))
      else Answer(Gap(s, true), Success(None))
    else
      var id := s.charges.nextId;
      Answer(s.(charges := Held(s.charges, id, Reservation(b.essentialBytes, 0, false, 0))), Success(Some(id)))
  }

  function ReserveDetail(s: State, id: nat, bytes: nat, b: Bounds): Answer<()> {
    var h := s.charges;
    if id !in h.held || h.held[id].number != 0 then Answer(s, Failure(Contract))
    else if h.detail + bytes > b.pendingBytes - b.protectedBytes || h.pending + bytes > b.pendingBytes then Answer(s, Failure(Backpressure))
    else Answer(s.(charges := Held(h, id, Resized(h.held[id], bytes))), Success(()))
  }

  function Resized(r: Reservation, bytes: int): Reservation {
    r.(size := r.size + bytes, detail := r.detail + bytes)
  }

  /** The end of `_capture_value`: the allowance a snapshot did not use is returned, published or not. */
  function SettleCapture(s: State, id: nat, excess: nat): Answer<()> {
    if id !in s.charges.held then Answer(s, Failure(Contract))
    else Answer(s.(charges := Held(s.charges, id, Resized(s.charges.held[id], -(excess as int)))), Success(()))
  }

  function ReleaseDetail(s: State, id: nat, bytes: nat): Answer<()> {
    var h := s.charges;
    if id !in h.held || h.held[id].number != 0 || bytes > h.held[id].detail then Answer(s, Failure(Contract))
    else Answer(s.(charges := Held(h, id, Resized(h.held[id], -(bytes as int)))), Success(()))
  }

  function ReserveCache(s: State, bytes: nat, b: Bounds): Answer<Option<nat>> {
    var h := s.charges;
    if s.mode.closing || s.mode.phase != Open || |h.held.Keys| >= b.pendingItems || h.pending + bytes > b.pendingBytes
       || h.detail + bytes > b.pendingBytes - b.protectedBytes
    then Answer(s, Success(None))
    else Answer(s.(charges := Held(h, h.nextId, Reservation(bytes, bytes, true, 0))), Success(Some(h.nextId)))
  }

  /** Discarding twice is harmless; a handed-off reservation is the lane's. */
  function Discard(s: State, id: nat, gap: bool): Answer<()> {
    if id !in s.charges.held then Answer(s, Success(()))
    else if s.charges.held[id].number != 0 then Answer(s, Failure(Contract))
    else
      var t := if gap then Gap(s, true) else s;
      Answer(t.(charges := Freed(s.charges, id)), Success(()))
  }

  lemma HeldCharging(h: Charges, writing: seq<Work>, queue: seq<Job>, b: Bounds, id: nat, r: Reservation)
    requires Charging(h, writing, queue, b) && r.size == r.detail + Essentials(b)(r)
    requires id in h.held ==> h.held[id].cache == r.cache && h.held[id].number == r.number
                              && (r.number == 0 || r.size <= h.held[id].size)
    ensures Charging(Held(h, id, r), writing, queue, b)
  {
    BalancedPut(b, h.held, h.pending, h.detail, id, r);
  }

  lemma FreedCharging(h: Charges, writing: seq<Work>, queue: seq<Job>, b: Bounds, id: nat)
    requires Charging(h, writing, queue, b) && id in h.held && h.held[id].number == 0
    ensures Charging(Freed(h, id), writing, queue, b)
  {
    BalancedRemove(b, h.held, h.pending, h.detail, id);
    RowsRemove(h.held, id);
  }

  lemma ChargesValid(s: State, h: Charges, b: Bounds, c: Config)
    requires Valid(s, b, c) && Charging(h, Writing(s.books), s.books.queue, b)
    ensures Valid(s.(charges := h), b, c)
  {
    assert LookAtState(s);
    assert ValidParts(s.(charges := h), b, c);
  }

  lemma ReserveValid(s: State, b: Bounds, c: Config, strict: bool, notifies: bool)
    requires Valid(s, b, c) && ValidBounds(b)
    ensures Valid(Reserve(s, b, strict, notifies).state, b, c)
    ensures Within(s.charges, b) ==> Within(Reserve(s, b, strict, notifies).state.charges, b)
  {
    assert LookAtState(s);
    if !s.mode.closing && s.mode.phase != Opening {
      if !Refused(s, b, strict) {
        var h, r := s.charges, Reservation(b.essentialBytes, 0, false, 0);
        assert Held(h, h.nextId, r).held.Keys == h.held.Keys + {h.nextId};
        HeldCharging(h, Writing(s.books), s.books.queue, b, h.nextId, r);
        ChargesValid(s, Held(h, h.nextId, r), b, c);
      } else if !strict {
        GapValid(s, true, b, c);
      } else if notifies {
        NoneMissing(s.books, c);
        FailValid(s, 0, false, {}, b, c);
      }
    }
  }

  lemma NoneMissing(k: Books, c: Config)
    requires Line(k, {}, c)
    ensures k.settled <= k.admitted
  {
    assert LookBooks(k);
  }

  /**
    An open lane refuses an essential reservation only for its item count, a failed startup, or an earlier failure of
    a strict lane, as long as the essential reservations fit the protected bytes; never for the bytes others took.
   */
  lemma EssentialsNeverCrowdedOut(s: State, b: Bounds, c: Config, strict: bool, notifies: bool)
    requires Valid(s, b, c) && Within(s.charges, b) && !s.mode.closing && s.mode.phase != Opening
    requires Essential(b, s.charges.held) + b.essentialBytes <= b.protectedBytes
    ensures var r := Reserve(s, b, strict, notifies).result;
      (r.Success? && r.value.Some?)
      <==> !(s.mode.unavailable || |s.charges.held.Keys| >= b.pendingItems || (strict && s.books.first.Some?))
  {
    assert LookAtState(s);
    ProtectedHeadroom(b, s.charges.held, s.charges.pending, s.charges.detail);
  }

  lemma ReserveDetailValid(s: State, id: nat, bytes: nat, b: Bounds, c: Config)
    requires Valid(s, b, c)
    ensures Valid(ReserveDetail(s, id, bytes, b).state, b, c)
    ensures Within(s.charges, b) ==> Within(ReserveDetail(s, id, bytes, b).state.charges, b)
  {
    if ReserveDetail(s, id, bytes, b).result.Success? {
      ResizedValid(s, id, bytes, b, c);
    }
  }

  lemma ResizedValid(s: State, id: nat, bytes: int, b: Bounds, c: Config)
    requires Valid(s, b, c) && id in s.charges.held
    requires bytes <= 0 || s.charges.held[id].number == 0
    ensures Valid(s.(charges := Held(s.charges, id, Resized(s.charges.held[id], bytes))), b, c)
    ensures Held(s.charges, id, Resized(s.charges.held[id], bytes)).held.Keys == s.charges.held.Keys
  {
    assert LookAtState(s);
    var h := s.charges;
    var r := Resized(h.held[id], bytes);
    assert r.size == r.detail + Essentials(b)(r) by { assert LookAt(h.held); }
    assert Held(h, id, r).held.Keys == h.held.Keys;
    HeldCharging(h, Writing(s.books), s.books.queue, b, id, r);
    ChargesValid(s, Held(h, id, r), b, c);
  }

  lemma SettleCaptureValid(s: State, id: nat, excess: nat, b: Bounds, c: Config)
    requires Valid(s, b, c)
    ensures Valid(SettleCapture(s, id, excess).state, b, c)
  {
    if id in s.charges.held {
      ResizedValid(s, id, -(excess as int), b, c);
    }
  }

  /** Settling a capture keeps the limits exactly when its allowance was not released meanwhile. */
  lemma SettleCaptureWithin(s: State, id: nat, excess: nat, b: Bounds, c: Config)
    requires Valid(s, b, c) && Within(s.charges, b)
    ensures Within(SettleCapture(s, id, excess).state.charges, b)
       <==> (id in s.charges.held ==> excess <= s.charges.held[id].detail)
  {
    if id in s.charges.held {
      ResizedValid(s, id, -(excess as int), b, c);
      EssentialPart(s, id, b, c);
      assert id in SettleCapture(s, id, excess).state.charges.held;
    }
  }

  lemma EssentialPart(s: State, id: nat, b: Bounds, c: Config)
    requires Valid(s, b, c) && id in s.charges.held
    ensures s.charges.held[id].detail <= s.charges.held[id].size
  {
    assert LookAtState(s);
    assert LookAt(s.charges.held);
  }

  lemma ReleaseDetailValid(s: State, id: nat, bytes: nat, b: Bounds, c: Config)
    requires Valid(s, b, c)
    ensures Valid(ReleaseDetail(s, id, bytes).state, b, c)
    ensures Within(s.charges, b) ==> Within(ReleaseDetail(s, id, bytes).state.charges, b)
  {
    if ReleaseDetail(s, id, bytes).result.Success? {
      ResizedValid(s, id, -(bytes as int), b, c);
      EssentialPart(s, id, b, c);
    }
  }

  lemma ReserveCacheValid(s: State, bytes: nat, b: Bounds, c: Config)
    requires Valid(s, b, c)
    ensures Valid(ReserveCache(s, bytes, b).state, b, c)
    ensures Within(s.charges, b) ==> Within(ReserveCache(s, bytes, b).state.charges, b)
  {
    assert LookAtState(s);
    var h, r := s.charges, Reservation(bytes, bytes, true, 0);
    if ReserveCache(s, bytes, b).state != s {
      assert Held(h, h.nextId, r).held.Keys == h.held.Keys + {h.nextId};
      HeldCharging(h, Writing(s.books), s.books.queue, b, h.nextId, r);
      ChargesValid(s, Held(h, h.nextId, r), b, c);
    }
  }

  lemma FreedWithin(h: Charges, id: nat, b: Bounds)
    requires Within(h, b) && id in h.held
    ensures Within(Freed(h, id), b)
  {
    RowsRemove(h.held, id);
  }

  lemma DiscardValid(s: State, id: nat, gap: bool, b: Bounds, c: Config)
    requires Valid(s, b, c)
    ensures Valid(Discard(s, id, gap).state, b, c)
    ensures Within(s.charges, b) ==> Within(Discard(s, id, gap).state.charges, b)
  {
    assert LookAtState(s);
    if id in s.charges.held && s.charges.held[id].number == 0 {
      var t := if gap then Gap(s, true) else s;
      if gap {
        GapValid(s, true, b, c);
      }
      FreedCharging(s.charges, Writing(s.books), s.books.queue, b, id);
      ChargesValid(t, Freed(s.charges, id), b, c);
      if Within(s.charges, b) {
        FreedWithin(s.charges, id, b);
      }
    }
  }

  // ---- handing publications to the lane ------------------------------------------------------------------

  /** The next number goes with the reservation into the queue. */
  function Queued(s: State, id: nat, bytes: int, items: nat, imports: bool, profile: bool, content: Option<Content>): State
    requires id in s.charges.held
  {
    var number := s.books.admitted + 1;
    s.(charges := s.charges.(held := s.charges.held[id := s.charges.held[id].(number := number)]),
       books := Enqueued(s.books, Work(id, number, bytes, items, imports, profile, content)))
  }

  /** A profile comes with its owner's callback. */
  function Enqueued(k: Books, w: Work): Books {
    k.(admitted := w.number, queue := k.queue + [Publication(w)],
       callbacks := if w.profile then k.callbacks.(owed := k.callbacks.owed + {w.number}) else k.callbacks)
  }

  /** `_publish`: content is sized before the lock and must fit both a batch and its own reservation. */
  function Submit(s: State, id: nat, content: Content, b: Bounds, c: Config): Answer<nat> {
    var size := ByteSize(content, c);
    if !ValidContent(content) then Answer(s, Failure(Contract))
    else if Items(content) > b.batchItems || size > b.batchBytes then Answer(s, Failure(Backpressure))
    else if id !in s.charges.held || s.charges.held[id].number != 0 then Answer(s, Failure(Contract))
    else if s.mode.unavailable then Answer(s, Failure(Unavailable))
    else if size > s.charges.held[id].size then Answer(s, Failure(Backpressure))
    else Answer(Queued(s, id, size, Items(content), content.checkpoint.Some?, false, Some(content)), Success(s.books.admitted + 1))
  }

  /** `_defer_context` and `_defer_profile`: the whole reservation is the charge, the lane prepares the content later. */
  function Defer(s: State, id: nat, profile: bool, b: Bounds): Answer<nat> {
    if id !in s.charges.held || s.charges.held[id].number != 0 then Answer(s, Failure(Contract))
    else if s.mode.unavailable || (profile && s.mode.closing) then Answer(s, Failure(Unavailable))
    else if s.charges.held[id].size > b.batchBytes then Answer(s, Failure(Backpressure))
    else Answer(Queued(s, id, s.charges.held[id].size, 1, false, profile, None), Success(s.books.admitted + 1))
  }

  function Request(s: State, b: Bounds): Answer<()> {
    if s.mode.phase == Opening || s.mode.closing then Answer(s, Failure(Contract))
    else if s.mode.unavailable then Answer(s, Failure(Unavailable))
    else if s.waiting.readers >= b.readerRequests then Answer(s, Failure(Backpressure))
    else Answer(s.(waiting := s.waiting.(readers := s.waiting.readers + 1), books := s.books.(queue := s.books.queue + [Read])), Success(()))
  }

  function AskBarrier(s: State, report: bool, b: Bounds): Answer<nat> {
    if s.mode.phase == Opening then Answer(s, Failure(Contract))
    else if s.waiting.readers >= b.readerRequests then Answer(s, Failure(Backpressure))
    else
      var w := s.waiting;
      var barrier := Barrier(|w.asked|, s.books.admitted, report);
      Answer(Settle(s.(waiting := w.(readers := w.readers + 1, barriers := w.barriers + [barrier], asked := w.asked + [barrier]))),
             Success(|w.asked|))
  }

  lemma QueuedLine(k: Books, w: Work, c: Config)
    requires Line(k, {}, c) && w.number == k.admitted + 1
    requires w.content.Some? ==> Fits(w, w.content.value, c)
    ensures Line(Enqueued(k, w), {}, c)
  {
    hide Owing, Attached;
    assert LookBooks(k);
    var l := Enqueued(k, w);
    OwingMore(k.callbacks, k.current, k.queue, k.settled, k.admitted, w);
    forall n: nat | 1 <= n <= l.admitted
      ensures InWorks(l.current, n) || InQueue(l.queue, n) || n in l.committed || n in l.lost + {}
    {
      if n == w.number {
        assert l.queue[|k.queue|] == Publication(w);
      } else if InQueue(k.queue, n) {
        var i :| 0 <= i < |k.queue| && k.queue[i].Publication? && k.queue[i].work.number == n;
        assert l.queue[i] == k.queue[i];
      }
    }
    assert Ordered(l.current, l.queue, l.settled, l.admitted);
    assert LineParts(l, {}, c);
  }

  lemma PromisesMore(w: Waiting, v: Waiting, k: Books, l: Books)
    requires v == w.(readers := v.readers, reading := v.reading)
    requires Promises(w, k) && k.admitted <= l.admitted && k.settled <= l.settled
    requires k.committed <= l.committed && l.failures == k.failures
    ensures Promises(v, l)
  {
    assert LookBooks(k);
    assert PromisesParts(v, l);
  }

  lemma QueuedCharging(h: Charges, writing: seq<Work>, queue: seq<Job>, b: Bounds, w: Work)
    requires Charging(h, writing, queue, b) && w.id in h.held && h.held[w.id].number == 0
    requires WorkCharged(w, h.held[w.id].(number := w.number))
    ensures Charging(h.(held := h.held[w.id := h.held[w.id].(number := w.number)]), writing, queue + [Publication(w)], b)
    ensures Within(h, b) ==> Within(h.(held := h.held[w.id := h.held[w.id].(number := w.number)]), b)
  {
    var r := h.held[w.id].(number := w.number);
    assert r.size == r.detail + Essentials(b)(r) by { assert LookAt(h.held); }
    BalancedPut(b, h.held, h.pending, h.detail, w.id, r);
    assert h.held[w.id := r].Keys == h.held.Keys;
  }

  lemma QueuedValid(s: State, id: nat, bytes: int, items: nat, imports: bool, profile: bool, content: Option<Content>,
                    b: Bounds, c: Config)
    requires Valid(s, b, c) && id in s.charges.held && s.charges.held[id].number == 0
    requires content.None? ==> s.charges.held[id].size <= bytes && items == 1 && !imports
    requires content.Some? ==> ValidContent(content.value) && Items(content.value) <= items && ByteSize(content.value, c) <= bytes && (content.value.checkpoint.Some? ==> imports)
    ensures Valid(Queued(s, id, bytes, items, imports, profile, content), b, c)
    ensures Within(s.charges, b) ==> Within(Queued(s, id, bytes, items, imports, profile, content).charges, b)
  {
    assert LookAtState(s);
    var t := Queued(s, id, bytes, items, imports, profile, content);
    var w := Work(id, s.books.admitted + 1, bytes, items, imports, profile, content);
    QueuedLine(s.books, w, c);
    PromisesMore(s.waiting, t.waiting, s.books, t.books);
    QueuedCharging(s.charges, Writing(s.books), s.books.queue, b, w);
    assert t.books.queue[..|s.books.queue|] == s.books.queue;
    assert ValidParts(Queued(s, id, bytes, items, imports, profile, content), b, c);
  }

  lemma SubmitValid(s: State, id: nat, content: Content, b: Bounds, c: Config)
    requires Valid(s, b, c)
    ensures Valid(Submit(s, id, content, b, c).state, b, c)
    ensures Within(s.charges, b) ==> Within(Submit(s, id, content, b, c).state.charges, b)
  {
    if Submit(s, id, content, b, c).result.Success? {
      QueuedValid(s, id, ByteSize(content, c), Items(content), content.checkpoint.Some?, false, Some(content), b, c);
    }
  }

  lemma DeferValid(s: State, id: nat, profile: bool, b: Bounds, c: Config)
    requires Valid(s, b, c)
    ensures Valid(Defer(s, id, profile, b).state, b, c)
    ensures Within(s.charges, b) ==> Within(Defer(s, id, profile, b).state.charges, b)
  {
    if Defer(s, id, profile, b).result.Success? {
      QueuedValid(s, id, s.charges.held[id].size, 1, false, profile, None, b, c);
    }
  }

  lemma ReadLine(k: Books, c: Config)
    requires Line(k, {}, c)
    ensures Line(k.(queue := k.queue + [Read]), {}, c)
  {
    assert LookBooks(k);
    OwingRead(k.callbacks, k.current, k.queue, k.settled, k.admitted);
    var l := k.(queue := k.queue + [Read]);
    forall n | InQueue(k.queue, n)
      ensures InQueue(l.queue, n)
    {
      var i :| 0 <= i < |k.queue| && k.queue[i].Publication? && k.queue[i].work.number == n;
      assert l.queue[i] == k.queue[i];
    }
    assert LineParts(l, {}, c);
  }

  lemma ReadCharging(h: Charges, writing: seq<Work>, queue: seq<Job>, b: Bounds)
    requires Charging(h, writing, queue, b)
    ensures Charging(h, writing, queue + [Read], b)
  {
  }

  lemma RequestValid(s: State, b: Bounds, c: Config)
    requires Valid(s, b, c)
    ensures Valid(Request(s, b).state, b, c)
  {
    assert LookAtState(s);
    var t := Request(s, b).state;
    if Request(s, b).result.Success? {
      ReadLine(s.books, c);
      PromisesMore(s.waiting, t.waiting, s.books, t.books);
      assert t.books.queue[..|s.books.queue|] == s.books.queue;
      ReadCharging(s.charges, Writing(s.books), s.books.queue, b);
    }
    assert ValidParts(Request(s, b).state, b, c);
  }

  lemma AskedPromises(w: Waiting, k: Books, barrier: Barrier)
    requires Promises(w, k) && barrier.id == |w.asked| && barrier.target == k.admitted
    ensures Promises(w.(readers := w.readers + 1, barriers := w.barriers + [barrier], asked := w.asked + [barrier]), k)
  {
    assert LookBooks(k);
    var v := w.(readers := w.readers + 1, barriers := w.barriers + [barrier], asked := w.asked + [barrier]);
    forall id: nat | id < |v.asked|
      ensures v.asked[id].id == id && v.asked[id].target <= k.admitted && (id in v.verdicts || Waits(v.barriers, id))
    {
      if id == |w.asked| {
        assert v.barriers[|w.barriers|].id == id;
      } else if Waits(w.barriers, id) {
        var i :| 0 <= i < |w.barriers| && w.barriers[i].id == id;
        assert v.barriers[i].id == id;
      }
    }
    assert PromisesParts(v, k);
  }

  lemma AskBarrierValid(s: State, report: bool, b: Bounds, c: Config)
    requires Valid(s, b, c)
    ensures Valid(AskBarrier(s, report, b).state, b, c)
  {
    assert LookAtState(s);
    if AskBarrier(s, report, b).result.Success? {
      var w := s.waiting;
      var barrier := Barrier(|w.asked|, s.books.admitted, report);
      AskedPromises(w, s.books, barrier);
      SettleValid(s.(waiting := w.(readers := w.readers + 1, barriers := w.barriers + [barrier], asked := w.asked + [barrier])), b, c);
    }
  }

  // ---- the lane's own steps ---------------------------------------------------------------------------

  predicate Idle(s: State) {
    s.books.current == [] && !s.waiting.reading
  }

  /** Pop the head of the queue: a read to serve, or the first publication of a batch. */
  function Take(s: State): State {
    var k := s.books;
    if !Idle(s) || k.queue == [] then s
    else if k.queue[0].Read? then
      s.(books := k.(queue := k.queue[1..]), waiting := s.waiting.(reading := true))
    else s.(books := Absorbed(k.(made := [], released := false)))
  }

  /** The head publication joins the batch. */
  function Absorbed(k: Books): Books
    requires k.queue != [] && k.queue[0].Publication?
  {
    k.(current := k.current + [k.queue[0].work], queue := k.queue[1..])
  }

  function BytesOf(works: seq<Work>): int {
    if works == [] then 0 else BytesOf(works[..|works| - 1]) + works[|works| - 1].bytes
  }

  function ItemsOf(works: seq<Work>): nat {
    if works == [] then 0 else ItemsOf(works[..|works| - 1]) + works[|works| - 1].items
  }

  /** The next publication is ready, adjacent, carries no import and still fits. */
  predicate Joins(current: seq<Work>, queue: seq<Job>, b: Bounds)
    requires current != []
  {
    && !current[0].imports && queue != [] && queue[0].Publication? && !queue[0].work.imports
    && BytesOf(current) + queue[0].work.bytes <= b.batchBytes && ItemsOf(current) + queue[0].work.items <= b.batchItems
  }

  function Coalesced(k: Books, b: Bounds): Books
    requires k.current != []
    decreases |k.queue|
  {
    if Joins(k.current, k.queue, b) then Coalesced(Absorbed(k), b) else k
  }

  function Coalesce(s: State, b: Bounds): State {
    if s.books.current == [] || s.books.made != [] || s.books.released then s
    else s.(books := Coalesced(s.books, b))
  }

  function FinishRead(s: State): State {
    if !s.waiting.reading then s
    else s.(waiting := s.waiting.(reading := false, readers := s.waiting.readers - 1))
  }

  /** What the owner's builder did when the lane called it. */
  datatype Built = Raised | Built(content: Content, gap: bool)

  /** One context within its bounds, or one profile, no larger than what was reserved for it. */
  predicate Proper(w: Work, content: Content, size: int, c: Config) {
    && content.sessions == [] && content.checkpoint.None? && Items(content) == 1 && ByteSize(content, c) <= size
    && (if w.profile then |content.profiles| == 1
        else
          && |content.contexts| == 1 && content.contexts[0].body.size <= c.limits.maxContextBytes
          && (content.contexts[0].layout.Some? ==> content.contexts[0].layout.value.content.body.size <= c.limits.layoutBytes))
  }

  /** A builder's content for one context, or for one profile if that was handed over, that fits the reserved bytes and the limits. */
  predicate Builds(w: Work, content: Content, size: int, c: Config) {
    && content.sessions == [] && content.checkpoint.None?
    && |content.contexts| == (if w.profile then 0 else 1) && |content.profiles| == (if w.profile then 1 else 0)
    && ByteSize(content, c) <= size
    && forall e :: e in content.contexts ==>
         && e.body.size <= c.limits.maxContextBytes
         && (e.layout.Some? ==> e.layout.value.content.body.size <= c.limits.layoutBytes)
  }

  /**
    The next publication of the batch is prepared exactly if it came with content or its builder's content is accepted, and
    with that; otherwise it alone is lost. A failure is recorded for what is lost, and for a context that reports a gap.
   */
  ghost predicate PreparesNext(s: State, t: State, built: Built, c: Config)
    requires |s.books.made| < |s.books.current|
  {
    var k, l := s.books, t.books;
    var w := k.current[|k.made|];
    var fits := w.id in s.charges.held && built.Built? && Builds(w, built.content, s.charges.held[w.id].size, c);
    && l.made == k.made + [if w.content.Some? then w.content else if fits then Some(built.content) else None]
    && l.lost == k.lost + (if w.content.Some? || fits then {} else {w.number})
    && l.failures == k.failures + (if w.content.None? && (!fits || (built.gap && !w.profile)) then {w.number} else {})
    && l.current == k.current && l.queue == k.queue && l.committed == k.committed && t.charges == s.charges
  }

  lemma PrepareMeans(s: State, built: Built, c: Config)
    ensures if s.books.released || |s.books.made| >= |s.books.current| then Prepare(s, built, c) == s
            else PreparesNext(s, Prepare(s, built, c), built, c)
  {
    hide StillWaiting, Judged, ByteSize, Proper, Builds;
    if !s.books.released && |s.books.made| < |s.books.current| {
      var w := s.books.current[|s.books.made|];
      if w.id in s.charges.held && built.Built? {
        ProperMeans(w, built.content, s.charges.held[w.id].size, c);
      }
    }
  }

  lemma ProperMeans(w: Work, content: Content, size: int, c: Config)
    ensures Proper(w, content, size, c) <==> Builds(w, content, size, c)
  {
    hide ByteSize;
    if |content.contexts| == 1 {
      assert content.contexts[0] in content.contexts;
    }
  }

  function WithMade(s: State, made: Option<Content>): State {
    s.(books := s.books.(made := s.books.made + [made]))
  }

  /** Prepare the next publication; a failure loses that one and no other. */
  function Prepare(s: State, built: Built, c: Config): State {
    var k := s.books;
    if k.released || |k.made| >= |k.current| then s
    else
      var w := k.current[|k.made|];
      if w.content.Some? then WithMade(s, w.content)
      else if built.Raised? || w.id !in s.charges.held || !Proper(w, built.content, s.charges.held[w.id].size, c) then
        WithMade(Fail(s, w.number, true, {w.number}), None)
      else WithMade(if built.gap && !w.profile then Fail(s, w.number, true, {}) else s, Some(built.content))
  }

  /** The numbers of the publications that go into the batch. */
  function Ready(k: Books): set<nat>
    requires |k.made| <= |k.current|
  {
    set i | 0 <= i < |k.made| && k.made[i].Some? :: k.current[i].number
  }

  function FirstReady(k: Books): (i: nat)
    requires |k.made| <= |k.current| && Survivors(k.made) != []
    ensures i < |k.made| && k.made[i].Some? && forall j :: 0 <= j < i ==> k.made[j].None?
  {
    FirstSome(k.made)
  }

  function FirstSome(made: seq<Option<Content>>): (i: nat)
    requires Survivors(made) != []
    ensures i < |made| && made[i].Some? && forall j :: 0 <= j < i ==> made[j].None?
  {
    if Survivors(made[..|made| - 1]) != [] then FirstSome(made[..|made| - 1])
    else NoSurvivors(made[..|made| - 1]); |made| - 1
  }

  lemma {:induction false} NoSurvivors(made: seq<Option<Content>>)
    requires Survivors(made) == []
    ensures forall j :: 0 <= j < |made| ==> made[j].None?
  {
    if made != [] {
      NoSurvivors(made[..|made| - 1]);
    }
  }

  /** Return the charge of every publication of the batch. */
  function ReleaseAll(h: Charges, works: seq<Work>): Charges {
    if works == [] then h
    else
      var rest := ReleaseAll(h, works[..|works| - 1]);
      var id := works[|works| - 1].id;
      if id in rest.held then Freed(rest, id) else rest
  }

  /** The charge of the batch is returned and its acknowledgements may start. */
  function Ended(k: Books, failed: bool): Books {
    k.(released := true, callbacks := k.callbacks.(error := failed && Survivors(k.made) != []))
  }

  function Resolved(s: State, failed: bool): State
    requires |s.books.made| == |s.books.current|
  {
    var k, l := s.books, Ended(s.books, failed);
    if Survivors(k.made) == [] then s.(books := l)
    else if failed then Fail(s.(books := l), k.current[FirstReady(k)].number, false, Ready(k))
    else s.(books := l.(committed := k.committed + Ready(k)))
  }

  /** The batch is over: committed as a whole or failed as a whole, under the number of its first publication. */
  function Finish(s: State, failed: bool): State {
    var k := s.books;
    if k.released || k.current == [] || |k.made| != |k.current| then s
    else
      var t := Resolved(s, failed);
      t.(charges := ReleaseAll(t.charges, k.current))
  }

  /**
    The batch was written or failed as a whole: the prepared publications are committed or lost, a failure is recorded at
    the first of them, every reservation of the batch is free, and acknowledgements start with what the write came to.
   */
  ghost predicate BatchEnded(s: State, t: State, failed: bool) {
    var k, l := s.books, t.books;
    var ready := set i | 0 <= i < |k.current| && i < |k.made| && k.made[i].Some? :: k.current[i].number;
    && l.released && l.current == k.current && l.made == k.made && l.queue == k.queue && l.settled == k.settled
    && l.committed == k.committed + (if failed then {} else ready) && l.lost == k.lost + (if failed then ready else {})
    && l.callbacks == k.callbacks.(error := failed && ready != {})
    && t.charges.held == s.charges.held - (set i | 0 <= i < |k.current| :: k.current[i].id)
    && if failed && ready != {} then
         exists i :: 0 <= i < |k.made| && i < |k.current| && k.made[i].Some? && (forall j :: 0 <= j < i ==> k.made[j].None?)
                     && l.failures == k.failures + {k.current[i].number}
       else l.failures == k.failures
  }

  lemma {:induction false} AllReleased(h: Charges, works: seq<Work>)
    ensures ReleaseAll(h, works).held == h.held - (set i | 0 <= i < |works| :: works[i].id)
  {
    if works != [] {
      var n := |works| - 1;
      AllReleased(h, works[..n]);
      assert (set i | 0 <= i < |works| :: works[i].id) == (set i | 0 <= i < n :: works[..n][i].id) + {works[n].id};
    }
  }

  lemma FinishEndsBatch(s: State, failed: bool)
    requires !s.books.released && s.books.current != [] && |s.books.made| == |s.books.current|
    ensures BatchEnded(s, Finish(s, failed), failed)
  {
    hide StillWaiting, Judged, ReleaseAll;
    var k := s.books;
    AllReleased(Resolved(s, failed).charges, k.current);
    assert Ready(k) == set i | 0 <= i < |k.current| && i < |k.made| && k.made[i].Some? :: k.current[i].number;
    if Survivors(k.made) == [] {
      NoSurvivors(k.made);
      assert Ready(k) == {};
    } else {
      var i := FirstReady(k);
      assert k.current[i].number in Ready(k);
    }
  }

  /** What the next publication of a finished batch is told: it was prepared and the write did not fail. */
  function Committing(k: Books): bool
    requires k.callbacks.answered < |k.current|
  {
    !k.callbacks.error && k.callbacks.answered < |k.made| && k.made[k.callbacks.answered].Some?
  }

  function Told(k: Books): Books
    requires k.callbacks.answered < |k.current|
  {
    var a, w := k.callbacks, k.current[k.callbacks.answered];
    k.(callbacks := a.(answered := a.answered + 1,
                       calls := if w.profile then a.calls + [Call(w.number, Committing(k))] else a.calls))
  }

  /** The next publication of a finished batch is acknowledged; its owner's callback may raise. */
  function Acknowledge(s: State, raised: bool): State {
    var k := s.books;
    if !k.released || k.callbacks.answered >= |k.current| then s
    else
      var w, t := k.current[k.callbacks.answered], s.(books := Told(k));
      if w.profile && raised then Fail(t, w.number, true, {}) else t
  }

  function BatchSettled(k: Books): Books
    requires k.current != []
  {
    k.(settled := k.current[|k.current| - 1].number, current := [], made := [], released := false,
       callbacks := k.callbacks.(answered := 0))
  }

  /** The batch is settled and barriers are looked at again. */
  function SettleBatch(s: State): State {
    var k := s.books;
    if !k.released || k.current == [] || k.callbacks.answered < |k.current| then s
    else Settle(s.(books := BatchSettled(k)))
  }

  function Opened(s: State): State {
    if s.mode.phase != Opening then s else s.(mode := s.mode.(phase := if s.mode.closing then Closing else Open))
  }

  /** A failed startup: a tolerant lane goes on without a store, any other closes. */
  function OpenFailed(s: State, tolerated: bool): State {
    if s.mode.phase != Opening then s
    else
      var t := Fail(s, 0, false, {});
      if tolerated then t.(mode := t.mode.(unavailable := true, phase := if s.mode.closing then Closing else Degraded))
      else t.(mode := t.mode.(unavailable := true, closing := true))
  }

  /** What the attempts to open come to: the first success, or the first failure that is not followed by another attempt. */
  function Startup(attempts: seq<Result<()>>): Result<()>
    requires attempts != []
  {
    if attempts[0].Success? || attempts[0].error == Contract || |attempts| == 1 then attempts[0] else Startup(attempts[1..])
  }

  /** Attempt `i` succeeds and is reached: every one before it failed in a class that is retried. */
  ghost predicate OpensAt(attempts: seq<Result<()>>, i: nat) {
    i < |attempts| && attempts[i].Success? && forall j :: 0 <= j < i ==> attempts[j].Failure? && attempts[j].error != Contract
  }

  lemma {:induction false} StartupSucceeds(attempts: seq<Result<()>>)
    requires attempts != []
    ensures Startup(attempts).Success? <==> exists i :: OpensAt(attempts, i)
  {
    if attempts[0].Success? {
      assert OpensAt(attempts, 0);
    } else if attempts[0].error != Contract && |attempts| > 1 {
      StartupSucceeds(attempts[1..]);
      forall i: nat | OpensAt(attempts[1..], i)
        ensures OpensAt(attempts, i + 1)
      {
        assert forall j :: 0 < j <= i ==> attempts[j] == attempts[1..][j - 1];
      }
      forall i: nat | OpensAt(attempts, i)
        ensures i > 0 && OpensAt(attempts[1..], i - 1)
      {
      }
    } else {
      forall i: nat
        ensures !OpensAt(attempts, i)
      {
      }
    }
  }

  function Close(s: State): State {
    s.(mode := s.mode.(closing := true, phase := if s.mode.phase == Opening then Opening else Closing))
  }

  /** The loop ends when it is closing, nothing waits and nothing is reserved. */
  predicate Drained(s: State) {
    Idle(s) && s.books.queue == [] && s.mode.closing && s.charges.held == map[]
  }

  function Drain(s: State): State {
    if Drained(s) then Settle(s.(mode := s.mode.(phase := Closed))) else s
  }

  lemma AbsorbedCalling(k: Books)
    requires Calling(k) && Ordered(k.current, k.queue, k.settled, k.admitted) && Confined(k.committed, k.settled, k.current)
    requires k.queue != [] && k.queue[0].Publication? && !k.released
    ensures Calling(Absorbed(k))
  {
    OwingAbsorbed(k.callbacks, k.current, k.queue, k.settled, k.admitted);
    assert k.queue[0].work.number !in k.committed;
  }

  lemma AbsorbedPlaces(k: Books, n: nat)
    requires k.queue != [] && k.queue[0].Publication? && (InWorks(k.current, n) || InQueue(k.queue, n))
    ensures InWorks(Absorbed(k).current, n) || InQueue(Absorbed(k).queue, n)
    ensures InWorks(k.current, n) ==> InWorks(Absorbed(k).current, n)
  {
    var l := Absorbed(k);
    if InWorks(k.current, n) {
      var i :| 0 <= i < |k.current| && k.current[i].number == n;
      assert l.current[i].number == n;
    } else {
      var i :| 0 <= i < |k.queue| && k.queue[i].Publication? && k.queue[i].work.number == n;
      if i == 0 {
        assert l.current[|k.current|].number == n;
      } else {
        assert l.queue[i - 1] == k.queue[i];
      }
    }
  }

  lemma AbsorbedTracked(k: Books, lost: set<nat>)
    requires Tracked(k.current, k.queue, k.admitted, k.committed, lost) && Confined(k.committed, k.settled, k.current)
    requires k.queue != [] && k.queue[0].Publication?
    ensures Tracked(Absorbed(k).current, Absorbed(k).queue, k.admitted, k.committed, lost)
    ensures Confined(k.committed, k.settled, Absorbed(k).current)
  {
    hide InWorks, InQueue, Absorbed;
    forall n | InWorks(k.current, n) || InQueue(k.queue, n)
      ensures InWorks(Absorbed(k).current, n) || InQueue(Absorbed(k).queue, n)
      ensures InWorks(k.current, n) ==> InWorks(Absorbed(k).current, n)
    {
      AbsorbedPlaces(k, n);
    }
  }

  lemma AbsorbedOrdered(k: Books, c: Config)
    requires Ordered(k.current, k.queue, k.settled, k.admitted) && Preparing(k.current, k.queue, k.made, k.lost, c)
    requires k.queue != [] && k.queue[0].Publication?
    ensures Ordered(Absorbed(k).current, Absorbed(k).queue, k.settled, k.admitted)
    ensures Preparing(Absorbed(k).current, Absorbed(k).queue, k.made, k.lost, c)
  {
    hide Fits;
  }

  lemma AbsorbedLine(k: Books, c: Config)
    requires Line(k, {}, c) && k.queue != [] && k.queue[0].Publication? && !k.released
    ensures Line(Absorbed(k), {}, c)
  {
    hide Ordered, Tracked, Failing, Confined, Preparing, Calling;
    assert LookBooks(k);
    AbsorbedTracked(k, k.lost + {});
    AbsorbedOrdered(k, c);
    AbsorbedCalling(k);
    assert LineParts(Absorbed(k), {}, c);
  }

  lemma AbsorbedCharging(h: Charges, k: Books, b: Bounds)
    requires Charging(h, k.current, k.queue, b) && k.queue != [] && k.queue[0].Publication?
    ensures Charging(h, Absorbed(k).current, Absorbed(k).queue, b)
  {
  }

  /** One more publication joins the batch, from the head of the queue. */
  lemma AbsorbedValid(s: State, b: Bounds, c: Config)
    requires Valid(s, b, c) && s.books.queue != [] && s.books.queue[0].Publication? && !s.books.released
    ensures Valid(s.(books := Absorbed(s.books)), b, c)
  {
    assert LookAtState(s);
    AbsorbedLine(s.books, c);
    AbsorbedCharging(s.charges, s.books, b);
    PromisesMore(s.waiting, s.waiting, s.books, Absorbed(s.books));
    ReadsPop(s.books.queue);
    assert ValidParts(s.(books := Absorbed(s.books)), b, c);
  }

  lemma FreshLine(k: Books, c: Config)
    requires Line(k, {}, c) && k.current == []
    ensures Line(k.(made := [], released := false), {}, c)
  {
    assert LookBooks(k);
    assert LineParts(k.(made := [], released := false), {}, c);
  }

  lemma PoppedLine(k: Books, c: Config)
    requires Line(k, {}, c) && k.queue != [] && k.queue[0].Read?
    ensures Line(k.(queue := k.queue[1..]), {}, c)
  {
    assert LookBooks(k);
    OwingPopped(k.callbacks, k.current, k.queue, k.settled, k.admitted);
    var l := k.(queue := k.queue[1..]);
    forall n | InQueue(k.queue, n)
      ensures InQueue(l.queue, n)
    {
      var i :| 0 <= i < |k.queue| && k.queue[i].Publication? && k.queue[i].work.number == n;
      assert l.queue[i - 1] == k.queue[i];
    }
    assert LineParts(l, {}, c);
  }

  lemma TakeValid(s: State, b: Bounds, c: Config)
    requires Valid(s, b, c)
    ensures Valid(Take(s), b, c)
  {
    assert LookAtState(s);
    var k := s.books;
    if Idle(s) && k.queue != [] {
      if k.queue[0].Read? {
        PoppedLine(k, c);
        PromisesMore(s.waiting, Take(s).waiting, k, Take(s).books);
        ReadsPop(k.queue);
        assert Charging(s.charges, Writing(k), k.queue[1..], b);
      } else {
        var t := s.(books := k.(made := [], released := false));
        FreshLine(k, c);
        PromisesMore(s.waiting, s.waiting, k, t.books);
        assert Writing(k) == Writing(t.books) == [];
        assert ValidParts(t, b, c);
        AbsorbedValid(t, b, c);
        assert LookAtState(Take(s));
      }
    }
    assert ValidParts(Take(s), b, c);
  }

  lemma {:induction false} CoalescedValid(s: State, b: Bounds, c: Config)
    requires Valid(s, b, c) && s.books.current != [] && !s.books.released
    ensures Valid(s.(books := Coalesced(s.books, b)), b, c)
    decreases |s.books.queue|
  {
    if Joins(s.books.current, s.books.queue, b) {
      AbsorbedValid(s, b, c);
      CoalescedValid(s.(books := Absorbed(s.books)), b, c);
    }
  }

  lemma MadeValid(s: State, made: Option<Content>, b: Bounds, c: Config)
    requires Valid(s, b, c) && |s.books.made| < |s.books.current| && !s.books.released
    requires made.None? ==> s.books.current[|s.books.made|].number in s.books.lost
    requires made.Some? ==> Fits(s.books.current[|s.books.made|], made.value, c)
    ensures Valid(WithMade(s, made), b, c)
  {
    assert LookAtState(s);
    var k, l := s.books, WithMade(s, made).books;
    assert Line(l, {}, c) by {
      assert LookBooks(k);
      assert LineParts(l, {}, c);
    }
    PromisesMore(s.waiting, s.waiting, k, l);
    assert ValidParts(WithMade(s, made), b, c);
  }

  /** More numbers may go missing as long as they were handed out. */
  lemma LineMissing(k: Books, missing: set<nat>, c: Config)
    requires Line(k, {}, c) && forall m :: m in missing ==> m <= k.admitted
    ensures Line(k, missing, c)
  {
    assert LookBooks(k);
    assert k.lost + {} == k.lost;
    assert LineParts(k, missing, c);
  }

  lemma CurrentNumber(k: Books, i: nat, c: Config)
    requires Line(k, {}, c) && i < |k.current|
    ensures k.settled < k.current[i].number <= k.admitted
    ensures k.current[i].content.Some? ==> Fits(k.current[i], k.current[i].content.value, c)
    ensures forall j :: 0 <= i < j < |k.current| ==> k.current[i].number < k.current[j].number
  {
    assert LookBooks(k);
  }

  /** Failing at a publication of the batch, losing some of them from there on. */
  lemma FailAtValid(s: State, i: nat, gap: bool, missing: set<nat>, b: Bounds, c: Config)
    requires Valid(s, b, c) && i < |s.books.current|
    requires forall m :: m in missing ==> exists j :: i <= j < |s.books.current| && m == s.books.current[j].number
    ensures Valid(Fail(s, s.books.current[i].number, gap, missing), b, c)
  {
    assert LookAtState(s);
    var k := s.books;
    CurrentNumber(k, i, c);
    forall m | m in missing
      ensures k.current[i].number <= m <= k.admitted
    {
      var j :| i <= j < |k.current| && m == k.current[j].number;
      CurrentNumber(k, j, c);
    }
    LineMissing(k, missing, c);
    FailValid(s, k.current[i].number, gap, missing, b, c);
  }

  lemma PrepareValid(s: State, built: Built, b: Bounds, c: Config)
    requires Valid(s, b, c)
    ensures Valid(Prepare(s, built, c), b, c)
  {
    assert LookAtState(s);
    var k := s.books;
    if !k.released && |k.made| < |k.current| {
      var w := k.current[|k.made|];
      CurrentNumber(k, |k.made|, c);
      if w.content.Some? {
        MadeValid(s, w.content, b, c);
      } else if built.Raised? || w.id !in s.charges.held || !Proper(w, built.content, s.charges.held[w.id].size, c) {
        FailAtValid(s, |k.made|, true, {w.number}, b, c);
        MadeValid(Fail(s, w.number, true, {w.number}), None, b, c);
      } else {
        FailAtValid(s, |k.made|, true, {}, b, c);
        MadeValid(if built.gap && !w.profile then Fail(s, w.number, true, {}) else s, Some(built.content), b, c);
      }
    }
  }

  // ---- the end of a batch -----------------------------------------------------------------------------------

  /** The end of a batch whose outcome accounts for every publication that was prepared. */
  lemma EndedLine(k: Books, failed: bool, l: Books, missing: set<nat>, c: Config)
    requires Line(k, {}, c) && |k.made| == |k.current| && !k.released
    requires l == Ended(k, failed).(committed := l.committed)
    requires if failed then l.committed == k.committed && missing == Ready(k) else l.committed == k.committed + Ready(k) && missing == {}
    ensures Line(l, missing, c)
  {
    assert LookBooks(k);
    forall i | 0 <= i < |k.current|
      ensures k.current[i].number in l.committed || k.current[i].number in l.lost + missing
      ensures k.current[i].number in l.committed <==> !failed && k.made[i].Some?
    {
      EndedWork(k, i);
      assert k.current[i].number !in k.committed;
    }
    forall i | 0 <= i < |k.callbacks.calls|
      ensures k.callbacks.calls[i].number !in Ready(k)
    {
      var n := k.callbacks.calls[i].number;
      assert Called(k.callbacks.calls, n);
      assert n <= k.settled;
    }
    ReadySurvive(k);
    assert LineParts(l, missing, c);
  }

  lemma EndedWork(k: Books, i: nat)
    requires i < |k.current| == |k.made| && Rising(k.current)
    ensures k.current[i].number in Ready(k) <==> k.made[i].Some?
  {
    if k.current[i].number in Ready(k) {
      var j :| 0 <= j < |k.made| && k.made[j].Some? && k.current[j].number == k.current[i].number;
      assert j == i;
    }
  }

  lemma ReadySurvive(k: Books)
    requires |k.made| <= |k.current|
    ensures Survivors(k.made) == [] ==> Ready(k) == {} && forall i :: 0 <= i < |k.made| ==> k.made[i].None?
  {
    if Survivors(k.made) == [] {
      NoSurvivors(k.made);
    }
  }

  ghost predicate OtherIds(works: seq<Work>, queue: seq<Job>) {
    forall i, j :: 0 <= i < |works| && 0 <= j < |queue| && queue[j].Publication? ==> works[i].id != queue[j].work.id
  }

  lemma {:induction false} ReleaseAllCharging(h: Charges, works: seq<Work>, queue: seq<Job>, b: Bounds)
    requires Charging(h, [], queue, b) && OtherIds(works, queue)
    ensures Charging(ReleaseAll(h, works), [], queue, b)
    ensures forall id :: id in ReleaseAll(h, works).held ==> id in h.held && ReleaseAll(h, works).held[id] == h.held[id]
    decreases |works|
  {
    if works != [] {
      var n := |works| - 1;
      ReleaseAllCharging(h, works[..n], queue, b);
      var rest := ReleaseAll(h, works[..n]);
      if works[n].id in rest.held {
        BalancedRemove(b, rest.held, rest.pending, rest.detail, works[n].id);
        RowsRemove(rest.held, works[n].id);
      }
    }
  }

  lemma {:induction false} ReleaseAllWithin(h: Charges, works: seq<Work>, b: Bounds)
    requires Within(h, b)
    ensures Within(ReleaseAll(h, works), b)
    decreases |works|
  {
    if works != [] {
      var n := |works| - 1;
      ReleaseAllWithin(h, works[..n], b);
      if works[n].id in ReleaseAll(h, works[..n]).held {
        FreedWithin(ReleaseAll(h, works[..n]), works[n].id, b);
      }
    }
  }

  lemma BatchIds(s: State, b: Bounds, c: Config)
    requires Valid(s, b, c) && !s.books.released
    ensures OtherIds(s.books.current, s.books.queue)
  {
    assert LookAtState(s);
    assert LookBooks(s.books);
  }

  /** Ending a batch: what it published is committed or lost, and its charge is returned. */
  lemma FinishValid(s: State, failed: bool, b: Bounds, c: Config)
    requires Valid(s, b, c)
    ensures Valid(Finish(s, failed), b, c)
    ensures Within(s.charges, b) ==> Within(Finish(s, failed).charges, b)
  {
    assert LookAtState(s);
    var k := s.books;
    if !k.released && k.current != [] && |k.made| == |k.current| {
      ResolvedValid(s, failed, b, c);
      BatchIds(s, b, c);
      var t := Resolved(s, failed);
      assert LookAtState(t);
      ReleaseAllCharging(t.charges, k.current, t.books.queue, b);
      if Within(s.charges, b) {
        ReleaseAllWithin(s.charges, k.current, b);
      }
    }
    assert ValidParts(Finish(s, failed), b, c);
  }

  lemma ResolvedValid(s: State, failed: bool, b: Bounds, c: Config)
    requires Valid(s, b, c) && !s.books.released && |s.books.made| == |s.books.current|
    ensures Valid(Resolved(s, failed), b, c) && Resolved(s, failed).books.released && Resolved(s, failed).charges == s.charges
    ensures Resolved(s, failed).books.queue == s.books.queue
  {
    assert LookAtState(s);
    var k := s.books;
    var l := Ended(k, failed);
    ReadySurvive(k);
    if failed && Survivors(k.made) != [] {
      EndedLine(k, true, l, Ready(k), c);
      PromisesMore(s.waiting, s.waiting, k, l);
      ReadyNumbers(k, c);
      FailValid(s.(books := l), k.current[FirstReady(k)].number, false, Ready(k), b, c);
    } else {
      var m := l.(committed := k.committed + Ready(k));
      assert Ended(k, false) == Ended(k, failed);
      EndedLine(k, false, m, {}, c);
      PromisesMore(s.waiting, s.waiting, k, m);
      assert Resolved(s, failed) == s.(books := m);
      assert ValidParts(s.(books := m), b, c);
    }
  }

  /** What survived starts with the first one that was prepared, beyond everything settled. */
  lemma ReadyNumbers(k: Books, c: Config)
    requires Line(k, {}, c) && |k.made| == |k.current| && Survivors(k.made) != []
    ensures k.settled < k.current[FirstReady(k)].number
    ensures forall n :: n in Ready(k) ==> k.current[FirstReady(k)].number <= n <= k.admitted
  {
    var i := FirstReady(k);
    CurrentNumber(k, i, c);
    forall n | n in Ready(k)
      ensures k.current[i].number <= n <= k.admitted
    {
      var j :| 0 <= j < |k.made| && k.made[j].Some? && k.current[j].number == n;
      CurrentNumber(k, j, c);
    }
  }

  lemma ToldCalling(k: Books)
    requires Calling(k) && Ordered(k.current, k.queue, k.settled, k.admitted)
    requires k.released && k.callbacks.answered < |k.current|
    ensures Calling(Told(k))
    ensures Committing(k) <==> k.current[k.callbacks.answered].number in k.committed
  {
    var w := k.current[k.callbacks.answered];
    OwingNext(k.callbacks, k.current, k.queue, k.settled, k.admitted, Committing(k));
    CalledOnceMore(k.callbacks, w, Committing(k), k.committed, Told(k).callbacks);
  }

  lemma CalledOnceMore(a: Callbacks, w: Work, committed: bool, all: set<nat>, b: Callbacks)
    requires CalledOnce(a, all) && (w.profile ==> w.number in a.owed && !Called(a.calls, w.number))
    requires committed <==> w.number in all
    requires b == a.(answered := a.answered + 1, calls := if w.profile then a.calls + [Call(w.number, committed)] else a.calls)
    ensures CalledOnce(b, all)
  {
  }

  lemma ToldLine(k: Books, c: Config)
    requires Line(k, {}, c) && k.released && k.callbacks.answered < |k.current|
    ensures Line(Told(k), {}, c)
  {
    assert LookBooks(k);
    ToldCalling(k);
    assert LineParts(Told(k), {}, c);
  }

  /** Acknowledging one publication: its callback is called once, with what became of it. */
  lemma AcknowledgeValid(s: State, raised: bool, b: Bounds, c: Config)
    requires Valid(s, b, c)
    ensures Valid(Acknowledge(s, raised), b, c)
  {
    assert LookAtState(s);
    var k := s.books;
    if k.released && k.callbacks.answered < |k.current| {
      var i := k.callbacks.answered;
      ToldLine(k, c);
      PromisesMore(s.waiting, s.waiting, k, Told(k));
      assert ValidParts(s.(books := Told(k)), b, c);
      if k.current[i].profile && raised {
        FailAtValid(s.(books := Told(k)), i, true, {}, b, c);
        assert LookAtState(Acknowledge(s, raised));
      }
    }
    assert ValidParts(Acknowledge(s, raised), b, c);
  }

  lemma SettledCalling(k: Books)
    requires Calling(k) && Ordered(k.current, k.queue, k.settled, k.admitted) && k.current != [] && k.callbacks.answered == |k.current|
    ensures Calling(BatchSettled(k))
  {
    OwingSettled(k.callbacks, k.current, k.queue, k.settled, k.admitted);
  }

  lemma SettledLine(k: Books, c: Config)
    requires Line(k, {}, c) && k.released && k.current != [] && k.callbacks.answered == |k.current|
    ensures Line(BatchSettled(k), {}, c)
    ensures k.settled <= k.current[|k.current| - 1].number
  {
    assert LookBooks(k);
    var l := BatchSettled(k);
    SettledCalling(k);
    forall n: nat | 1 <= n <= l.admitted
      ensures InQueue(l.queue, n) || n in l.committed || n in l.lost + {}
    {
      if InWorks(k.current, n) {
        var i :| 0 <= i < |k.current| && k.current[i].number == n;
      }
    }
    assert forall i :: 0 <= i < |k.current| ==> k.current[i].number <= l.settled;
    assert LineParts(l, {}, c);
  }

  lemma SettleBatchValid(s: State, b: Bounds, c: Config)
    requires Valid(s, b, c)
    ensures Valid(SettleBatch(s), b, c)
  {
    assert LookAtState(s);
    var k := s.books;
    if k.released && k.current != [] && k.callbacks.answered >= |k.current| {
      assert k.callbacks.answered == |k.current| by { assert LookBooks(k); }
      SettledLine(k, c);
      PromisesMore(s.waiting, s.waiting, k, BatchSettled(k));
      SettleValid(s.(books := BatchSettled(k)), b, c);
    }
  }

  lemma DrainedPromises(k: Books, w: Waiting, c: Config)
    requires Line(k, {}, c) && Promises(w, k) && k.queue == [] && k.current == []
    ensures forall i :: 0 <= i < |w.barriers| ==>
              w.barriers[i].target <= k.settled || (k.first.Some? && k.first.value <= w.barriers[i].target)
  {
    assert LookBooks(k);
    forall i | 0 <= i < |w.barriers|
      ensures w.barriers[i].target <= k.settled || (k.first.Some? && k.first.value <= w.barriers[i].target)
    {
      var t := w.barriers[i].target;
      assert w.asked[w.barriers[i].id].target <= k.admitted;
      if t > k.settled {
        assert t in k.committed || t in k.lost + {};
      }
    }
  }

  /** Allowance reserved and released again leaves nothing behind. */
  lemma DetailRoundTrip(s: State, id: nat, bytes: nat, b: Bounds)
    requires ReserveDetail(s, id, bytes, b).result.Success? && s.charges.held[id].detail >= 0 && id < s.charges.nextId
    ensures var t := ReserveDetail(s, id, bytes, b).state;
      ReleaseDetail(t, id, bytes) == Answer(s, Success(()))
  {
    var t := ReserveDetail(s, id, bytes, b).state;
    assert t.charges.held[id := s.charges.held[id]] == s.charges.held;
    assert Resized(Resized(s.charges.held[id], bytes), -(bytes as int)) == s.charges.held[id];
  }

  /** Capacity reserved and discarded again is free again; only its identity was used up. */
  lemma ReserveRoundTrip(s: State, b: Bounds, strict: bool, notifies: bool)
    requires Reserve(s, b, strict, notifies).result.Success? && Reserve(s, b, strict, notifies).result.value.Some?
    requires s.charges.nextId !in s.charges.held
    ensures var t := Reserve(s, b, strict, notifies).state;
      Discard(t, s.charges.nextId, false) == Answer(s.(charges := s.charges.(nextId := s.charges.nextId + 1)), Success(()))
  {
    var t := Reserve(s, b, strict, notifies).state;
    assert t.charges.held - {s.charges.nextId} == s.charges.held;
  }

  lemma {:induction false} AllJudged(barriers: seq<Barrier>, first: Option<nat>, settled: nat, held: map<nat, Reservation>)
    requires forall i :: 0 <= i < |barriers| ==> Judge(barriers[i], first, settled, held).Some?
    ensures StillWaiting(barriers, first, settled, held) == []
  {
    if barriers != [] {
      AllJudged(barriers[..|barriers| - 1], first, settled, held);
    }
  }

  lemma DrainValid(s: State, b: Bounds, c: Config)
    requires Valid(s, b, c)
    ensures Valid(Drain(s), b, c)
  {
    assert LookAtState(s);
    if Drained(s) {
      SettleValid(s.(mode := s.mode.(phase := Closed)), b, c);
    }
  }

  /** When the lane drains, no barrier and no read is left: each one asked for has its verdict. */
  lemma DrainResolvesEverything(s: State, b: Bounds, c: Config)
    requires Valid(s, b, c) && Drained(s)
    ensures var t := Drain(s);
      && Valid(t, b, c) && t.waiting.barriers == [] && t.waiting.readers == 0 && t.mode.phase == Closed
      && (forall id: nat :: id < |t.waiting.asked| ==> id in t.waiting.verdicts)
      && (forall n :: n in t.books.callbacks.owed ==> Called(t.books.callbacks.calls, n))
  {
    assert LookAtState(s);
    DrainedPromises(s.books, s.waiting, c);
    AllJudged(s.waiting.barriers, s.books.first, s.books.settled, s.charges.held);
    DrainValid(s, b, c);
    var t := Drain(s);
    assert LookAtState(t);
    assert LookBooks(t.books);
    forall id: nat | id < |t.waiting.asked|
      ensures id in t.waiting.verdicts
    {
      assert !Waits(t.waiting.barriers, id);
    }
  }
}
