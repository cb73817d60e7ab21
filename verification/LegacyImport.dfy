/** Resumable conversion of an ordered dashboard archive. */
module LegacyImport {
  // Each row commits together with the checkpoint that counts it, under a compare-and-swap on `processed`, so
  // interruptions and rivals can stop an import but not corrupt it.

  import opened Wrappers
  import opened Tables
  import opened Transaction
  import opened Ledger
  import opened History
  import Prune
  import Protocol
  import SQLiteBackend
  import Delivery

  /** What one archive row turns into; a row without a finalized outcome is skipped, a malformed one stops the import. */
  datatype Conversion = Converts(entry: ContextEntry, session: SessionEntry) | Skips | Malformed

  datatype Row = Row(key: nat, conversion: Conversion)

  /** An archive is identified by its content; its rows are in key order. */
  datatype Source = Source(id: Text, digest: Text, rows: seq<Row>, size: ImportRecord -> nat)

  ghost predicate ValidSource(src: Source) {
    forall i, j :: 0 <= i < j < |src.rows| ==> src.rows[i].key < src.rows[j].key
  }

  // ---- one step of the import -----------------------------------------------------------------------

  function Fresh(src: Source, created: int, encoding: Text): ImportRecord {
    ImportRecord(src.id, src.digest, created, encoding, 0, 0, 0, 0, false, None)
  }

  /** The first row after the cursor, by key. */
  function NextRow(rows: seq<Row>, cursor: Option<nat>): Option<nat> {
    FirstAfter(rows, cursor, 0)
  }

  function FirstAfter(rows: seq<Row>, cursor: Option<nat>, from: nat): (r: Option<nat>)
    ensures r.Some? ==> from <= r.value < |rows| && (cursor.Some? ==> rows[r.value].key > cursor.value)
    ensures r.Some? ==> forall i :: from <= i < r.value ==> cursor.Some? && rows[i].key <= cursor.value
    ensures r.None? ==> forall i :: from <= i < |rows| ==> cursor.Some? && rows[i].key <= cursor.value
    decreases |rows| - from
  {
    if from >= |rows| then None
    else if cursor.None? || rows[from].key > cursor.value then Some(from)
    else FirstAfter(rows, cursor, from + 1)
  }

  /** The record after converting row `i`. */
  function Counted(current: ImportRecord, rows: seq<Row>, i: nat): ImportRecord
    requires i < |rows|
  {
    var converted := rows[i].conversion.Converts?;
    current.(processed := current.processed + 1, imported := current.imported + (if converted then 1 else 0),
             skipped := current.skipped + (if converted then 0 else 1), cursor := Some(rows[i].key),
             complete := NextRow(rows, Some(rows[i].key)).None?)
  }

  /** What an importer that stands at `current`, last committed as `prior`, offers next; None when the row is malformed. */
  function Offering(src: Source, current: ImportRecord, prior: Option<ImportRecord>): Option<Content> {
    var expected := if prior.Some? then Some(prior.value.processed) else None;
    match NextRow(src.rows, current.cursor)
    case None =>
      var done := current.(complete := true);
      Some(Content([], [], [], Some(Checkpoint(done, src.size(done), expected))))
    case Some(i) =>
      var next := Counted(current, src.rows, i);
      var checkpoint := Some(Checkpoint(next, src.size(next), expected));
      match src.rows[i].conversion
      case Malformed => None
      case Skips => Some(Content([], [], [], checkpoint))
      case Converts(entry, session) => Some(Content([entry], [session], [], checkpoint))
  }

  // ---- what the durable record means ------------------------------------------------------------------

  function Imported(rows: seq<Row>, n: nat): nat
    requires n <= |rows|
  {
    if n == 0 then 0 else Imported(rows, n - 1) + if rows[n - 1].conversion.Converts? then 1 else 0
  }

  lemma {:induction false} ImportedAtMost(rows: seq<Row>, n: nat)
    requires n <= |rows|
    ensures Imported(rows, n) <= n
  {
    if n > 0 {
      ImportedAtMost(rows, n - 1);
    }
  }

  /** The record that stands for exactly the first `n` rows. */
  function At(src: Source, created: int, encoding: Text, n: nat, complete: bool): ImportRecord
    requires n <= |src.rows|
  {
    ImportedAtMost(src.rows, n);
    var imported := Imported(src.rows, n);
    ImportRecord(src.id, src.digest, created, encoding, n, imported, 0, n - imported, complete,
                 if n == 0 then None else Some(src.rows[n - 1].key))
  }

  lemma NextAt(src: Source, created: int, encoding: Text, n: nat)
    requires ValidSource(src) && n <= |src.rows|
    ensures NextRow(src.rows, At(src, created, encoding, n, false).cursor) == if n < |src.rows| then Some(n) else None
    ensures n < |src.rows| ==>
              Counted(At(src, created, encoding, n, false), src.rows, n) == At(src, created, encoding, n + 1, n + 1 == |src.rows|)
  {
    if n < |src.rows| {
      AfterKey(src.rows, n, n + 1);
    }
    if n > 0 {
      AfterKey(src.rows, n - 1, n);
    }
  }

  lemma AfterKey(rows: seq<Row>, i: nat, next: nat)
    requires (forall a, b :: 0 <= a < b < |rows| ==> rows[a].key < rows[b].key) && i < |rows| && next == i + 1
    ensures NextRow(rows, Some(rows[i].key)) == if next < |rows| then Some(next) else None
  {
    var r := NextRow(rows, Some(rows[i].key));
    if next < |rows| {
      assert rows[next].key > rows[i].key;
    }
  }

  /** `prior` is nothing yet, or the incomplete record of some number of rows: all an importer can have read. */
  ghost predicate ReadState(src: Source, prior: Option<ImportRecord>) {
    prior.Some? ==> exists n: nat :: n <= |src.rows| && prior.value == At(src, prior.value.created, prior.value.encoding, n, false)
  }

  /** A batch some importer of this source may offer, at any time, from any state it once read. */
  ghost predicate Offered(src: Source, content: Content) {
    exists prior: Option<ImportRecord>, created: int, encoding: Text :: OfferedFrom(src, prior, created, encoding, content)
  }

  ghost predicate OfferedFrom(src: Source, prior: Option<ImportRecord>, created: int, encoding: Text, content: Content) {
    ReadState(src, prior)
    && Offering(src, if prior.Some? then prior.value else Fresh(src, created, encoding), prior) == Some(content)
  }

  ghost predicate Concerns(src: Source, content: Content) {
    content.checkpoint.Some? && content.checkpoint.value.record.id == src.id
  }

  /** Every batch that touches this import was offered by an importer of this source. */
  ghost predicate Allowed(src: Source, op: Operation) {
    op.Offer? && Concerns(src, op.batch.content) ==> Offered(src, op.batch.content)
  }

  /** The applied batches of this import, in order. */
  ghost function ImportLog(log: seq<Batch>, src: Source): seq<Content> {
    if log == [] then []
    else
      var last := log[|log| - 1];
      ImportLog(log[..|log| - 1], src) + if Concerns(src, last.content) then [last.content] else []
  }

  /** What a row contributes when it is converted. */
  ghost predicate Carries(content: Content, row: Row) {
    match row.conversion
    case Converts(entry, session) => content.contexts == [entry] && content.sessions == [session] && content.profiles == []
    case Skips => content.contexts == [] && content.sessions == [] && content.profiles == []
    case Malformed => false
  }

  /**
    The durable record counts exactly the rows up to its cursor; each of them was applied once, in order, and nothing
    else was; only a record of all rows is complete.
   */
  ghost predicate Accurate(src: Source, imports: map<Text, ImportRow>, applied: seq<Content>) {
    if src.id !in imports then applied == []
    else
      var record := imports[src.id].record;
      var n := record.processed;
      && n <= |src.rows| && record == At(src, record.created, record.encoding, n, record.complete)
      && n == record.imported + record.skipped
      && (record.complete ==> n == |src.rows|) && (!record.complete ==> 0 < n < |src.rows|)
      && |applied| == (if |src.rows| == 0 then 1 else n)
      && forall i :: 0 <= i < n ==> Carries(applied[i], src.rows[i])
  }

  ghost predicate ImportInv(src: Source, h: History, p: Policy) {
    Consistent(h, p) && Accurate(src, h.store.imports, ImportLog(h.log, src))
  }

  // ---- steps -------------------------------------------------------------------------------------------

  lemma OfferingCarries(src: Source, n: nat, created: int, encoding: Text, prior: Option<ImportRecord>, content: Content)
    requires ValidSource(src) && n < |src.rows|
    requires Offering(src, At(src, created, encoding, n, false), prior) == Some(content)
    ensures Carries(content, src.rows[n]) && content.checkpoint.Some?
    ensures content.checkpoint.value.record == At(src, created, encoding, n + 1, n + 1 == |src.rows|)
  {
    NextAt(src, created, encoding, n);
  }

  /** Passing the compare-and-swap means the importer's state is the durable one. */
  lemma SwapMatches(src: Source, imports: map<Text, ImportRow>, applied: seq<Content>, content: Content, s: Store)
    requires ValidSource(src) && Accurate(src, imports, applied) && Concerns(src, content) && Offered(src, content)
    requires s.imports == imports && !CheckpointConflict(s, content)
    ensures Accurate(src, Checkpointed(imports, content), applied + [content])
  {
    var prior: Option<ImportRecord>, created: int, encoding: Text :| OfferedFrom(src, prior, created, encoding, content);
    if prior.Some? {
      SwapResumes(src, imports, applied, content, s, prior.value);
    } else {
      SwapStarts(src, imports, applied, content, s, created, encoding);
    }
  }

  lemma SwapStarts(src: Source, imports: map<Text, ImportRow>, applied: seq<Content>, content: Content, s: Store,
                   created: int, encoding: Text)
    requires ValidSource(src) && Accurate(src, imports, applied) && s.imports == imports && !CheckpointConflict(s, content)
    requires Offering(src, Fresh(src, created, encoding), None) == Some(content)
    ensures Accurate(src, Checkpointed(imports, content), applied + [content])
  {
    assert Fresh(src, created, encoding) == At(src, created, encoding, 0, false);
    assert content.checkpoint.Some? && content.checkpoint.value.record.id == src.id && content.checkpoint.value.expected.None?;
    SwapAdvances(src, imports, applied, content, Fresh(src, created, encoding), None);
  }

  lemma SwapResumes(src: Source, imports: map<Text, ImportRow>, applied: seq<Content>, content: Content, s: Store, prior: ImportRecord)
    requires ValidSource(src) && Accurate(src, imports, applied) && s.imports == imports && !CheckpointConflict(s, content)
    requires ReadState(src, Some(prior)) && Offering(src, prior, Some(prior)) == Some(content)
    ensures Accurate(src, Checkpointed(imports, content), applied + [content])
  {
    var c := content.checkpoint.value;
    assert c.record.id == src.id && c.record.created == prior.created && c.record.encoding == prior.encoding;
    assert c.expected == Some(prior.processed);
    SwapAdvances(src, imports, applied, content, prior, Some(prior));
  }

  lemma SwapAdvances(src: Source, imports: map<Text, ImportRow>, applied: seq<Content>, content: Content,
                     current: ImportRecord, prior: Option<ImportRecord>)
    requires ValidSource(src) && Accurate(src, imports, applied) && current.processed <= |src.rows|
    requires current == At(src, current.created, current.encoding, current.processed, false)
    requires Offering(src, current, prior) == Some(content)
    requires if src.id in imports then imports[src.id].record == current else current.processed == 0
    ensures Accurate(src, Checkpointed(imports, content), applied + [content])
  {
    hide FirstAfter, Imported;
    var n := current.processed;
    NextAt(src, current.created, current.encoding, n);
    ImportedAtMost(src.rows, n);
    if n < |src.rows| {
      OfferingCarries(src, n, current.created, current.encoding, prior, content);
    }
  }

  lemma ImportLogAppend(log: seq<Batch>, src: Source, b: Batch)
    ensures ImportLog(log + [b], src) == ImportLog(log, src) + if Concerns(src, b.content) then [b.content] else []
  {
    assert (log + [b])[..|log|] == log;
  }

  /** What an operation does to the import rows and the log: nothing, or the offered checkpoint past its check. */
  ghost predicate ImportStep(before: History, after: History, op: Operation) {
    || (after.store.imports == before.store.imports && after.log == before.log)
    || (op.Offer? && after.log == before.log + [op.batch]
        && after.store.imports == Checkpointed(before.store.imports, op.batch.content)
        && !CheckpointConflict(before.store, op.batch.content))
  }

  lemma WriteImportStep(h: History, b: Batch, wall: int, fault: Fault, c: Config)
    requires Consistent(h, c.policy)
    ensures ImportStep(h, Apply(h, Offer(b, wall, fault), c), Offer(b, wall, fault))
  {
    hide Sound, WriteBatch, Publish, Advances;
    var s, t := h.store, Clocked(h.store, wall);
    WriteOutcomes(s, b, wall, c);
    if WriteBatch(s, b, wall, c).result == Success(Receipt(b.sequence, false)) {
      ClockedSound(s, wall);
      PublishEffect(t, b, t.meta.clock, c);
      AdvanceImports(WriteBatch(s, b, wall, c).store, t, b, t.meta.clock, c.policy);
    }
  }

  lemma AdvanceImports(u: Store, s: Store, b: Batch, now: int, p: Policy)
    requires Advances(u, s, b, now, p)
    ensures u.imports == Checkpointed(s.imports, b.content)
  {
    hide OthersKept;
  }

  lemma ApplyImportStep(h: History, op: Operation, c: Config)
    requires Consistent(h, c.policy)
    ensures ImportStep(h, Apply(h, op, c), op)
  {
    match op
    case Offer(b, wall, fault) => WriteImportStep(h, b, wall, fault, c);
    case Tidy(wall, _) =>
      ClockedSound(h.store, wall);
      Prune.PruneRetains(Clocked(h.store, wall), Clocked(h.store, wall).meta.clock, c.policy);
  }

  lemma StepAccurate(src: Source, before: History, after: History, op: Operation)
    requires ValidSource(src) && Accurate(src, before.store.imports, ImportLog(before.log, src))
    requires ImportStep(before, after, op) && Allowed(src, op)
    ensures Accurate(src, after.store.imports, ImportLog(after.log, src))
  {
    hide Offered, CheckpointConflict;
    if after.log != before.log {
      ImportLogAppend(before.log, src, op.batch);
      if Concerns(src, op.batch.content) {
        SwapMatches(src, before.store.imports, ImportLog(before.log, src), op.batch.content, before.store);
      }
    }
  }

  lemma ApplyKeepsImport(src: Source, h: History, op: Operation, c: Config)
    requires ValidSource(src) && ImportInv(src, h, c.policy) && Allowed(src, op)
    ensures ImportInv(src, Apply(h, op, c), c.policy)
  {
    ApplyKeepsConsistent(h, op, c);
    ApplyImportStep(h, op, c);
    StepAccurate(src, h, Apply(h, op, c), op);
  }

  // ---- runs --------------------------------------------------------------------------------------------

  ghost predicate AllAllowed(src: Source, ops: seq<Operation>) {
    forall i :: 0 <= i < |ops| ==> Allowed(src, ops[i])
  }

  /** Over every run of importers, rivals, other writers and retention, interrupted anywhere, the record stays accurate. */
  lemma {:induction false} ImportsStayAccurate(src: Source, h: History, ops: seq<Operation>, c: Config)
    requires ValidSource(src) && ImportInv(src, h, c.policy) && AllAllowed(src, ops)
    ensures ImportInv(src, ApplyAll(h, ops, c), c.policy)
  {
    if ops != [] {
      ImportsStayAccurate(src, h, ops[..|ops| - 1], c);
      ApplyKeepsImport(src, ApplyAll(h, ops[..|ops| - 1], c), ops[|ops| - 1], c);
    }
  }

  ghost predicate Completed(src: Source, h: History) {
    src.id in h.store.imports && h.store.imports[src.id].record.complete
  }

  lemma CompletedStep(src: Source, h: History, op: Operation, c: Config)
    requires ImportInv(src, h, c.policy) && Completed(src, h)
    ensures Completed(src, Apply(h, op, c)) && ImportLog(Apply(h, op, c).log, src) == ImportLog(h.log, src)
  {
    ApplyImportStep(h, op, c);
    if Apply(h, op, c).log != h.log {
      ImportLogAppend(h.log, src, op.batch);
    }
  }

  /** A completed import is final: nothing of it is ever applied again, even after retention removed its contexts. */
  lemma {:induction false} CompletedIsFinal(src: Source, h: History, ops: seq<Operation>, c: Config)
    requires ValidSource(src) && ImportInv(src, h, c.policy) && Completed(src, h) && AllAllowed(src, ops)
    ensures Completed(src, ApplyAll(h, ops, c)) && ImportLog(ApplyAll(h, ops, c).log, src) == ImportLog(h.log, src)
  {
    if ops != [] {
      var init := ops[..|ops| - 1];
      CompletedIsFinal(src, h, init, c);
      ImportsStayAccurate(src, h, init, c);
      CompletedStep(src, ApplyAll(h, init, c), ops[|ops| - 1], c);
    }
  }

  // ---- the importer ---------------------------------------------------------------------------------------

  /** What happens around one commit of this importer: rivals first, then a write under an unused producer name. */
  datatype Round = Round(rivals: seq<Operation>, producer: Producer, wall: int, fault: Fault)

  ghost predicate Unused(h: History, rounds: seq<Round>, from: nat) {
    forall j :: from <= j < |rounds| ==> CountOf(h.log, rounds[j].producer) == 0
  }

  ghost predicate Separate(rounds: seq<Round>) {
    && (forall i, j :: 0 <= i < j < |rounds| ==> rounds[i].producer != rounds[j].producer)
    && forall i, j, n :: 0 <= i < |rounds| && 0 <= j < |rounds| && 0 <= n < |rounds[j].rivals| && rounds[j].rivals[n].Offer? ==>
         rounds[j].rivals[n].batch.producer != rounds[i].producer
  }

  lemma UnusedStays(h: History, op: Operation, rounds: seq<Round>, from: nat, c: Config)
    requires Consistent(h, c.policy) && Unused(h, rounds, from)
    requires op.Offer? ==> forall j :: from <= j < |rounds| ==> op.batch.producer != rounds[j].producer
    ensures Unused(Apply(h, op, c), rounds, from)
  {
    Protocol.OfferEffect(h, op, c);
    forall j | from <= j < |rounds|
      ensures CountOf(Apply(h, op, c).log, rounds[j].producer) == 0
    {
      Protocol.SpareStays(h.log, Apply(h, op, c).log, op, rounds[j].producer);
    }
  }

  /** One operation of anyone, on the backend. */
  method Perform(backend: SQLiteBackend.Backend, op: Operation)
    requires Sound(backend.State())
    modifies backend
    ensures Sound(backend.State())
    ensures backend.State() == if op.fault.Aborted? then old(backend.State())
                               else Committed(old(backend.State()), op, backend.config).store
  {
    match op
    case Offer(b, wall, fault) => var r := Delivery.Attempt(backend, b, wall, fault);
    case Tidy(wall, fault) => var r := Delivery.Upkeep(backend, wall, fault);
  }

  /** Where the importer stands: the history its backend is in, reached by allowed operations, is accurate. */
  ghost predicate Reached(src: Source, start: History, ops: seq<Operation>, h: History, c: Config) {
    h == ApplyAll(start, ops, c) && AllAllowed(src, ops) && ImportInv(src, h, c.policy) && Sound(h.store)
  }

  lemma ReachedMore(src: Source, start: History, ops: seq<Operation>, h: History, op: Operation, c: Config)
    requires ValidSource(src) && Reached(src, start, ops, h, c) && Allowed(src, op)
    ensures Reached(src, start, ops + [op], Apply(h, op, c), c)
  {
    hide Offered, Committed, Concerns;
    assert (ops + [op])[..|ops|] == ops;
    ApplyKeepsImport(src, h, op, c);
  }

  method Interfere(backend: SQLiteBackend.Backend, src: Source, rounds: seq<Round>, i: nat, ghost start: History,
                   ghost before: seq<Operation>, ghost h: History) returns (ghost ops: seq<Operation>, ghost after: History)
    requires ValidSource(src) && Reached(src, start, before, h, backend.config) && h.store == backend.State()
    requires i < |rounds| && Separate(rounds) && Unused(h, rounds, i) && AllAllowed(src, rounds[i].rivals)
    modifies backend
    ensures Reached(src, start, ops, after, backend.config) && after.store == backend.State() && Unused(after, rounds, i)
  {
    ops, after := before, h;
    for n := 0 to |rounds[i].rivals|
      invariant Reached(src, start, ops, after, backend.config) && after.store == backend.State() && Unused(after, rounds, i)
    {
      var op := rounds[i].rivals[n];
      ReachedMore(src, start, ops, after, op, backend.config);
      UnusedStays(after, op, rounds, i, backend.config);
      Perform(backend, op);
      ops, after := ops + [op], Apply(after, op, backend.config);
    }
  }

  /** An importer's state: what it last read or committed, or a fresh record if there was nothing. */
  ghost predicate Standing(src: Source, current: ImportRecord, prior: Option<ImportRecord>) {
    ReadState(src, prior) && (if prior.Some? then current == prior.value else current == Fresh(src, current.created, current.encoding))
  }

  lemma OfferingNext(src: Source, current: ImportRecord, prior: Option<ImportRecord>, content: Content)
    requires ValidSource(src) && Standing(src, current, prior) && Offering(src, current, prior) == Some(content)
    ensures Offered(src, content) && Concerns(src, content)
    ensures var next := content.checkpoint.value.record;
      !next.complete ==> Standing(src, next, Some(next)) && next.processed == current.processed + 1
  {
    assert OfferedFrom(src, prior, current.created, current.encoding, content);
    var n := current.processed;
    if prior.None? {
      assert current == At(src, current.created, current.encoding, 0, false);
    }
    NextAt(src, current.created, current.encoding, n);
    var next := content.checkpoint.value.record;
    if !next.complete {
      assert next == At(src, next.created, next.encoding, n + 1, false);
      assert ReadState(src, Some(next));
    }
  }

  /** Under an unused producer name success means this very batch was published now. */
  lemma FreshSuccess(h: History, b: Batch, wall: int, fault: Fault, c: Config)
    requires Consistent(h, c.policy) && CountOf(h.log, b.producer) == 0
    requires Outcome(h.store, Offer(b, wall, fault), c).Success?
    ensures Apply(h, Offer(b, wall, fault), c).store.imports == Checkpointed(h.store.imports, b.content)
  {
    var t := Clocked(h.store, wall);
    WriteOutcomes(h.store, b, wall, c);
    ClockKeepsLedger(h.log, h.store, wall, c.policy);
    assert b.producer !in t.producers;
    ClockedSound(h.store, wall);
    PublishEffect(t, b, t.meta.clock, c);
  }

  lemma AccurateRead(src: Source, h: History, p: Policy)
    requires ImportInv(src, h, p) && src.id in h.store.imports && !h.store.imports[src.id].record.complete
    ensures Standing(src, h.store.imports[src.id].record, Some(h.store.imports[src.id].record))
  {
    var record := h.store.imports[src.id].record;
    assert record == At(src, record.created, record.encoding, record.processed, false);
  }

  /** The first row after the cursor cannot be converted. */
  ghost predicate NextMalformed(rows: seq<Row>, cursor: Option<nat>) {
    exists i :: 0 <= i < |rows| && MalformedNext(rows, cursor, i)
  }

  ghost predicate MalformedNext(rows: seq<Row>, cursor: Option<nat>, i: nat)
    requires i < |rows|
  {
    && rows[i].conversion.Malformed? && (cursor.Some? ==> cursor.value < rows[i].key)
    && forall j :: 0 <= j < i ==> cursor.Some? && rows[j].key <= cursor.value
  }

  lemma NextConverts(src: Source, current: ImportRecord, prior: Option<ImportRecord>)
    requires ValidSource(src)
    ensures Offering(src, current, prior).None? <==> NextMalformed(src.rows, current.cursor)
  {
    var next := NextRow(src.rows, current.cursor);
    if next.Some? && src.rows[next.value].conversion.Malformed? {
      assert MalformedNext(src.rows, current.cursor, next.value);
    }
    if NextMalformed(src.rows, current.cursor) {
      var i :| 0 <= i < |src.rows| && MalformedNext(src.rows, current.cursor, i);
      assert next.Some? && next.value <= i;
      assert next.value == i;
    }
  }

  /** The last operation was a write that failed with this error. */
  ghost predicate FailedLast(start: History, ops: seq<Operation>, error: Error, c: Config) {
    ops != [] && ops[|ops| - 1].Offer?
    && Outcome(ApplyAll(start, ops[..|ops| - 1], c).store, ops[|ops| - 1], c) == Failure(error)
  }

  /** One commit of the importer. */
  method CommitRow(backend: SQLiteBackend.Backend, src: Source, current: ImportRecord, prior: Option<ImportRecord>, rounds: seq<Round>,
                   i: nat, ghost start: History, ghost before: seq<Operation>, ghost h: History)
    returns (r: Result<ImportRecord>, ghost ops: seq<Operation>, ghost after: History)
    requires ValidSource(src) && Reached(src, start, before, h, backend.config) && h.store == backend.State()
    requires i < |rounds| && Separate(rounds) && Unused(h, rounds, i) && Standing(src, current, prior)
    modifies backend
    ensures Reached(src, start, ops, after, backend.config) && after.store == backend.State() && Unused(after, rounds, i + 1)
    ensures r.Success? ==>
      && src.id in after.store.imports && after.store.imports[src.id].record == r.value
      && (!r.value.complete ==> Standing(src, r.value, Some(r.value)) && r.value.processed == current.processed + 1)
    ensures r.Failure? ==> (ops == before && NextMalformed(src.rows, current.cursor)) || FailedLast(start, ops, r.error, backend.config)
    ensures NextMalformed(src.rows, current.cursor) ==> r == Failure(Contract) && ops == before
    ensures !NextMalformed(src.rows, current.cursor) ==>
              && |ops| == |before| + 1 && ops[..|before|] == before && ops[|before|].Offer?
              && (r.Success? <==> Outcome(h.store, ops[|before|], backend.config).Success?)
  {
    ops, after := before, h;
    NextConverts(src, current, prior);
    var content := Offering(src, current, prior);
    if content.None? {
      return Failure(Contract), ops, after;
    }
    var b := Batch(rounds[i].producer, 1, content.value);
    ghost var op := Offer(b, rounds[i].wall, rounds[i].fault);
    OfferingNext(src, current, prior, content.value);
    ReachedMore(src, start, before, h, op, backend.config);
    UnusedStays(h, op, rounds, i + 1, backend.config);
    var receipt := Delivery.Attempt(backend, b, rounds[i].wall, rounds[i].fault);
    ops, after := before + [op], Apply(h, op, backend.config);
    assert ops[..|before|] == before;
    if receipt.Failure? {
      return Failure(receipt.error), ops, after;
    }
    FreshSuccess(h, b, rounds[i].wall, rounds[i].fault, backend.config);
    r := Success(content.value.checkpoint.value.record);
  }

  /**
    `import_legacy` for a dashboard archive: at most one row per round. A returned record is the durable one, and is
    complete or has advanced by exactly one row per round since it was read.
   */
  method ImportDashboard(backend: SQLiteBackend.Backend, src: Source, created: int, encoding: Text, rounds: seq<Round>, ghost start: History)
    returns (r: Result<ImportRecord>, ghost ops: seq<Operation>, ghost after: History)
    requires ValidSource(src) && ImportInv(src, start, backend.config.policy) && start.store == backend.State()
    requires rounds != [] && Separate(rounds) && Unused(start, rounds, 0)
    requires forall j :: 0 <= j < |rounds| ==> AllAllowed(src, rounds[j].rivals)
    modifies backend
    ensures Reached(src, start, ops, after, backend.config) && after.store == backend.State()
    ensures r.Success? ==> src.id in after.store.imports && after.store.imports[src.id].record == r.value
    ensures r.Success? ==> r.value.complete || r.value.processed == Progress(start.store.imports, src.id) + |rounds|
    ensures r.Failure? ==>
      || (src.id in start.store.imports && start.store.imports[src.id].record.encoding != encoding && ops == [])
      || FailedLast(start, ops, r.error, backend.config) || exists cursor :: NextMalformed(src.rows, cursor)
  {
    ops, after := [], start;
    var prior: Option<ImportRecord> := if src.id in backend.imports then Some(backend.imports[src.id].record) else None;
    if prior.Some? && prior.value.encoding != encoding {
      return Failure(Contract), ops, after;
    }
    if prior.Some? && prior.value.complete {
      return Success(prior.value), ops, after;
    }
    if prior.Some? {
      AccurateRead(src, start, backend.config.policy);
    }
    var current := if prior.Some? then prior.value else Fresh(src, created, encoding);
    for i := 0 to |rounds|
      invariant Reached(src, start, ops, after, backend.config) && after.store == backend.State() && Unused(after, rounds, i)
      invariant Standing(src, current, prior) && current.processed == Progress(start.store.imports, src.id) + i
      invariant i > 0 ==> src.id in after.store.imports && after.store.imports[src.id].record == current
    {
      ops, after := Interfere(backend, src, rounds, i, start, ops, after);
      r, ops, after := CommitRow(backend, src, current, prior, rounds, i, start, ops, after);
      if r.Failure? || r.value.complete {
        return;
      }
      current, prior := r.value, Some(r.value);
    }
    r := Success(current);
  }

  function Progress(imports: map<Text, ImportRow>, id: Text): nat {
    if id in imports then imports[id].record.processed else 0
  }
}
