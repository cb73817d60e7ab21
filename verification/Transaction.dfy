/** One write transaction: admission, watermark, checkpoint, retention, publication, capacity. */
module Transaction {
  import opened Wrappers
  import opened Totals
  import opened Tables
  import opened Rows
  import opened Prune

  datatype Receipt = Receipt(sequence: nat, duplicate: bool)

  /** The committed store and what the caller sees; a raised error commits nothing. */
  datatype Written = Written(store: Store, result: Result<Receipt>)

  // ---- admission, before the transaction ----------------------------------------------------------

  function Items(c: Content): nat {
    |c.contexts| + |c.sessions| + |c.profiles| + if c.checkpoint.Some? then 1 else 0
  }

  function ContextsBytes(entries: seq<ContextEntry>): nat {
    if entries == [] then 0
    else
      var last := entries[|entries| - 1];
      ContextsBytes(entries[..|entries| - 1])
      + last.body.size + (if last.layout.Some? then last.layout.value.content.body.size else 0) + 1024
  }

  function SessionsBytes(entries: seq<SessionEntry>): nat {
    if entries == [] then 0
    else SessionsBytes(entries[..|entries| - 1]) + entries[|entries| - 1].body.size + 1024
  }

  function ProfilesBytes(entries: seq<Aggregate>, c: Config): nat {
    if entries == [] then 0
    else ProfilesBytes(entries[..|entries| - 1], c) + c.profileBytes(entries[|entries| - 1]) + 1024
  }

  function ByteSize(content: Content, c: Config): nat {
    ContextsBytes(content.contexts) + SessionsBytes(content.sessions) + ProfilesBytes(content.profiles, c)
    + if content.checkpoint.Some? then content.checkpoint.value.bodyBytes + 1024 else 0
  }

  /** What the constructor of a batch enforces. */
  predicate ValidContent(c: Content) {
    && Items(c) > 0 && |c.contexts| <= 1024 && |c.sessions| <= 1024 && |c.profiles| <= 1024
    && (c.checkpoint.Some? ==> c.profiles == [] && Forward(c.checkpoint.value))
  }

  /** A checkpoint never expects more progress than it records. */
  predicate Forward(c: Checkpoint) {
    c.expected.Some? ==> c.expected.value <= c.record.processed
  }

  function ContextRefusal(e: ContextEntry, c: Config): Option<Error> {
    if e.identity + e.body.size + (if e.layout.Some? then LayoutSize(e.layout.value) else 0) > c.policy.contextBytes
    then Some(Backpressure)
    else if e.body.size > c.limits.maxContextBytes then Some(Contract)
    else if e.layout.Some? && e.layout.value.content.body.size > c.limits.layoutBytes then Some(Contract)
    else None
  }

  function SessionRefusal(e: SessionEntry, c: Config): Option<Error> {
    if SessionSize(e) > c.policy.sessionBytes then Some(Backpressure)
    else if e.body.size > c.limits.maxContextBytes then Some(Contract)
    else None
  }

  function ProfileRefusal(e: Aggregate, c: Config): Option<Error> {
    if c.profileBytes(e) + PROFILE_KEY_BYTES > c.policy.profileBytes || |e.profile.steps| > c.policy.profileSteps
    then Some(Backpressure)
    else if c.profileBytes(e) > c.limits.maxContextBytes then Some(Contract)
    else None
  }

  /** The first refusal in a sequence of entries. */
  function FirstRefusal<T>(entries: seq<T>, refusal: T -> Option<Error>): Option<Error> {
    if entries == [] then None
    else if refusal(entries[0]).Some? then refusal(entries[0])
    else FirstRefusal(entries[1..], refusal)
  }

  function Refusal(b: Batch, c: Config): Option<Error> {
    if Items(b.content) > c.limits.batchItems || ByteSize(b.content, c) > c.limits.batchBytes then Some(Backpressure)
    else
      var contexts := FirstRefusal(b.content.contexts, e => ContextRefusal(e, c));
      var sessions := FirstRefusal(b.content.sessions, e => SessionRefusal(e, c));
      var profiles := FirstRefusal(b.content.profiles, e => ProfileRefusal(e, c));
      if contexts.Some? then contexts
      else if sessions.Some? then sessions
      else if profiles.Some? then profiles
      else if b.content.checkpoint.Some? && b.content.checkpoint.value.bodyBytes > c.limits.maxContextBytes
      then Some(Contract)
      else None
  }

  // ---- the transaction ---------------------------------------------------------------------------

  function Max(a: int, b: int): int {
    if a < b then b else a
  }

  function Clocked(s: Store, wall: int): Store {
    s.(meta := s.meta.(clock := Max(wall, s.meta.clock)))
  }

  function Horizon(p: Policy): int {
    Micros(p.retryHorizon)
  }

  function Expiry(producer: Producer, p: Policy): int {
    producer.issued + Horizon(p)
  }

  /** The expected checkpoint must match and no completed or earlier evidence may be rewritten. */
  predicate CheckpointConflict(s: Store, content: Content) {
    content.checkpoint.Some? &&
    var c := content.checkpoint.value;
    var next := c.record;
    if next.id !in s.imports then c.expected.Some?
    else
      var prior := s.imports[next.id].record;
      || c.expected != Some(prior.processed)
      || prior.complete || prior.created != next.created || prior.encoding != next.encoding
      || prior.imported > next.imported || prior.unmatched > next.unmatched || prior.skipped > next.skipped
  }

  ghost function PutSessions(s: Store, entries: seq<SessionEntry>): Result<Store> {
    if entries == [] then Success(s)
    else
      var t :- PutSessions(s, entries[..|entries| - 1]);
      PutSession(t, entries[|entries| - 1])
  }

  ghost function PutContexts(s: Store, entries: seq<ContextEntry>): Result<Store> {
    if entries == [] then Success(s)
    else
      var t :- PutContexts(s, entries[..|entries| - 1]);
      PutContext(t, entries[|entries| - 1])
  }

  ghost function PutProfiles(s: Store, entries: seq<Aggregate>, now: int, c: Config): Result<Store> {
    if entries == [] then Success(s)
    else
      var t :- PutProfiles(s, entries[..|entries| - 1], now, c);
      PutProfile(t, entries[|entries| - 1], now, c)
  }

  ghost function PutContent(s: Store, content: Content, now: int, c: Config): Result<Store> {
    var a :- PutSessions(s, content.sessions);
    var b :- PutContexts(a, content.contexts);
    var d :- PutProfiles(b, content.profiles, now, c);
    if content.checkpoint.Some? then PutCheckpoint(d, content.checkpoint.value, c.policy) else Success(d)
  }

  /** Retention, then a watermark row for a new producer. */
  ghost function Registered(s: Store, b: Batch, now: int, c: Config): Result<Store> {
    var t := PruneAll(s, now, c.policy).store;
    if b.producer in s.producers then Success(t)
    else if t.meta.producers >= c.policy.producers then Failure(Backpressure)
    else Success(AddProducer(t, b.producer, Expiry(b.producer, c.policy)))
  }

  function Advanced(s: Store, b: Batch): Store {
    if b.producer in s.producers then Advance(s, b.producer, b.sequence, b.content) else s
  }

  /** The tail of a transaction: the second retention pass and the watermark advance. */
  ghost function Finished(s: Store, b: Batch, now: int, c: Config): Store {
    Advanced(PruneAll(s, now, c.policy).store, b)
  }

  /** What follows registration: the content, the second retention pass and the capacity test. */
  ghost function Filled(s: Store, b: Batch, now: int, c: Config): Result<Store> {
    var published :- PutContent(s, b.content, now, c);
    if WithinBounds(PruneAll(published, now, c.policy).store.meta, c.policy) then Success(Finished(published, b, now, c))
    else Failure(Backpressure)
  }

  ghost function Publish(s: Store, b: Batch, now: int, c: Config): Result<Store> {
    var registered :- Registered(s, b, now, c);
    Filled(registered, b, now, c)
  }

  /** A batch outside [issued, issued + horizon) is refused whatever the ledger says. */
  predicate OutsideHorizon(b: Batch, now: int, p: Policy) {
    b.producer.issued > now || Expiry(b.producer, p) <= now
  }

  predicate Covered(s: Store, b: Batch) {
    b.producer in s.producers && b.sequence <= s.producers[b.producer].sequence
  }

  predicate Conflicting(s: Store, b: Batch) {
    b.producer in s.producers && b.sequence == s.producers[b.producer].sequence
    && s.producers[b.producer].digest != Some(b.content)
  }

  function ExpectedSequence(s: Store, producer: Producer): nat {
    if producer in s.producers then s.producers[producer].sequence + 1 else 1
  }

  ghost function Transact(s: Store, b: Batch, wall: int, c: Config): Written {
    var t := Clocked(s, wall);
    var now := t.meta.clock;
    if OutsideHorizon(b, now, c.policy) || Conflicting(t, b) then Written(s, Failure(Contract))
    else if Covered(t, b) then Written(t, Success(Receipt(b.sequence, true)))
    else if b.sequence != ExpectedSequence(t, b.producer) || CheckpointConflict(t, b.content)
    then Written(s, Failure(Contract))
    else
      match Publish(t, b, now, c)
      case Failure(error) => Written(s, Failure(error))
      case Success(u) => Written(u, Success(Receipt(b.sequence, false)))
  }

  ghost function WriteBatch(s: Store, b: Batch, wall: int, c: Config): Written {
    match Refusal(b, c)
    case Some(error) => Written(s, Failure(error))
    case None => Transact(s, b, wall, c)
  }

  /** `maintain`: one retention pass of its own, refused when the bounds still do not hold. */
  ghost function Maintain(s: Store, wall: int, c: Config): Written {
    var t := Clocked(s, wall);
    var u := PruneAll(t, t.meta.clock, c.policy).store;
    if WithinBounds(u.meta, c.policy) then Written(u, Success(Receipt(0, false))) else Written(s, Failure(Backpressure))
  }

  // ---- soundness -------------------------------------------------------------------------------

  lemma {:induction false} PutSessionsSound(s: Store, entries: seq<SessionEntry>)
    requires Sound(s) && PutSessions(s, entries).Success?
    ensures Sound(PutSessions(s, entries).value)
  {
    if entries != [] {
      PutSessionsSound(s, entries[..|entries| - 1]);
      PutSessionSound(PutSessions(s, entries[..|entries| - 1]).value, entries[|entries| - 1]);
    }
  }

  lemma {:induction false} PutContextsSound(s: Store, entries: seq<ContextEntry>)
    requires Sound(s) && PutContexts(s, entries).Success?
    ensures Sound(PutContexts(s, entries).value)
  {
    if entries != [] {
      PutContextsSound(s, entries[..|entries| - 1]);
      PutContextSound(PutContexts(s, entries[..|entries| - 1]).value, entries[|entries| - 1]);
    }
  }

  lemma {:induction false} PutProfilesSound(s: Store, entries: seq<Aggregate>, now: int, c: Config)
    requires Sound(s) && PutProfiles(s, entries, now, c).Success?
    ensures Sound(PutProfiles(s, entries, now, c).value)
  {
    if entries != [] {
      PutProfilesSound(s, entries[..|entries| - 1], now, c);
      PutProfileSound(PutProfiles(s, entries[..|entries| - 1], now, c).value, entries[|entries| - 1], now, c);
    }
  }

  lemma PutContentSound(s: Store, content: Content, now: int, c: Config)
    requires Sound(s) && PutContent(s, content, now, c).Success?
    ensures Sound(PutContent(s, content, now, c).value)
  {
    PutSessionsSound(s, content.sessions);
    var a := PutSessions(s, content.sessions).value;
    PutContextsSound(a, content.contexts);
    var b := PutContexts(a, content.contexts).value;
    PutProfilesSound(b, content.profiles, now, c);
    if content.checkpoint.Some? {
      PutCheckpointSound(PutProfiles(b, content.profiles, now, c).value, content.checkpoint.value, c.policy);
    }
  }

  lemma WatermarkSound(s: Store, t: Store, producer: Producer, expires: int)
    requires Sound(t) && Submap(t.producers, s.producers) && producer !in s.producers
    ensures Sound(AddProducer(t, producer, expires))
  {
    AddProducerSound(t, producer, expires);
  }

  lemma PassKeepsWatermarks(s: Store, now: int, p: Policy)
    requires Sound(s)
    ensures Submap(PruneAll(s, now, p).store.producers, s.producers)
  {
    PruneRetains(s, now, p);
  }

  lemma NewWatermarkSound(s: Store, producer: Producer, now: int, c: Config)
    requires Sound(s) && producer !in s.producers
    ensures Sound(AddProducer(PruneAll(s, now, c.policy).store, producer, Expiry(producer, c.policy)))
  {
    PruneSound(s, now, c.policy);
    PassKeepsWatermarks(s, now, c.policy);
    WatermarkSound(s, PruneAll(s, now, c.policy).store, producer, Expiry(producer, c.policy));
  }

  lemma RegisteredSound(s: Store, b: Batch, now: int, c: Config)
    requires Sound(s) && Registered(s, b, now, c).Success?
    ensures Sound(Registered(s, b, now, c).value)
  {
    var t := PruneAll(s, now, c.policy).store;
    if b.producer in s.producers {
      assert Registered(s, b, now, c).value == t;
      PruneSound(s, now, c.policy);
    } else {
      assert Registered(s, b, now, c).value == AddProducer(t, b.producer, Expiry(b.producer, c.policy));
      NewWatermarkSound(s, b.producer, now, c);
    }
  }

  lemma FinishedSound(s: Store, b: Batch, now: int, c: Config)
    requires Sound(s)
    ensures Sound(Finished(s, b, now, c))
  {
    PruneSound(s, now, c.policy);
    var retained := PruneAll(s, now, c.policy).store;
    if b.producer in retained.producers {
      AdvanceSound(retained, b.producer, b.sequence, b.content);
    }
  }

  lemma FilledSound(s: Store, b: Batch, now: int, c: Config)
    requires Sound(s) && Filled(s, b, now, c).Success?
    ensures Sound(Filled(s, b, now, c).value)
  {
    PutContentSound(s, b.content, now, c);
    FinishedSound(PutContent(s, b.content, now, c).value, b, now, c);
  }

  lemma PublishSound(s: Store, b: Batch, now: int, c: Config)
    requires Sound(s) && Publish(s, b, now, c).Success?
    ensures Sound(Publish(s, b, now, c).value)
  {
    RegisteredSound(s, b, now, c);
    FilledSound(Registered(s, b, now, c).value, b, now, c);
  }

  lemma ClockedSound(s: Store, wall: int)
    requires Sound(s)
    ensures Sound(Clocked(s, wall))
  {
    SoundParts(s);
    SoundWhole(Clocked(s, wall));
  }

  lemma TransactKeepsSound(s: Store, t: Store, b: Batch, c: Config)
    requires Sound(t)
    ensures Publish(t, b, t.meta.clock, c).Success? ==> Sound(Publish(t, b, t.meta.clock, c).value)
  {
    if Publish(t, b, t.meta.clock, c).Success? {
      PublishSound(t, b, t.meta.clock, c);
    }
  }

  /** Every outcome of a write is the old store, the clocked store, or a publication on the clocked store. */
  lemma WriteOutcomes(s: Store, b: Batch, wall: int, c: Config)
    ensures var w, t := WriteBatch(s, b, wall, c), Clocked(s, wall);
      || (w.result.Failure? && w.store == s)
      || (w.result == Success(Receipt(b.sequence, true)) && w.store == t && Covered(t, b) && !Conflicting(t, b)
          && !OutsideHorizon(b, t.meta.clock, c.policy))
      || (w.result == Success(Receipt(b.sequence, false)) && Publish(t, b, t.meta.clock, c) == Success(w.store)
          && !Covered(t, b) && b.sequence == ExpectedSequence(t, b.producer)
          && !OutsideHorizon(b, t.meta.clock, c.policy) && !CheckpointConflict(t, b.content))
  {
  }

  /** Whatever a write does, and whether or not it raises, the committed state stays sound. */
  lemma WriteKeepsSound(s: Store, b: Batch, wall: int, c: Config)
    requires Sound(s)
    ensures Sound(WriteBatch(s, b, wall, c).store)
  {
    WriteOutcomes(s, b, wall, c);
    ClockedSound(s, wall);
    TransactKeepsSound(s, Clocked(s, wall), b, c);
  }

  lemma MaintainKeepsSound(s: Store, wall: int, c: Config)
    requires Sound(s)
    ensures Sound(Maintain(s, wall, c).store)
  {
    ClockedSound(s, wall);
    PruneSound(Clocked(s, wall), Clocked(s, wall).meta.clock, c.policy);
  }
}
