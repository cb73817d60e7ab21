/** What one publication or one removal does to the tables; each keeps the committed state sound. */
module Rows {
  import opened Wrappers
  import opened Totals
  import opened Tables
  import Timing

  // ---- sessions ------------------------------------------------------------------------------

  function NewSessionRow(e: SessionEntry, publication: nat): SessionRow {
    SessionRow(e.header, publication, 0, SessionSize(e), StartupOf(e), SessionDigest(e.header, e.body))
  }

  /** The only change a stored session accepts is its shutdown. */
  function ShutSessionRow(row: SessionRow, e: SessionEntry, publication: nat): SessionRow {
    row.(header := row.header.(shutdown := e.header.shutdown), publication := publication,
         nbytes := SessionSize(e), digest := SessionDigest(e.header, e.body))
  }

  predicate MayShut(row: SessionRow, e: SessionEntry) {
    row.startup == StartupOf(e) && row.header.shutdown.None? && e.header.shutdown.Some?
  }

  function StoreSession(s: Store, id: Text, row: SessionRow): Store {
    var isNew := id !in s.sessions;
    var bytes := row.nbytes - (if isNew then 0 else s.sessions[id].nbytes);
    Store(s.meta.(publication := row.publication, sessions := s.meta.sessions + (if isNew then 1 else 0),
                  sessionBytes := s.meta.sessionBytes + bytes),
          s.sessions[id := row], s.layouts, s.contexts, s.profiles, s.producers, s.imports)
  }

  function PutSession(s: Store, e: SessionEntry): Result<Store> {
    var id, publication := e.header.id, s.meta.publication + 1;
    if id !in s.sessions then Success(StoreSession(s, id, NewSessionRow(e, publication)))
    else if s.sessions[id].digest == SessionDigest(e.header, e.body) then Success(s)
    else if !MayShut(s.sessions[id], e) then Failure(Contract)
    else Success(StoreSession(s, id, ShutSessionRow(s.sessions[id], e, publication)))
  }

  lemma StoreSessionAccounted(s: Store, id: Text, row: SessionRow)
    requires Accounted(s)
    ensures Accounted(StoreSession(s, id, row))
  {
    TallyPut(s.meta.sessions, s.meta.sessionBytes, s.sessions, SessionBytes(), id, row);
  }

  lemma StoreSessionRelated(s: Store, id: Text, row: SessionRow)
    requires Related(s) && row.header.id == id && row.publication == s.meta.publication + 1
    requires row.refs == if id in s.sessions then s.sessions[id].refs else 0
    ensures Related(StoreSession(s, id, row))
  {
    SessionRefsPut(s.sessions, s.contexts, id, row);
    PublishedSession(s.meta.publication, s.contexts, s.sessions, s.profiles, id, row);
    SessionKeysPut(s.sessions, id, row);
  }

  lemma StoreSessionSound(s: Store, id: Text, row: SessionRow)
    requires Sound(s) && row.header.id == id && row.publication == s.meta.publication + 1
    requires row.refs == if id in s.sessions then s.sessions[id].refs else 0
    ensures Sound(StoreSession(s, id, row))
  {
    SoundParts(s);
    StoreSessionAccounted(s, id, row);
    StoreSessionRelated(s, id, row);
    SoundWhole(StoreSession(s, id, row));
  }

  lemma PutSessionSound(s: Store, e: SessionEntry)
    requires Sound(s) && PutSession(s, e).Success?
    ensures Sound(PutSession(s, e).value)
  {
    var id, publication := e.header.id, s.meta.publication + 1;
    if id !in s.sessions {
      StoreSessionSound(s, id, NewSessionRow(e, publication));
    } else if MayShut(s.sessions[id], e) {
      assert s.sessions[id].header.id == id by { SoundParts(s); }
      StoreSessionSound(s, id, ShutSessionRow(s.sessions[id], e, publication));
    }
  }

  // ---- contexts ------------------------------------------------------------------------------

  function NewContextRow(e: ContextEntry, publication: nat): ContextRow {
    var schema := if e.layout.Some? then Some(e.layout.value.content.schema) else e.header.schema;
    ContextRow(e.header.(schema := schema), publication, LayoutKey(e), ContextSize(e), DigestOf(e))
  }

  predicate Known(s: Store, e: ContextEntry) {
    exists p :: p in s.contexts && SameContext(s.contexts[p].header, e.header)
  }

  predicate KnownAs(s: Store, e: ContextEntry) {
    exists p :: p in s.contexts && SameContext(s.contexts[p].header, e.header) && s.contexts[p].digest == DigestOf(e)
  }

  /** The stored layout under this key, if any, has other content. */
  predicate LayoutConflict(layouts: map<Text, LayoutRow>, e: ContextEntry) {
    e.layout.Some? && e.layout.value.key in layouts && layouts[e.layout.value.key].content != e.layout.value.content
  }

  predicate NewLayout(layouts: map<Text, LayoutRow>, e: ContextEntry) {
    e.layout.Some? && e.layout.value.key !in layouts
  }

  /** Insert the layout row if its key is new, then count one more reference. */
  function AddLayout(layouts: map<Text, LayoutRow>, e: ContextEntry): map<Text, LayoutRow> {
    if e.layout.None? then layouts
    else
      var l := e.layout.value;
      var row := if l.key in layouts then layouts[l.key] else LayoutRow(l.content, 0, LayoutSize(l));
      layouts[l.key := row.(refs := row.refs + 1)]
  }

  function InsertContext(s: Store, e: ContextEntry): Store
    requires e.header.session in s.sessions
  {
    var id, publication := e.header.session, s.meta.publication + 1;
    var added := NewLayout(s.layouts, e);
    var bytes := if added then LayoutSize(e.layout.value) else 0;
    Store(s.meta.(publication := publication, contexts := s.meta.contexts + 1,
                  contextBytes := s.meta.contextBytes + ContextSize(e),
                  layouts := s.meta.layouts + (if added then 1 else 0), layoutBytes := s.meta.layoutBytes + bytes),
          s.sessions[id := s.sessions[id].(refs := s.sessions[id].refs + 1)], AddLayout(s.layouts, e),
          s.contexts[publication := NewContextRow(e, publication)], s.profiles, s.producers, s.imports)
  }

  /** A context already stored must be identical; a missing session breaks the foreign key. */
  function PutContext(s: Store, e: ContextEntry): Result<Store> {
    if Known(s, e) then
      if KnownAs(s, e) then Success(s) else Failure(Contract)
    else if LayoutConflict(s.layouts, e) || e.header.session !in s.sessions then Failure(Contract)
    else Success(InsertContext(s, e))
  }

  lemma AddLayoutTally(count: int, bytes: int, layouts: map<Text, LayoutRow>, e: ContextEntry)
    requires Tally(count, bytes, layouts, LayoutBytes())
    ensures Tally(count + (if NewLayout(layouts, e) then 1 else 0),
                  bytes + (if NewLayout(layouts, e) then LayoutSize(e.layout.value) else 0),
                  AddLayout(layouts, e), LayoutBytes())
  {
    if e.layout.Some? {
      var key := e.layout.value.key;
      TallyPut(count, bytes, layouts, LayoutBytes(), key, AddLayout(layouts, e)[key]);
    }
  }

  lemma InsertContextTally(s: Store, e: ContextEntry)
    requires Tally(s.meta.contexts, s.meta.contextBytes, s.contexts, ContextBytes())
    requires e.header.session in s.sessions && s.meta.publication + 1 !in s.contexts
    ensures var t := InsertContext(s, e); Tally(t.meta.contexts, t.meta.contextBytes, t.contexts, ContextBytes())
  {
    var publication: nat := s.meta.publication + 1;
    TallyPut(s.meta.contexts, s.meta.contextBytes, s.contexts, ContextBytes(), publication, NewContextRow(e, publication));
  }

  lemma InsertContextOwner(s: Store, e: ContextEntry)
    requires Tally(s.meta.sessions, s.meta.sessionBytes, s.sessions, SessionBytes())
    requires e.header.session in s.sessions
    ensures var t := InsertContext(s, e); Tally(t.meta.sessions, t.meta.sessionBytes, t.sessions, SessionBytes())
  {
    var id := e.header.session;
    TallyPut(s.meta.sessions, s.meta.sessionBytes, s.sessions, SessionBytes(), id,
             s.sessions[id].(refs := s.sessions[id].refs + 1));
  }

  lemma InsertContextLayoutTally(s: Store, e: ContextEntry)
    requires Tally(s.meta.layouts, s.meta.layoutBytes, s.layouts, LayoutBytes())
    requires e.header.session in s.sessions
    ensures var t := InsertContext(s, e); Tally(t.meta.layouts, t.meta.layoutBytes, t.layouts, LayoutBytes())
  {
    AddLayoutTally(s.meta.layouts, s.meta.layoutBytes, s.layouts, e);
  }

  lemma InsertContextAccounted(s: Store, e: ContextEntry)
    requires Accounted(s) && e.header.session in s.sessions && s.meta.publication + 1 !in s.contexts
    ensures Accounted(InsertContext(s, e))
  {
    InsertContextTally(s, e);
    InsertContextOwner(s, e);
    InsertContextLayoutTally(s, e);
  }

  lemma InsertContextLayouts(s: Store, e: ContextEntry)
    requires LayoutRefs(s.layouts, s.contexts)
    requires e.header.session in s.sessions && s.meta.publication + 1 !in s.contexts
    ensures LayoutRefs(InsertContext(s, e).layouts, InsertContext(s, e).contexts)
  {
    hide LayoutRefs;
    LayoutRefsAdd(s.layouts, s.contexts, s.meta.publication + 1, NewContextRow(e, s.meta.publication + 1));
  }

  lemma InsertContextSessions(s: Store, e: ContextEntry)
    requires SessionRefs(s.sessions, s.contexts) && SessionKeys(s.sessions)
    requires e.header.session in s.sessions && s.meta.publication + 1 !in s.contexts
    ensures SessionRefs(InsertContext(s, e).sessions, InsertContext(s, e).contexts)
    ensures SessionKeys(InsertContext(s, e).sessions)
  {
    var id := e.header.session;
    SessionRefsAdd(s.sessions, s.contexts, s.meta.publication + 1, NewContextRow(e, s.meta.publication + 1));
    SessionKeysPut(s.sessions, id, InsertContext(s, e).sessions[id]);
  }

  lemma InsertContextPublished(s: Store, e: ContextEntry)
    requires Published(s.meta.publication, s.contexts, s.sessions, s.profiles) && e.header.session in s.sessions
    ensures var t := InsertContext(s, e); Published(t.meta.publication, t.contexts, t.sessions, t.profiles)
  {
    var id, last := e.header.session, s.meta.publication;
    var row := NewContextRow(e, last + 1);
    PublishedContext(last, s.contexts, s.sessions, s.profiles, row);
    PublishedRefs(last + 1, s.contexts[last + 1 := row], s.sessions, s.profiles, id, s.sessions[id].refs + 1);
  }

  lemma InsertContextRelated(s: Store, e: ContextEntry)
    requires Related(s) && e.header.session in s.sessions && !Known(s, e)
    ensures Related(InsertContext(s, e)) && s.meta.publication + 1 !in s.contexts
  {
    InsertContextLayouts(s, e);
    InsertContextSessions(s, e);
    InsertContextPublished(s, e);
    ContextKeysPut(s.contexts, s.meta.publication + 1, NewContextRow(e, s.meta.publication + 1));
  }

  lemma PutContextSound(s: Store, e: ContextEntry)
    requires Sound(s) && PutContext(s, e).Success?
    ensures Sound(PutContext(s, e).value)
  {
    if !Known(s, e) {
      SoundParts(s);
      InsertContextRelated(s, e);
      InsertContextAccounted(s, e);
      SoundWhole(InsertContext(s, e));
    }
  }

  // ---- timing profiles -------------------------------------------------------------------------

  predicate ProfileInRange(p: Timing.Profile) {
    && p.runs < Timing.COUNT_LIMIT && Timing.InRange(p.graph)
    && forall i :: 0 <= i < |p.steps| ==> Timing.InRange(p.steps[i])
  }

  /** The row after adding a delta: the delta itself, or its merge into the stored aggregate. */
  function MergedProfile(s: Store, delta: Aggregate): Result<Timing.Profile> {
    if delta.key !in s.profiles then Success(delta.profile)
    else
      var prior := s.profiles[delta.key].profile;
      if |prior.steps| != |delta.profile.steps| then Failure(Contract)
      else
        var merged := Timing.MergeProfiles(prior, delta.profile);
        if ProfileInRange(merged) then Success(merged) else Failure(Contract)
  }

  function PutProfile(s: Store, delta: Aggregate, now: int, c: Config): Result<Store> {
    var merged :- MergedProfile(s, delta);
    var body := c.profileBytes(Aggregate(delta.key, merged));
    var size := body + PROFILE_KEY_BYTES;
    if body > c.limits.maxContextBytes then Failure(Contract)
    else if size > c.policy.profileBytes then Failure(Backpressure)
    else
      var publication, isNew := s.meta.publication + 1, delta.key !in s.profiles;
      var steps := if isNew then |merged.steps| else s.profiles[delta.key].steps;
      var row := ProfileRow(merged, now, publication, steps, size);
      Success(s.(profiles := s.profiles[delta.key := row],
                 meta := s.meta.(publication := publication,
                                 profiles := s.meta.profiles + (if isNew then 1 else 0),
                                 profileBytes := s.meta.profileBytes + size - (if isNew then 0 else s.profiles[delta.key].nbytes),
                                 profileSteps := s.meta.profileSteps + (if isNew then |merged.steps| else 0))))
  }

  lemma PutProfileAccounted(s: Store, delta: Aggregate, now: int, c: Config)
    requires Accounted(s) && ProfileKeys(s.profiles) && PutProfile(s, delta, now, c).Success?
    ensures Accounted(PutProfile(s, delta, now, c).value)
  {
    var row := PutProfile(s, delta, now, c).value.profiles[delta.key];
    TallyPut(s.meta.profiles, s.meta.profileBytes, s.profiles, ProfileBytes(), delta.key, row);
    TallyPut(s.meta.profiles, s.meta.profileSteps, s.profiles, ProfileSteps(), delta.key, row);
  }

  lemma PutProfileRelated(s: Store, delta: Aggregate, now: int, c: Config)
    requires Related(s) && PutProfile(s, delta, now, c).Success?
    ensures Related(PutProfile(s, delta, now, c).value)
  {
    var row := PutProfile(s, delta, now, c).value.profiles[delta.key];
    PublishedProfile(s.meta.publication, s.contexts, s.sessions, s.profiles, delta.key, row);
    ProfileKeysPut(s.profiles, delta.key, row);
  }

  lemma PutProfileSound(s: Store, delta: Aggregate, now: int, c: Config)
    requires Sound(s) && PutProfile(s, delta, now, c).Success?
    ensures Sound(PutProfile(s, delta, now, c).value)
  {
    SoundParts(s);
    PutProfileAccounted(s, delta, now, c);
    PutProfileRelated(s, delta, now, c);
    SoundWhole(PutProfile(s, delta, now, c).value);
  }

  // ---- import checkpoints ------------------------------------------------------------------------

  function PutCheckpoint(s: Store, c: Checkpoint, p: Policy): Result<Store> {
    var id, size := c.record.id, CheckpointSize(c);
    var isNew := id !in s.imports;
    var bytes := s.meta.importBytes + size - (if isNew then 0 else s.imports[id].nbytes);
    var count := s.meta.imports + (if isNew then 1 else 0);
    if count > p.imports || bytes > p.importBytes then Failure(Backpressure)
    else Success(s.(imports := s.imports[id := ImportRow(c.record, size)],
                    meta := s.meta.(imports := count, importBytes := bytes)))
  }

  lemma PutCheckpointAccounted(s: Store, c: Checkpoint, p: Policy)
    requires Accounted(s) && PutCheckpoint(s, c, p).Success?
    ensures Accounted(PutCheckpoint(s, c, p).value)
  {
    var t := PutCheckpoint(s, c, p).value;
    TallyPut(s.meta.imports, s.meta.importBytes, s.imports, ImportBytes(), c.record.id, t.imports[c.record.id]);
  }

  lemma PutCheckpointSound(s: Store, c: Checkpoint, p: Policy)
    requires Sound(s) && PutCheckpoint(s, c, p).Success?
    ensures Sound(PutCheckpoint(s, c, p).value)
  {
    SoundParts(s);
    PutCheckpointAccounted(s, c, p);
    ImportKeysPut(s.imports, c.record.id, PutCheckpoint(s, c, p).value.imports[c.record.id]);
    SoundWhole(PutCheckpoint(s, c, p).value);
  }

  // ---- removals ------------------------------------------------------------------------------

  /** Delete one context row, drop its references, and delete a layout nobody references any more. */
  function RemoveContext(s: Store, publication: nat): Store
    requires Removable(s, publication)
  {
    var row := s.contexts[publication];
    var id := row.header.session;
    var last := LastUse(s.layouts, row.layoutKey);
    var freed := if last then s.layouts[row.layoutKey.value].nbytes else 0;
    Store(s.meta.(contexts := s.meta.contexts - 1, contextBytes := s.meta.contextBytes - row.nbytes,
                  layouts := s.meta.layouts - (if last then 1 else 0), layoutBytes := s.meta.layoutBytes - freed),
          s.sessions[id := s.sessions[id].(refs := s.sessions[id].refs - 1)], DropLayout(s.layouts, row.layoutKey),
          s.contexts - {publication}, s.profiles, s.producers, s.imports)
  }

  predicate Removable(s: Store, publication: nat) {
    && publication in s.contexts && s.contexts[publication].header.session in s.sessions
    && (s.contexts[publication].layoutKey.Some? ==> s.contexts[publication].layoutKey.value in s.layouts)
  }

  lemma RemoveContextAccounted(s: Store, publication: nat)
    requires Accounted(s) && Removable(s, publication)
    ensures Accounted(RemoveContext(s, publication))
  {
    var t := RemoveContext(s, publication);
    var row := s.contexts[publication];
    TallyRemove(s.meta.contexts, s.meta.contextBytes, s.contexts, ContextBytes(), publication);
    TallyPut(s.meta.sessions, s.meta.sessionBytes, s.sessions, SessionBytes(), row.header.session, t.sessions[row.header.session]);
    DropLayoutTally(s.meta.layouts, s.meta.layoutBytes, s.layouts, row.layoutKey);
  }

  lemma DropLayoutTally(count: int, bytes: int, layouts: map<Text, LayoutRow>, key: Option<Text>)
    requires Tally(count, bytes, layouts, LayoutBytes()) && (key.Some? ==> key.value in layouts)
    ensures var last := LastUse(layouts, key);
      Tally(count - (if last then 1 else 0), bytes - (if last then layouts[key.value].nbytes else 0),
            DropLayout(layouts, key), LayoutBytes())
  {
    if key.Some? {
      if LastUse(layouts, key) {
        TallyRemove(count, bytes, layouts, LayoutBytes(), key.value);
      } else {
        TallyPut(count, bytes, layouts, LayoutBytes(), key.value, DropLayout(layouts, key)[key.value]);
      }
    }
  }

  lemma RemoveContextSessions(s: Store, publication: nat)
    requires SessionRefs(s.sessions, s.contexts) && SessionKeys(s.sessions) && Removable(s, publication)
    ensures var t := RemoveContext(s, publication); SessionRefs(t.sessions, t.contexts) && SessionKeys(t.sessions)
  {
    var t := RemoveContext(s, publication);
    var id := s.contexts[publication].header.session;
    SessionRefsDrop(s.sessions, s.contexts, publication);
    SessionKeysPut(s.sessions, id, t.sessions[id]);
  }

  lemma RemoveContextLayouts(s: Store, publication: nat)
    requires LayoutRefs(s.layouts, s.contexts) && Removable(s, publication)
    ensures LayoutRefs(RemoveContext(s, publication).layouts, RemoveContext(s, publication).contexts)
  {
    LayoutRefsDrop(s.layouts, s.contexts, publication);
  }

  lemma RemoveContextPublished(s: Store, publication: nat)
    requires Published(s.meta.publication, s.contexts, s.sessions, s.profiles) && Removable(s, publication)
    ensures var t := RemoveContext(s, publication); Published(t.meta.publication, t.contexts, t.sessions, t.profiles)
  {
    var id := s.contexts[publication].header.session;
    PublishedLessContext(s.meta.publication, s.contexts, s.sessions, s.profiles, publication);
    PublishedRefs(s.meta.publication, s.contexts - {publication}, s.sessions, s.profiles, id, s.sessions[id].refs - 1);
  }

  lemma RemoveContextRelated(s: Store, publication: nat)
    requires Related(s) && Removable(s, publication)
    ensures Related(RemoveContext(s, publication))
  {
    RemoveContextLayouts(s, publication);
    RemoveContextSessions(s, publication);
    RemoveContextPublished(s, publication);
    ContextKeysLess(s.contexts, publication);
  }

  lemma RemoveContextSound(s: Store, publication: nat)
    requires Sound(s) && publication in s.contexts
    ensures Removable(s, publication) && Sound(RemoveContext(s, publication))
  {
    SoundParts(s);
    RemoveContextAccounted(s, publication);
    RemoveContextRelated(s, publication);
    SoundWhole(RemoveContext(s, publication));
  }

  function RemoveProfile(s: Store, key: ProfileKey): Store
    requires key in s.profiles
  {
    var row := s.profiles[key];
    s.(profiles := s.profiles - {key},
       meta := s.meta.(profiles := s.meta.profiles - 1, profileBytes := s.meta.profileBytes - row.nbytes,
                       profileSteps := s.meta.profileSteps - row.steps))
  }

  lemma RemoveProfileAccounted(s: Store, key: ProfileKey)
    requires Accounted(s) && key in s.profiles
    ensures Accounted(RemoveProfile(s, key))
  {
    TallyRemove(s.meta.profiles, s.meta.profileBytes, s.profiles, ProfileBytes(), key);
    TallyRemove(s.meta.profiles, s.meta.profileSteps, s.profiles, ProfileSteps(), key);
  }

  lemma RemoveProfileRelated(s: Store, key: ProfileKey)
    requires Related(s) && key in s.profiles
    ensures Related(RemoveProfile(s, key))
  {
    PublishedLessProfile(s.meta.publication, s.contexts, s.sessions, s.profiles, key);
  }

  lemma RemoveProfileSound(s: Store, key: ProfileKey)
    requires Sound(s) && key in s.profiles
    ensures Sound(RemoveProfile(s, key))
  {
    SoundParts(s);
    RemoveProfileAccounted(s, key);
    RemoveProfileRelated(s, key);
    SoundWhole(RemoveProfile(s, key));
  }

  function RemoveSession(s: Store, id: Text): Store
    requires id in s.sessions
  {
    s.(sessions := s.sessions - {id},
       meta := s.meta.(sessions := s.meta.sessions - 1, sessionBytes := s.meta.sessionBytes - s.sessions[id].nbytes))
  }

  lemma RemoveSessionAccounted(s: Store, id: Text)
    requires Accounted(s) && id in s.sessions
    ensures Accounted(RemoveSession(s, id))
  {
    TallyRemove(s.meta.sessions, s.meta.sessionBytes, s.sessions, SessionBytes(), id);
  }

  /** An unreferenced session can go: by the exact reference count no stored context belongs to it. */
  lemma RemoveSessionRelated(s: Store, id: Text)
    requires Related(s) && id in s.sessions && s.sessions[id].refs == 0
    ensures Related(RemoveSession(s, id))
    ensures forall p :: p in s.contexts ==> s.contexts[p].header.session != id
  {
    UnreferencedSession(s.sessions, s.contexts, id);
    PublishedLessSession(s.meta.publication, s.contexts, s.sessions, s.profiles, id);
  }

  lemma RemoveSessionSound(s: Store, id: Text)
    requires Sound(s) && id in s.sessions && s.sessions[id].refs == 0
    ensures Sound(RemoveSession(s, id))
  {
    SoundParts(s);
    RemoveSessionAccounted(s, id);
    RemoveSessionRelated(s, id);
    SoundWhole(RemoveSession(s, id));
  }

  function AddProducer(s: Store, p: Producer, expires: int): Store {
    s.(producers := s.producers[p := Watermark(s.meta.rows, expires, 0, None)],
       meta := s.meta.(producers := s.meta.producers + 1, rows := s.meta.rows + 1))
  }

  lemma RowOrderMore(rows: nat, producers: map<Producer, Watermark>, p: Producer, w: Watermark)
    requires RowOrder(rows, producers) && p !in producers && w.row == rows
    ensures RowOrder(rows + 1, producers[p := w])
  {
  }

  lemma RowOrderSame(rows: nat, producers: map<Producer, Watermark>, p: Producer, w: Watermark)
    requires RowOrder(rows, producers) && p in producers && w.row == producers[p].row
    ensures RowOrder(rows, producers[p := w])
  {
  }

  lemma AddProducerSound(s: Store, p: Producer, expires: int)
    requires Sound(s) && p !in s.producers
    ensures Sound(AddProducer(s, p, expires))
  {
    hide LayoutRefs, SessionRefs, Published, ContextKeys, SessionKeys, ProfileKeys, ImportKeys, RowOrder, Tally, Sound;
    var t := AddProducer(s, p, expires);
    SoundParts(s);
    RowsPut(s.producers, p, t.producers[p]);
    RowOrderMore(s.meta.rows, s.producers, p, t.producers[p]);
    SoundWhole(t);
  }

  function Advance(s: Store, p: Producer, sequence: nat, digest: Content): Store
    requires p in s.producers
  {
    s.(producers := s.producers[p := s.producers[p].(sequence := sequence, digest := Some(digest))])
  }

  lemma AdvanceSound(s: Store, p: Producer, sequence: nat, digest: Content)
    requires Sound(s) && p in s.producers
    ensures Sound(Advance(s, p, sequence, digest))
  {
    hide LayoutRefs, SessionRefs, Published, ContextKeys, SessionKeys, ProfileKeys, ImportKeys, RowOrder, Tally, Sound;
    SoundParts(s);
    var t := Advance(s, p, sequence, digest);
    RowsPut(s.producers, p, t.producers[p]);
    RowOrderSame(s.meta.rows, s.producers, p, t.producers[p]);
    SoundWhole(t);
  }
}
