/**
  The durable tables, the retention policy and the records offered to them.

  Bodies are opaque blobs with a size; a digest is the value it digests, so it is injective.
  Instants are microseconds since the epoch.
 */
module Tables {
  import opened Wrappers
  import opened Totals
  import Timing

  datatype Blob = Blob(token: int, size: nat)

  /** Identifiers and other text matter only up to equality and encoded length. */
  datatype Text = Text(token: int, size: nat)

  // ---- policy ------------------------------------------------------------------------------

  datatype Policy = Policy(
    contexts: nat, contextBytes: nat, contextAge: Option<real>,
    sessions: nat, sessionBytes: nat, sessionAge: Option<real>,
    profiles: nat, profileSteps: nat, profileBytes: nat, profileAge: Option<real>,
    producers: nat, retryHorizon: real, imports: nat, importBytes: nat)

  function Micros(seconds: real): int {
    (seconds * 1000000.0).Floor
  }

  function Cutoff(now: int, age: Option<real>): Option<int> {
    match age
    case None => None
    case Some(seconds) => Some(now - Micros(seconds))
  }

  datatype Limits = Limits(batchItems: nat, batchBytes: nat, maxContextBytes: nat, layoutBytes: nat,
                           pageItems: nat, pageBytes: nat)

  /** Body sizes of timing aggregates and headers depend on their text encoding, which is a parameter. */
  datatype Config = Config(policy: Policy, limits: Limits, profileBytes: Aggregate -> nat,
                           headerBytes: (ContextHeader, nat) -> nat)

  const MAINTENANCE_ITEMS: nat := 128

  // ---- records -----------------------------------------------------------------------------

  datatype LayoutContent = LayoutContent(graphId: Option<Text>, graphVersion: Option<Text>, schema: Text, body: Blob)

  /** `envelope` is the size of the layout's key and identity text. */
  datatype Layout = Layout(key: Text, content: LayoutContent, envelope: nat)

  function LayoutSize(l: Layout): nat {
    l.content.body.size + l.envelope
  }

  /** A context without a finalization time carries its capture time; `at` is the retention time. */
  datatype Stamp = Finalized(at: int, captured: Option<int>) | Captured(at: int)

  datatype ContextHeader = ContextHeader(
    session: Text, context: Text, graphId: Option<Text>, graphVersion: Option<Text>,
    outcome: Text, stamp: Stamp, schema: Option<Text>)

  datatype ContextEntry = ContextEntry(header: ContextHeader, body: Blob, layout: Option<Layout>, identity: nat)

  datatype ContextDigest = ContextDigest(header: ContextHeader, layoutKey: Option<Text>, body: Blob)

  function LayoutKey(e: ContextEntry): Option<Text> {
    if e.layout.Some? then Some(e.layout.value.key) else None
  }

  function ContextSize(e: ContextEntry): nat {
    e.body.size + e.identity
  }

  function DigestOf(e: ContextEntry): ContextDigest {
    ContextDigest(e.header, LayoutKey(e), e.body)
  }

  datatype SessionHeader = SessionHeader(
    id: Text, started: Option<int>, engineName: Option<Text>, engineId: Option<Text>, shutdown: Option<int>)

  datatype SessionEntry = SessionEntry(header: SessionHeader, settings: Blob, environment: Blob, body: Blob, identity: nat)

  datatype SessionStartup = SessionStartup(header: SessionHeader, settings: Blob, environment: Blob)

  datatype SessionDigest = SessionDigest(header: SessionHeader, body: Blob)

  function SessionSize(e: SessionEntry): nat {
    e.body.size + e.identity
  }

  function StartupOf(e: SessionEntry): SessionStartup {
    SessionStartup(e.header.(shutdown := None), e.settings, e.environment)
  }

  datatype ProfileKey = ProfileKey(graphId: Text, graphVersion: Text, configuration: Text, compatibility: Text)

  datatype Aggregate = Aggregate(key: ProfileKey, profile: Timing.Profile)

  /** Length of the hexadecimal digest that keys a profile row. */
  const PROFILE_KEY_BYTES: nat := 64

  datatype ImportRecord = ImportRecord(
    id: Text, source: Text, created: int, encoding: Text, processed: nat, imported: nat,
    unmatched: nat, skipped: nat, complete: bool, cursor: Option<nat>)

  /** One conversion checkpoint, with the `processed` it expects to replace. */
  datatype Checkpoint = Checkpoint(record: ImportRecord, bodyBytes: nat, expected: Option<nat>)

  function CheckpointSize(c: Checkpoint): nat {
    c.bodyBytes + c.record.id.size
  }

  datatype Producer = Producer(issued: nat, token: Text)

  /** Everything a batch carries apart from its producer and sequence. */
  datatype Content = Content(contexts: seq<ContextEntry>, sessions: seq<SessionEntry>,
                             profiles: seq<Aggregate>, checkpoint: Option<Checkpoint>)

  datatype Batch = Batch(producer: Producer, sequence: nat, content: Content)

  // ---- rows --------------------------------------------------------------------------------

  datatype ContextRow = ContextRow(header: ContextHeader, publication: nat, layoutKey: Option<Text>,
                                   nbytes: nat, digest: ContextDigest)

  datatype SessionRow = SessionRow(header: SessionHeader, publication: nat, refs: int, nbytes: nat,
                                   startup: SessionStartup, digest: SessionDigest)

  datatype LayoutRow = LayoutRow(content: LayoutContent, refs: int, nbytes: nat)

  datatype ProfileRow = ProfileRow(profile: Timing.Profile, updated: int, publication: nat, steps: nat, nbytes: nat)

  /** `row` is the insertion order, which the expiry index falls back to between equal expiries. */
  datatype Watermark = Watermark(row: nat, expires: int, sequence: nat, digest: Option<Content>)

  datatype ImportRow = ImportRow(record: ImportRecord, nbytes: nat)

  datatype Metadata = Metadata(
    clock: int, publication: nat, rows: nat, contexts: int, contextBytes: int, layouts: int, layoutBytes: int,
    sessions: int, sessionBytes: int, profiles: int, profileBytes: int, profileSteps: int,
    producers: int, imports: int, importBytes: int)

  /** Contexts are keyed by their publication, which the schema declares unique. */
  datatype Store = Store(
    meta: Metadata, sessions: map<Text, SessionRow>, layouts: map<Text, LayoutRow>,
    contexts: map<nat, ContextRow>, profiles: map<ProfileKey, ProfileRow>,
    producers: map<Producer, Watermark>, imports: map<Text, ImportRow>)

  const EMPTY_STORE := Store(Metadata(0, 0, 0, 0, 0, 0, 0, 0, 0, 0, 0, 0, 0, 0, 0),
                             map[], map[], map[], map[], map[], map[])

  // ---- column weights ------------------------------------------------------------------------

  function ContextBytes(): ContextRow -> nat { (r: ContextRow) => r.nbytes }
  function SessionBytes(): SessionRow -> nat { (r: SessionRow) => r.nbytes }
  function LayoutBytes(): LayoutRow -> nat { (r: LayoutRow) => r.nbytes }
  function ProfileBytes(): ProfileRow -> nat { (r: ProfileRow) => r.nbytes }
  function ProfileSteps(): ProfileRow -> nat { (r: ProfileRow) => r.steps }
  function ImportBytes(): ImportRow -> nat { (r: ImportRow) => r.nbytes }
  function UsesLayout(key: Text): ContextRow -> nat {
    (r: ContextRow) => if r.layoutKey == Some(key) then 1 else 0
  }
  function UsesSession(id: Text): ContextRow -> nat {
    (r: ContextRow) => if r.header.session == id then 1 else 0
  }

  // ---- retention orders ------------------------------------------------------------------------

  function ByExpiry(): Watermark -> Rank { (w: Watermark) => Rank(true, w.expires, false, 0, w.row) }
  function ByTime(): ContextRow -> Rank { (r: ContextRow) => Rank(true, r.header.stamp.at, false, 0, r.publication) }
  function ByUpdate(): ProfileRow -> Rank { (r: ProfileRow) => Rank(true, r.updated, false, 0, r.publication) }
  function ByShutdown(): SessionRow -> Rank {
    (r: SessionRow) => Rank(r.header.shutdown.Some?, OrZero(r.header.shutdown),
                            r.header.started.Some?, OrZero(r.header.started), r.publication)
  }

  function OrZero(o: Option<int>): int {
    if o.Some? then o.value else 0
  }

  // ---- what every committed state satisfies -----------------------------------------------------

  /** A hand-maintained pair of counters is the true row count and the true column sum of its table. */
  ghost predicate Tally<K, V>(count: int, sum: int, table: map<K, V>, weight: V -> nat) {
    count == |table.Keys| && sum == Total(table, weight)
  }

  ghost predicate Accounted(s: Store) {
    && Tally(s.meta.contexts, s.meta.contextBytes, s.contexts, ContextBytes())
    && Tally(s.meta.layouts, s.meta.layoutBytes, s.layouts, LayoutBytes())
    && Tally(s.meta.sessions, s.meta.sessionBytes, s.sessions, SessionBytes())
    && Tally(s.meta.profiles, s.meta.profileBytes, s.profiles, ProfileBytes())
    && Tally(s.meta.profiles, s.meta.profileSteps, s.profiles, ProfileSteps())
    && Tally(s.meta.imports, s.meta.importBytes, s.imports, ImportBytes())
    && s.meta.producers == |s.producers.Keys|
  }

  /** Layout reference counts are exact, no layout is stored unreferenced, no layout reference dangles. */
  ghost predicate LayoutRefs(layouts: map<Text, LayoutRow>, contexts: map<nat, ContextRow>) {
    && (forall k :: k in layouts ==> layouts[k].refs == Total(contexts, UsesLayout(k)) && layouts[k].refs >= 1)
    && (forall p :: p in contexts && contexts[p].layoutKey.Some? ==> contexts[p].layoutKey.value in layouts)
  }

  /** Session reference counts are exact and every context's session is stored. */
  ghost predicate SessionRefs(sessions: map<Text, SessionRow>, contexts: map<nat, ContextRow>) {
    && (forall i :: i in sessions ==> sessions[i].refs == Total(contexts, UsesSession(i)))
    && (forall p :: p in contexts ==> contexts[p].header.session in sessions)
  }

  /** Publications never exceed the metadata publication and are unique within and across tables. */
  ghost predicate Published(last: nat, contexts: map<nat, ContextRow>, sessions: map<Text, SessionRow>,
                            profiles: map<ProfileKey, ProfileRow>) {
    && (forall p :: p in contexts ==> contexts[p].publication == p && 1 <= p <= last)
    && (forall i :: i in sessions ==> sessions[i].publication <= last && sessions[i].publication !in contexts)
    && (forall k :: k in profiles ==> profiles[k].publication <= last && profiles[k].publication !in contexts)
    && (forall i, j :: i in sessions && j in sessions && i != j ==> sessions[i].publication != sessions[j].publication)
    && (forall k, l :: k in profiles && l in profiles && k != l ==> profiles[k].publication != profiles[l].publication)
    && (forall i, k :: i in sessions && k in profiles ==> sessions[i].publication != profiles[k].publication)
  }

  predicate SameContext(h: ContextHeader, g: ContextHeader) {
    h.session == g.session && h.context == g.context
  }

  /** Primary keys: rows are filed under their own key and a context identity is stored once. */
  ghost predicate ContextKeys(contexts: map<nat, ContextRow>) {
    forall p, q :: p in contexts && q in contexts && p != q ==> !SameContext(contexts[p].header, contexts[q].header)
  }

  ghost predicate SessionKeys(sessions: map<Text, SessionRow>) {
    forall i :: i in sessions ==> sessions[i].header.id == i
  }

  ghost predicate ProfileKeys(profiles: map<ProfileKey, ProfileRow>) {
    forall k :: k in profiles ==> profiles[k].steps == |profiles[k].profile.steps|
  }

  ghost predicate ImportKeys(imports: map<Text, ImportRow>) {
    forall i :: i in imports ==> imports[i].record.id == i
  }

  ghost predicate RowOrder(rows: nat, producers: map<Producer, Watermark>) {
    && (forall p :: p in producers ==> producers[p].row < rows)
    && (forall p, q :: p in producers && q in producers && p != q ==> producers[p].row != producers[q].row)
  }

  ghost predicate Related(s: Store) {
    && LayoutRefs(s.layouts, s.contexts) && SessionRefs(s.sessions, s.contexts)
    && Published(s.meta.publication, s.contexts, s.sessions, s.profiles)
    && ContextKeys(s.contexts) && SessionKeys(s.sessions) && ProfileKeys(s.profiles) && ImportKeys(s.imports)
    && RowOrder(s.meta.rows, s.producers)
  }

  /** What every committed state satisfies; a proof that needs the parts asks for them with `Look`. */
  ghost predicate Sound(s: Store) {
    forall t {:trigger Look(t)} :: t == s ==> Accounted(t) && Related(t)
  }

  ghost predicate Look(s: Store) {
    true
  }

  lemma SoundParts(s: Store)
    requires Sound(s)
    ensures Accounted(s) && Related(s)
  {
    assert Look(s);
  }

  lemma SoundWhole(s: Store)
    requires Accounted(s) && Related(s)
    ensures Sound(s)
  {
  }

  lemma TallyPut<K, V>(count: int, sum: int, table: map<K, V>, weight: V -> nat, k: K, v: V)
    requires Tally(count, sum, table, weight)
    ensures Tally(count + (if k in table then 0 else 1),
                  sum + weight(v) - (if k in table then weight(table[k]) else 0), table[k := v], weight)
  {
    TotalPut(table, weight, k, v);
    RowsPut(table, k, v);
  }

  lemma TallyRemove<K, V>(count: int, sum: int, table: map<K, V>, weight: V -> nat, k: K)
    requires Tally(count, sum, table, weight) && k in table
    ensures Tally(count - 1, sum - weight(table[k]), table - {k}, weight)
  {
    TotalRemove(table, weight, k);
    RowsRemove(table, k);
  }

  // ---- how the relations survive one changed row ------------------------------------------------

  lemma SessionKeysPut(sessions: map<Text, SessionRow>, id: Text, row: SessionRow)
    requires SessionKeys(sessions) && row.header.id == id
    ensures SessionKeys(sessions[id := row])
  {
  }

  lemma SessionRefsPut(sessions: map<Text, SessionRow>, contexts: map<nat, ContextRow>, id: Text, row: SessionRow)
    requires SessionRefs(sessions, contexts)
    requires row.refs == if id in sessions then sessions[id].refs else 0
    ensures SessionRefs(sessions[id := row], contexts)
  {
    if id !in sessions {
      TotalZero(contexts, UsesSession(id));
    }
  }

  lemma ContextKeysPut(contexts: map<nat, ContextRow>, p: nat, row: ContextRow)
    requires ContextKeys(contexts)
    requires forall q :: q in contexts ==> !SameContext(contexts[q].header, row.header)
    ensures ContextKeys(contexts[p := row])
  {
  }

  lemma ContextKeysLess(contexts: map<nat, ContextRow>, p: nat)
    requires ContextKeys(contexts)
    ensures ContextKeys(contexts - {p})
  {
  }

  lemma ImportKeysPut(imports: map<Text, ImportRow>, id: Text, row: ImportRow)
    requires ImportKeys(imports) && row.record.id == id
    ensures ImportKeys(imports[id := row])
  {
  }

  lemma ProfileKeysPut(profiles: map<ProfileKey, ProfileRow>, k: ProfileKey, row: ProfileRow)
    requires ProfileKeys(profiles) && row.steps == |row.profile.steps|
    ensures ProfileKeys(profiles[k := row])
  {
  }

  lemma PublishedContext(last: nat, contexts: map<nat, ContextRow>, sessions: map<Text, SessionRow>,
                         profiles: map<ProfileKey, ProfileRow>, row: ContextRow)
    requires Published(last, contexts, sessions, profiles) && row.publication == last + 1
    ensures Published(last + 1, contexts[last + 1 := row], sessions, profiles)
  {
  }

  lemma PublishedSession(last: nat, contexts: map<nat, ContextRow>, sessions: map<Text, SessionRow>,
                         profiles: map<ProfileKey, ProfileRow>, id: Text, row: SessionRow)
    requires Published(last, contexts, sessions, profiles) && row.publication == last + 1
    ensures Published(last + 1, contexts, sessions[id := row], profiles)
  {
  }

  lemma PublishedProfile(last: nat, contexts: map<nat, ContextRow>, sessions: map<Text, SessionRow>,
                         profiles: map<ProfileKey, ProfileRow>, k: ProfileKey, row: ProfileRow)
    requires Published(last, contexts, sessions, profiles) && row.publication == last + 1
    ensures Published(last + 1, contexts, sessions, profiles[k := row])
  {
  }

  /** Changing the reference count of a session keeps its publication. */
  lemma PublishedRefs(last: nat, contexts: map<nat, ContextRow>, sessions: map<Text, SessionRow>,
                      profiles: map<ProfileKey, ProfileRow>, id: Text, refs: int)
    requires Published(last, contexts, sessions, profiles) && id in sessions
    ensures Published(last, contexts, sessions[id := sessions[id].(refs := refs)], profiles)
  {
  }

  lemma PublishedLessContext(last: nat, contexts: map<nat, ContextRow>, sessions: map<Text, SessionRow>,
                             profiles: map<ProfileKey, ProfileRow>, p: nat)
    requires Published(last, contexts, sessions, profiles)
    ensures Published(last, contexts - {p}, sessions, profiles)
  {
  }

  lemma PublishedLessSession(last: nat, contexts: map<nat, ContextRow>, sessions: map<Text, SessionRow>,
                             profiles: map<ProfileKey, ProfileRow>, id: Text)
    requires Published(last, contexts, sessions, profiles)
    ensures Published(last, contexts, sessions - {id}, profiles)
  {
  }

  lemma PublishedLessProfile(last: nat, contexts: map<nat, ContextRow>, sessions: map<Text, SessionRow>,
                             profiles: map<ProfileKey, ProfileRow>, k: ProfileKey)
    requires Published(last, contexts, sessions, profiles)
    ensures Published(last, contexts, sessions, profiles - {k})
  {
  }

  lemma LayoutRefsAdd(layouts: map<Text, LayoutRow>, contexts: map<nat, ContextRow>, p: nat, row: ContextRow)
    requires LayoutRefs(layouts, contexts) && p !in contexts
    ensures row.layoutKey.None? ==> LayoutRefs(layouts, contexts[p := row])
    ensures row.layoutKey.Some? ==> forall layout: LayoutRow ::
      layout.refs == 1 + (if row.layoutKey.value in layouts then layouts[row.layoutKey.value].refs else 0) ==>
        LayoutRefs(layouts[row.layoutKey.value := layout], contexts[p := row])
  {
    forall k
      ensures Total(contexts[p := row], UsesLayout(k)) == Total(contexts, UsesLayout(k)) + UsesLayout(k)(row)
      ensures k !in layouts ==> Total(contexts, UsesLayout(k)) == 0
    {
      TotalPut(contexts, UsesLayout(k), p, row);
      if k !in layouts {
        TotalZero(contexts, UsesLayout(k));
      }
    }
  }

  lemma SessionRefsAdd(sessions: map<Text, SessionRow>, contexts: map<nat, ContextRow>, p: nat, row: ContextRow)
    requires SessionRefs(sessions, contexts) && p !in contexts && row.header.session in sessions
    ensures var id := row.header.session;
      SessionRefs(sessions[id := sessions[id].(refs := sessions[id].refs + 1)], contexts[p := row])
  {
    forall i
      ensures Total(contexts[p := row], UsesSession(i)) == Total(contexts, UsesSession(i)) + UsesSession(i)(row)
    {
      TotalPut(contexts, UsesSession(i), p, row);
    }
  }

  lemma UsersRemain(contexts: map<nat, ContextRow>, p: nat, key: Text)
    requires p in contexts
    ensures Total(contexts - {p}, UsesLayout(key)) == Total(contexts, UsesLayout(key)) - UsesLayout(key)(contexts[p])
    ensures forall q :: q in contexts && q != p && contexts[q].layoutKey == Some(key) ==>
              Total(contexts - {p}, UsesLayout(key)) >= 1
  {
    var rest := contexts - {p};
    TotalRemove(contexts, UsesLayout(key), p);
    forall q | q in contexts && q != p && contexts[q].layoutKey == Some(key)
      ensures Total(rest, UsesLayout(key)) >= 1
    {
      assert q in rest && rest[q] == contexts[q];
      TotalAtLeast(rest, UsesLayout(key), q);
    }
  }

  predicate LastUse(layouts: map<Text, LayoutRow>, key: Option<Text>)
    requires key.Some? ==> key.value in layouts
  {
    key.Some? && layouts[key.value].refs - 1 == 0
  }

  /** The layouts after the context `p` lets go of its layout: the row is deleted at its last reference. */
  function DropLayout(layouts: map<Text, LayoutRow>, key: Option<Text>): map<Text, LayoutRow>
    requires key.Some? ==> key.value in layouts
  {
    if key.None? then layouts
    else if LastUse(layouts, key) then layouts - {key.value}
    else layouts[key.value := layouts[key.value].(refs := layouts[key.value].refs - 1)]
  }

  lemma LayoutRefsDrop(layouts: map<Text, LayoutRow>, contexts: map<nat, ContextRow>, p: nat)
    requires LayoutRefs(layouts, contexts) && p in contexts
    ensures LayoutRefs(DropLayout(layouts, contexts[p].layoutKey), contexts - {p})
  {
    hide Total;
    var rest := DropLayout(layouts, contexts[p].layoutKey);
    forall k | k in layouts
      ensures k in rest ==> rest[k].refs == Total(contexts - {p}, UsesLayout(k)) && rest[k].refs >= 1
      ensures forall q :: q in contexts && q != p && contexts[q].layoutKey == Some(k) ==> k in rest
    {
      UsersRemain(contexts, p, k);
    }
  }

  lemma SessionRefsDrop(sessions: map<Text, SessionRow>, contexts: map<nat, ContextRow>, p: nat)
    requires SessionRefs(sessions, contexts) && p in contexts
    ensures var id := contexts[p].header.session;
      SessionRefs(sessions[id := sessions[id].(refs := sessions[id].refs - 1)], contexts - {p})
  {
    hide Total;
    var id := contexts[p].header.session;
    var rest := sessions[id := sessions[id].(refs := sessions[id].refs - 1)];
    forall i | i in rest
      ensures rest[i].refs == Total(contexts - {p}, UsesSession(i))
    {
      TotalRemove(contexts, UsesSession(i), p);
    }
  }

  lemma UnreferencedSession(sessions: map<Text, SessionRow>, contexts: map<nat, ContextRow>, id: Text)
    requires SessionRefs(sessions, contexts) && id in sessions && sessions[id].refs == 0
    ensures forall p :: p in contexts ==> contexts[p].header.session != id
    ensures SessionRefs(sessions - {id}, contexts)
  {
    forall p | p in contexts
      ensures contexts[p].header.session != id
    {
      TotalAtLeast(contexts, UsesSession(id), p);
    }
  }

  /** `_within_bounds`. */
  predicate WithinBounds(m: Metadata, p: Policy) {
    && m.contexts <= p.contexts && m.contextBytes + m.layoutBytes <= p.contextBytes
    && m.sessions <= p.sessions && m.sessionBytes <= p.sessionBytes
    && m.profiles <= p.profiles && m.profileBytes <= p.profileBytes
    && m.profileSteps <= p.profileSteps && m.producers <= p.producers
    && m.imports <= p.imports && m.importBytes <= p.importBytes
  }

  lemma EmptyStoreIsSound()
    ensures Sound(EMPTY_STORE)
  {
    assert Accounted(EMPTY_STORE);
    assert Related(EMPTY_STORE);
    SoundWhole(EMPTY_STORE);
  }
}
