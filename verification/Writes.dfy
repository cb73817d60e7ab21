/** What a committed write has done with its batch. */
module Writes {
  // Every entry is stored or was taken by retention, the bounds hold, and exactly the batches that can be stored are.

  import opened Wrappers
  import opened Totals
  import opened Tables
  import opened Rows
  import opened Prune
  import opened Transaction
  import opened Ledger
  import opened Retention
  import opened Persisted
  import History
  import Timing

  // ---- what retention leaves as it was -------------------------------------------------------------------

  ghost predicate LayoutsKept(t: map<Text, LayoutRow>, s: map<Text, LayoutRow>) {
    forall l :: l in t ==> l in s && t[l].content == s[l].content && t[l].nbytes == s[l].nbytes
  }

  lemma RemovedKeepsLayouts(t: Store, k: nat, layouts: map<Text, LayoutRow>)
    requires Removable(t, k) && LayoutsKept(t.layouts, layouts)
    ensures LayoutsKept(RemoveContext(t, k).layouts, layouts)
  {
  }

  lemma ContextLoopKeepsLayouts(s: Store, now: int, p: Policy, budget: nat)
    ensures LayoutsKept(PruneContexts(s, now, p, budget).store.layouts, s.layouts)
  {
    hide LayoutsKept;
    assert LayoutsKept(s.layouts, s.layouts) by { SameLayoutsKept(s.layouts); }
    forall t: Store, k: nat | LayoutsKept(t.layouts, s.layouts) && Removable(t, k)
      ensures LayoutsKept(RemoveContext(t, k).layouts, s.layouts)
    {
      RemovedKeepsLayouts(t, k, s.layouts);
    }
    PruneContextsInvariant(s, now, p, budget, (t: Store, left: nat) => LayoutsKept(t.layouts, s.layouts));
  }

  lemma SameLayoutsKept(layouts: map<Text, LayoutRow>)
    ensures LayoutsKept(layouts, layouts)
  {
  }

  /** Sessions that stay keep everything but their reference counts. */
  ghost predicate SessionsKept(t: map<Text, SessionRow>, s: map<Text, SessionRow>) {
    forall i :: i in t ==> i in s && t[i].(refs := 0) == s[i].(refs := 0)
  }

  /** A pass changes no row it leaves, apart from reference counts. */
  ghost predicate RowsKept(s: Store, t: Store) {
    && Submap(t.contexts, s.contexts) && Submap(t.profiles, s.profiles) && LayoutsKept(t.layouts, s.layouts)
    && SessionsKept(t.sessions, s.sessions) && t.imports == s.imports && Submap(t.producers, s.producers)
  }

  lemma PassKeepsRows(s: Store, now: int, p: Policy)
    requires Sound(s)
    ensures RowsKept(s, PruneAll(s, now, p).store)
  {
    hide Sound, OnlyContexts, OnlyProfiles, OnlySessions, LayoutsKept, PruneContexts, PruneProfiles, PruneSessions;
    PruneRetains(s, now, p);
    var a := WithoutExpired(s, now);
    var b := PruneContexts(a.store, now, p, a.left);
    ContextLoopKeepsLayouts(a.store, now, p, a.left);
    PruneContextsFrame(a.store, now, p, a.left);
    var c := PruneProfiles(b.store, now, p, b.left);
    PruneProfilesFrame(b.store, now, p, b.left);
    PruneSessionsFrame(c.store, now, p, c.left);
    StagesKeep(a.store, b.store, c.store, PruneSessions(c.store, now, p, c.left).store);
  }

  lemma StagesKeep(a: Store, b: Store, c: Store, d: Store)
    requires OnlyContexts(b, a) && OnlyProfiles(c, b) && OnlySessions(d, c) && Submap(d.sessions, c.sessions)
    ensures SessionsKept(d.sessions, a.sessions) && d.layouts == b.layouts
  {
  }

  // ---- headers stay true -----------------------------------------------------------------------------------

  lemma KeptStaysTrue(s: Store, t: Store)
    requires True(s) && RowsKept(s, t) && Sound(t)
    ensures True(t)
  {
    assert forall p :: p in t.contexts && t.contexts[p].layoutKey.Some? ==> t.contexts[p].layoutKey.value in t.layouts by {
      NoDangling(t);
    }
    forall p | p in t.contexts
      ensures TrueContext(t.contexts[p], t.layouts)
    {
      assert TrueContext(s.contexts[p], s.layouts);
    }
    SessionsAsTrue(s.sessions, t.sessions);
  }

  lemma PassStaysTrue(s: Store, now: int, p: Policy)
    requires Sound(s) && True(s)
    ensures True(PruneAll(s, now, p).store)
  {
    PassKeepsRows(s, now, p);
    PruneSound(s, now, p);
    KeptStaysTrue(s, PruneAll(s, now, p).store);
  }

  lemma {:induction false} ProfilesApart(s: Store, entries: seq<Aggregate>, now: int, c: Config)
    requires PutProfiles(s, entries, now, c).Success?
    ensures var t := PutProfiles(s, entries, now, c).value;
      && t.contexts == s.contexts && t.layouts == s.layouts && t.sessions == s.sessions
      && t.producers == s.producers && t.imports == s.imports && t.meta.clock == s.meta.clock
  {
    if entries != [] {
      ProfilesApart(s, entries[..|entries| - 1], now, c);
    }
  }

  // ---- the content of a batch ------------------------------------------------------------------------------

  ghost predicate IsStored(v: Store, e: ContextEntry) {
    exists p :: StoredAs(v, p, e)
  }

  ghost predicate IsOffered(row: ContextRow, entries: seq<ContextEntry>) {
    exists i :: 0 <= i < |entries| && RowFor(row, entries[i])
  }

  /** Every entry has its row; a row that was not there before is the row of a new context of the batch. */
  ghost predicate ContextsHeld(s: Store, v: Store, entries: seq<ContextEntry>) {
    && (forall i :: 0 <= i < |entries| ==> IsStored(v, entries[i]))
    && (forall p :: p in s.contexts ==> p in v.contexts && v.contexts[p] == s.contexts[p])
    && (forall p :: p in v.contexts && p !in s.contexts ==> IsOffered(v.contexts[p], entries))
  }

  lemma NewRowIsOffered(s: Store, v: Store, entries: seq<ContextEntry>, p: nat) returns (i: nat)
    requires RowsAdded(s, NewOnes(s.contexts, entries), v) && p in v.contexts && p !in s.contexts
    ensures i < |entries| && RowFor(v.contexts[p], entries[i])
  {
    hide RowsAdded, RowFor, Stores, Names;
    var novel := NewOnes(s.contexts, entries);
    var j := NewOfRow(s, novel, v, p);
    NewOnesCover(s.contexts, entries);
    assert novel[j] in novel;
    i :| 0 <= i < |entries| && entries[i] == novel[j];
  }

  lemma ContextsAreHeld(s: Store, v: Store, entries: seq<ContextEntry>)
    requires True(v) && Acceptable(s, entries) && Added(s, NewOnes(s.contexts, entries), v)
    ensures ContextsHeld(s, v, entries)
  {
    hide Acceptable, True, LayoutsAdded, StoredAs, RowFor, Stores, Names, NewOnes;
    forall i | 0 <= i < |entries|
      ensures IsStored(v, entries[i])
    {
      var p := EntriesStored(s, entries, v, i);
    }
    forall p | p in v.contexts && p !in s.contexts
      ensures IsOffered(v.contexts[p], entries)
    {
      var i := NewRowIsOffered(s, v, entries, p);
    }
  }

  /** What the content of a batch comes to in the tables. */
  ghost predicate ContentHeld(s: Store, v: Store, content: Content, now: int) {
    && ContextsHeld(s, v, content.contexts)
    && (forall i :: 0 <= i < |content.sessions| ==> Records(v.sessions, content.sessions[i]))
    && (forall i :: 0 <= i < |content.profiles| ==>
          content.profiles[i].key in v.profiles && v.profiles[content.profiles[i].key].updated == now)
    && v.imports == Checkpointed(s.imports, content) && v.producers == s.producers
  }

  lemma {:induction false} ProfilesDated(s: Store, entries: seq<Aggregate>, now: int, c: Config)
    requires PutProfiles(s, entries, now, c).Success?
    ensures forall i :: 0 <= i < |entries| ==>
              entries[i].key in PutProfiles(s, entries, now, c).value.profiles
              && PutProfiles(s, entries, now, c).value.profiles[entries[i].key].updated == now
  {
    if entries != [] {
      var n := |entries| - 1;
      ProfilesDated(s, entries[..n], now, c);
      forall i | 0 <= i < n
        ensures entries[i] == entries[..n][i]
      {
      }
    }
  }

  lemma SessionRecordsStay(before: map<Text, SessionRow>, after: map<Text, SessionRow>, entries: seq<SessionEntry>)
    requires SameSessions(after, before) && forall i :: 0 <= i < |entries| ==> Records(before, entries[i])
    ensures forall i :: 0 <= i < |entries| ==> Records(after, entries[i])
  {
    forall i | 0 <= i < |entries|
      ensures Records(after, entries[i])
    {
      var id := entries[i].header.id;
      assert after[id].(refs := 0) == before[id].(refs := 0);
    }
  }

  lemma ContentIsHeld(s: Store, content: Content, now: int, c: Config)
    requires Sound(s) && True(s) && PutContent(s, content, now, c).Success?
    ensures ContentHeld(s, PutContent(s, content, now, c).value, content, now) && True(PutContent(s, content, now, c).value)
  {
    hide Sound, True, ContextsHeld, Added, Acceptable, Records, StoredAs;
    var a := PutSessions(s, content.sessions).value;
    SessionsStayTrue(s, content.sessions);
    PutSessionsSound(s, content.sessions);
    PutSessionsApart(s, content.sessions);
    var b := PutContexts(a, content.contexts).value;
    ContextsStored(a, content.contexts);
    AddedStaysTrue(a, NewOnes(a.contexts, content.contexts), b);
    ContextsAreHeld(a, b, content.contexts);
    AddedApart(a, NewOnes(a.contexts, content.contexts), b);
    SessionRecordsStay(a.sessions, b.sessions, content.sessions);
    var d := PutProfiles(b, content.profiles, now, c).value;
    ProfilesApart(b, content.profiles, now, c);
    ProfilesDated(b, content.profiles, now, c);
    SameContexts(b, PutContent(s, content, now, c).value, s, a, content.contexts);
  }

  lemma AddedApart(s: Store, novel: seq<ContextEntry>, t: Store)
    requires Added(s, novel, t)
    ensures SameSessions(t.sessions, s.sessions) && t.profiles == s.profiles && t.producers == s.producers && t.imports == s.imports
  {
  }

  /** Contexts, layouts and sessions are not touched after the context loop, and no session entry touches contexts. */
  lemma SameContexts(b: Store, v: Store, s: Store, a: Store, entries: seq<ContextEntry>)
    requires v.contexts == b.contexts && v.layouts == b.layouts && v.sessions == b.sessions && a.contexts == s.contexts
    requires True(b) && ContextsHeld(a, b, entries)
    ensures True(v) && ContextsHeld(s, v, entries)
  {
    forall i | 0 <= i < |entries|
      ensures IsStored(v, entries[i])
    {
      assert IsStored(b, entries[i]);
      var p :| StoredAs(b, p, entries[i]);
      assert StoredAs(v, p, entries[i]);
    }
  }

  lemma {:induction false} PutSessionsApart(s: Store, entries: seq<SessionEntry>)
    requires PutSessions(s, entries).Success?
    ensures var t := PutSessions(s, entries).value;
      && t.contexts == s.contexts && t.layouts == s.layouts && t.profiles == s.profiles
      && t.producers == s.producers && t.imports == s.imports
  {
    hide PutSession;
    if entries != [] {
      var n := |entries| - 1;
      PutSessionsApart(s, entries[..n]);
      SessionStored(PutSessions(s, entries[..n]).value, entries[n]);
    }
  }

  // ---- the whole write ---------------------------------------------------------------------------------------

  /** What was in the tables after the content of the batch went in is there at the end, or was due and was deleted. */
  ghost predicate TakenWhenDue(v: Store, u: Store, now: int, p: Policy) {
    && u.imports == v.imports && Submap(u.contexts, v.contexts) && Submap(u.profiles, v.profiles)
    && LayoutsKept(u.layouts, v.layouts) && SessionsKept(u.sessions, v.sessions)
    && (forall k :: k in v.contexts && k !in u.contexts ==> ContextDue(v.contexts, v.layouts, k, now, p))
    && (forall k :: k in v.profiles && k !in u.profiles ==> ProfileDue(v.profiles, k, now, p))
    && (forall i :: i in v.sessions && i !in u.sessions ==> SessionDue(v.sessions, u.contexts, i, now, p))
  }

  lemma TailTakes(v: Store, b: Batch, now: int, c: Config)
    requires Sound(v) && True(v)
    ensures TakenWhenDue(v, Finished(v, b, now, c), now, c.policy) && True(Finished(v, b, now, c))
  {
    hide Sound, ContextDue, ProfileDue, SessionDue, LayoutsKept, SessionsKept, PruneAll, True;
    PassKeepsRows(v, now, c.policy);
    PassDeletesTheDue(v, now, c.policy);
    PassStaysTrue(v, now, c.policy);
    SameTables(PruneAll(v, now, c.policy).store, Finished(v, b, now, c));
  }

  lemma SameTables(s: Store, t: Store)
    requires t.contexts == s.contexts && t.layouts == s.layouts && t.sessions == s.sessions && True(s)
    ensures True(t)
  {
  }

  lemma HeadStaysTrue(s: Store, b: Batch, now: int, c: Config)
    requires Sound(s) && True(s) && Registered(s, b, now, c).Success?
    ensures True(Registered(s, b, now, c).value) && Submap(Registered(s, b, now, c).value.contexts, s.contexts)
    ensures Registered(s, b, now, c).value.imports == s.imports
  {
    hide Sound, True, PruneAll, LayoutsKept, SessionsKept, Expiry;
    PassKeepsRows(s, now, c.policy);
    PassStaysTrue(s, now, c.policy);
    SameTables(PruneAll(s, now, c.policy).store, Registered(s, b, now, c).value);
  }

  /** The context has its row, or had it when the content was in and was due then. */
  ghost predicate StoredOrTaken(v: Store, u: Store, e: ContextEntry, now: int, p: Policy) {
    exists k :: StoredAs(v, k, e) && (StoredAs(u, k, e) || (k !in u.contexts && ContextDue(v.contexts, v.layouts, k, now, p)))
  }

  lemma EntryStoredOrTaken(v: Store, u: Store, e: ContextEntry, now: int, p: Policy)
    requires TakenWhenDue(v, u, now, p) && IsStored(v, e) && True(u)
    ensures StoredOrTaken(v, u, e, now, p)
  {
    var k :| StoredAs(v, k, e);
    if k in u.contexts {
      assert StoredAs(u, k, e);
    }
  }

  /** Between the two passes of a publication: `r` is the store the content found, `v` what it made of it. */
  ghost predicate Published(s: Store, r: Store, v: Store, u: Store, b: Batch, now: int, p: Policy) {
    && Submap(r.contexts, s.contexts) && r.imports == s.imports
    && ContentHeld(r, v, b.content, now) && TakenWhenDue(v, u, now, p)
    && forall i :: 0 <= i < |b.content.contexts| ==> StoredOrTaken(v, u, b.content.contexts[i], now, p)
  }

  lemma PublishStores(s: Store, b: Batch, now: int, c: Config) returns (r: Store, v: Store)
    requires Sound(s) && True(s) && Publish(s, b, now, c).Success?
    ensures Published(s, r, v, Publish(s, b, now, c).value, b, now, c.policy) && True(Publish(s, b, now, c).value)
  {
    hide Sound, True, ContentHeld, TakenWhenDue, Registered, PutContent, Finished, StoredOrTaken;
    r := Registered(s, b, now, c).value;
    HeadStaysTrue(s, b, now, c);
    RegisteredSound(s, b, now, c);
    v := PutContent(r, b.content, now, c).value;
    ContentIsHeld(r, b.content, now, c);
    PutContentSound(r, b.content, now, c);
    var u := Finished(v, b, now, c);
    TailTakes(v, b, now, c);
    forall i | 0 <= i < |b.content.contexts|
      ensures StoredOrTaken(v, u, b.content.contexts[i], now, c.policy)
    {
      assert IsStored(v, b.content.contexts[i]) by { HeldEntry(r, v, b.content, now, i); }
      EntryStoredOrTaken(v, u, b.content.contexts[i], now, c.policy);
    }
  }

  lemma HeldEntry(s: Store, v: Store, content: Content, now: int, i: nat)
    requires ContentHeld(s, v, content, now) && i < |content.contexts|
    ensures IsStored(v, content.contexts[i])
  {
  }

  /**
    After a write that answers with a new receipt: every context of the batch is stored or was due for retention, every
    session of the batch is recorded, every profile updated and the checkpoint replaced, until retention takes them; and
    no other context came.
   */
  lemma WriteStores(s: Store, b: Batch, wall: int, c: Config) returns (r: Store, v: Store)
    requires Sound(s) && True(s) && WriteBatch(s, b, wall, c).result == Success(Receipt(b.sequence, false))
    ensures Published(s, r, v, WriteBatch(s, b, wall, c).store, b, Max(wall, s.meta.clock), c.policy)
    ensures True(WriteBatch(s, b, wall, c).store)
  {
    hide Sound, True, Publish, Published;
    WriteOutcomes(s, b, wall, c);
    var t := Clocked(s, wall);
    ClockedSound(s, wall);
    SameTables(s, t);
    r, v := PublishStores(t, b, t.meta.clock, c);
    ClockAside(s, t, r, v, WriteBatch(s, b, wall, c).store, b, t.meta.clock, c.policy);
  }

  lemma ClockAside(s: Store, t: Store, r: Store, v: Store, u: Store, b: Batch, now: int, p: Policy)
    requires t.contexts == s.contexts && t.imports == s.imports && Published(t, r, v, u, b, now, p)
    ensures Published(s, r, v, u, b, now, p)
  {
  }

  // ---- the bounds ------------------------------------------------------------------------------------------

  /** The rows themselves, counted and summed, are within every bound of the policy. */
  ghost predicate TrulyWithin(s: Store, p: Policy) {
    && !ContextsExceed(s.contexts, s.layouts, p) && !ProfilesExceed(s.profiles, p) && !SessionsExceed(s.sessions, p)
    && |s.producers.Keys| <= p.producers && |s.imports.Keys| <= p.imports && Total(s.imports, ImportBytes()) <= p.importBytes
  }

  lemma BoundsAreTrue(s: Store, p: Policy)
    requires Sound(s)
    ensures WithinBounds(s.meta, p) <==> TrulyWithin(s, p)
  {
    hide Sound, ContextsExceed, Total, Related;
    ContextPressureMeans(s, p);
    SoundParts(s);
  }

  /** A write that is refused for the bounds met with sessions that may not go, a full ledger, or more than 128 rows to delete. */
  ghost predicate NoWayToFit(t: Store, left: nat, p: Policy) {
    || left == 0
    || (SessionsExceed(t.sessions, p) && forall i :: i in t.sessions ==> !Deletable(t.sessions, t.contexts, i))
    || |t.producers.Keys| > p.producers || |t.imports.Keys| > p.imports || Total(t.imports, ImportBytes()) > p.importBytes
  }

  lemma RefusedWhenNothingFits(v: Store, now: int, p: Policy)
    requires Sound(v) && !WithinBounds(PruneAll(v, now, p).store.meta, p)
    ensures NoWayToFit(PruneAll(v, now, p).store, PruneAll(v, now, p).left, p)
  {
    hide Sound, ContextsExceed, ProfilesExceed, SessionsExceed, Deletable;
    PruneSound(v, now, p);
    BoundsAreTrue(PruneAll(v, now, p).store, p);
    if PruneAll(v, now, p).left > 0 {
      PassMeetsTheBounds(v, now, p);
    }
  }

  /** Whatever a write commits as new, and whatever maintenance commits, is within the bounds. */
  lemma CommittedWithinBounds(s: Store, b: Batch, wall: int, c: Config)
    requires Sound(s)
    ensures WriteBatch(s, b, wall, c).result == Success(Receipt(b.sequence, false)) ==> TrulyWithin(WriteBatch(s, b, wall, c).store, c.policy)
    ensures Maintain(s, wall, c).result.Success? ==> TrulyWithin(Maintain(s, wall, c).store, c.policy)
  {
    hide Sound, TrulyWithin, WithinBounds, PruneAll, PutContent, Registered;
    WriteOutcomes(s, b, wall, c);
    WriteKeepsSound(s, b, wall, c);
    MaintainKeepsSound(s, wall, c);
    BoundsAreTrue(WriteBatch(s, b, wall, c).store, c.policy);
    BoundsAreTrue(Maintain(s, wall, c).store, c.policy);
  }

  // ---- which batches are admitted ----------------------------------------------------------------------------

  predicate ContextAdmitted(e: ContextEntry, c: Config) {
    var layout := if e.layout.Some? then e.layout.value.content.body.size + e.layout.value.envelope else 0;
    && e.identity + e.body.size + layout <= c.policy.contextBytes && e.body.size <= c.limits.maxContextBytes
    && (e.layout.Some? ==> e.layout.value.content.body.size <= c.limits.layoutBytes)
  }

  predicate SessionAdmitted(e: SessionEntry, c: Config) {
    e.body.size + e.identity <= c.policy.sessionBytes && e.body.size <= c.limits.maxContextBytes
  }

  predicate ProfileAdmitted(e: Aggregate, c: Config) {
    && c.profileBytes(e) + 64 <= c.policy.profileBytes && |e.profile.steps| <= c.policy.profileSteps
    && c.profileBytes(e) <= c.limits.maxContextBytes
  }

  /** A batch within the item and byte limits, each entry of which fits the store and the reader's limits by itself. */
  predicate Admitted(b: Batch, c: Config) {
    && Items(b.content) <= c.limits.batchItems && ByteSize(b.content, c) <= c.limits.batchBytes
    && (forall i :: 0 <= i < |b.content.contexts| ==> ContextAdmitted(b.content.contexts[i], c))
    && (forall i :: 0 <= i < |b.content.sessions| ==> SessionAdmitted(b.content.sessions[i], c))
    && (forall i :: 0 <= i < |b.content.profiles| ==> ProfileAdmitted(b.content.profiles[i], c))
    && (b.content.checkpoint.Some? ==> b.content.checkpoint.value.bodyBytes <= c.limits.maxContextBytes)
  }

  lemma {:induction false} NoRefusal<T>(entries: seq<T>, refusal: T -> Option<Error>)
    ensures FirstRefusal(entries, refusal).None? <==> forall i :: 0 <= i < |entries| ==> refusal(entries[i]).None?
  {
    if entries != [] {
      NoRefusal(entries[1..], refusal);
      forall i | 0 < i < |entries|
        ensures entries[i] == entries[1..][i - 1]
      {
      }
    }
  }

  lemma AdmittedExactly(b: Batch, c: Config)
    ensures Refusal(b, c).None? <==> Admitted(b, c)
  {
    NoRefusal(b.content.contexts, e => ContextRefusal(e, c));
    NoRefusal(b.content.sessions, e => SessionRefusal(e, c));
    NoRefusal(b.content.profiles, e => ProfileRefusal(e, c));
  }

  /** The checkpoint expects what is stored and takes back nothing of it. */
  predicate Continues(imports: map<Text, ImportRow>, checkpoint: Option<Checkpoint>) {
    checkpoint.Some? ==>
      var k, next := checkpoint.value, checkpoint.value.record;
      if next.id !in imports then k.expected.None?
      else
        var prior := imports[next.id].record;
        && k.expected == Some(prior.processed) && !prior.complete && next.created == prior.created && next.encoding == prior.encoding
        && next.imported >= prior.imported && next.unmatched >= prior.unmatched && next.skipped >= prior.skipped
  }

  /** The batch is the next of a producer that was issued before `now` and whose retry horizon is not over. */
  predicate Timely(s: Store, b: Batch, now: int, p: Policy) {
    && b.producer.issued <= now < b.producer.issued + Micros(p.retryHorizon)
    && b.sequence == (if b.producer in s.producers then s.producers[b.producer].sequence + 1 else 1)
  }

  /** There is a watermark or room for one after the first pass, the content goes in, and the bounds hold after the second. */
  ghost predicate Accommodated(t: Store, b: Batch, c: Config) {
    var now, first := t.meta.clock, PruneAll(t, t.meta.clock, c.policy).store;
    var r := if b.producer in t.producers then first else AddProducer(first, b.producer, Expiry(b.producer, c.policy));
    && (b.producer in t.producers || |first.producers.Keys| < c.policy.producers)
    && PutContent(r, b.content, now, c).Success?
    && TrulyWithin(PruneAll(PutContent(r, b.content, now, c).value, now, c.policy).store, c.policy)
  }

  lemma PublishedExactly(t: Store, b: Batch, c: Config)
    requires Sound(t)
    ensures Publish(t, b, t.meta.clock, c).Success? <==> Accommodated(t, b, c)
  {
    hide Sound, TrulyWithin, WithinBounds, PutContent, PruneAll;
    var now := t.meta.clock;
    var first := PruneAll(t, now, c.policy).store;
    PruneSound(t, now, c.policy);
    assert first.meta.producers == |first.producers.Keys| by { SoundParts(first); }
    if Registered(t, b, now, c).Success? {
      var r := Registered(t, b, now, c).value;
      RegisteredSound(t, b, now, c);
      if PutContent(r, b.content, now, c).Success? {
        PutContentSound(r, b.content, now, c);
        PruneSound(PutContent(r, b.content, now, c).value, now, c.policy);
        BoundsAreTrue(PruneAll(PutContent(r, b.content, now, c).value, now, c.policy).store, c.policy);
      }
    }
  }

  /** A batch is published exactly when it is admitted, timely, continues its import and can be accommodated. */
  lemma WrittenExactly(s: Store, b: Batch, wall: int, c: Config, t: Store)
    requires Sound(s) && t == s.(meta := s.meta.(clock := if wall < s.meta.clock then s.meta.clock else wall))
    ensures WriteBatch(s, b, wall, c).result == Success(Receipt(b.sequence, false)) <==>
              && Admitted(b, c) && Timely(s, b, t.meta.clock, c.policy) && Continues(s.imports, b.content.checkpoint)
              && Accommodated(t, b, c)
  {
    hide Sound, Accommodated, Publish, Admitted;
    AdmittedExactly(b, c);
    ClockedSound(s, wall);
    PublishedExactly(t, b, c);
  }

  /** A duplicate is acknowledged exactly when its number is covered and, at the watermark itself, its content the same. */
  lemma DuplicateExactly(s: Store, b: Batch, wall: int, c: Config, now: int)
    requires now == if wall < s.meta.clock then s.meta.clock else wall
    ensures WriteBatch(s, b, wall, c).result == Success(Receipt(b.sequence, true)) <==>
              && Admitted(b, c) && b.producer.issued <= now < b.producer.issued + Micros(c.policy.retryHorizon)
              && b.producer in s.producers && b.sequence <= s.producers[b.producer].sequence
              && (b.sequence == s.producers[b.producer].sequence ==> s.producers[b.producer].digest == Some(b.content))
  {
    hide Publish, Admitted;
    AdmittedExactly(b, c);
  }

  /** Out of order, out of its horizon, or against its import, a batch is refused as a contract error. */
  lemma RefusedExactly(s: Store, b: Batch, wall: int, c: Config, now: int)
    requires now == (if wall < s.meta.clock then s.meta.clock else wall) && Admitted(b, c)
    requires !(b.producer in s.producers && b.sequence <= s.producers[b.producer].sequence)
    ensures !(Timely(s, b, now, c.policy) && Continues(s.imports, b.content.checkpoint)) ==>
              WriteBatch(s, b, wall, c) == Written(s, Failure(Contract))
  {
    hide Publish, Admitted;
    AdmittedExactly(b, c);
  }

  lemma {:induction false} FirstRefusalIs<T>(entries: seq<T>, refusal: T -> Option<Error>, i: nat)
    requires i < |entries| && refusal(entries[i]).Some? && forall j :: 0 <= j < i ==> refusal(entries[j]).None?
    ensures FirstRefusal(entries, refusal) == refusal(entries[i])
  {
    if i > 0 {
      FirstRefusalIs(entries[1..], refusal, i - 1);
    }
  }

  /** A batch too large as a whole may be tried again later; so may an entry too large for the store, not one too large to read. */
  lemma AdmissionErrors(b: Batch, c: Config, i: nat)
    ensures Items(b.content) > c.limits.batchItems || ByteSize(b.content, c) > c.limits.batchBytes ==> Refusal(b, c) == Some(Backpressure)
    ensures var k := b.content;
      Items(k) <= c.limits.batchItems && ByteSize(k, c) <= c.limits.batchBytes && i < |k.contexts| && !ContextAdmitted(k.contexts[i], c)
      && (forall j :: 0 <= j < i ==> ContextAdmitted(k.contexts[j], c)) ==>
        var e := k.contexts[i];
        Refusal(b, c) == Some(if e.identity + e.body.size
                                 + (if e.layout.Some? then e.layout.value.content.body.size + e.layout.value.envelope else 0)
                                 > c.policy.contextBytes then Backpressure else Contract)
  {
    var k := b.content;
    if Items(k) <= c.limits.batchItems && ByteSize(k, c) <= c.limits.batchBytes && i < |k.contexts| && !ContextAdmitted(k.contexts[i], c)
       && (forall j :: 0 <= j < i ==> ContextAdmitted(k.contexts[j], c)) {
      FirstRefusalIs(k.contexts, e => ContextRefusal(e, c), i);
    }
  }

  /** Maintenance commits its pass exactly when the bounds hold after it, and changes nothing otherwise. */
  lemma MaintainedExactly(s: Store, wall: int, c: Config, t: Store)
    requires Sound(s) && t == s.(meta := s.meta.(clock := if wall < s.meta.clock then s.meta.clock else wall))
    ensures var u := PruneAll(t, t.meta.clock, c.policy).store;
      Maintain(s, wall, c)
      == if TrulyWithin(u, c.policy) then Written(u, Success(Receipt(0, false))) else Written(s, Failure(Backpressure))
  {
    hide Sound, TrulyWithin, WithinBounds, PruneAll;
    ClockedSound(s, wall);
    PruneSound(t, t.meta.clock, c.policy);
    BoundsAreTrue(PruneAll(t, t.meta.clock, c.policy).store, c.policy);
  }

  // ---- over every run of the store ---------------------------------------------------------------------------

  /** Every stored context is the row of an entry of an applied batch. */
  ghost predicate Sourced(log: seq<Batch>, s: Store) {
    forall k :: k in s.contexts ==> exists i :: 0 <= i < |log| && IsOffered(s.contexts[k], log[i].content.contexts)
  }

  lemma SourcedLess(log: seq<Batch>, s: Store, t: Store)
    requires Sourced(log, s) && Submap(t.contexts, s.contexts)
    ensures Sourced(log, t)
  {
    hide IsOffered;
  }

  lemma SourcedMore(log: seq<Batch>, s: Store, r: Store, v: Store, u: Store, b: Batch, now: int, p: Policy)
    requires Sourced(log, s) && Published(s, r, v, u, b, now, p)
    ensures Sourced(log + [b], u)
  {
    hide IsOffered, StoredOrTaken, IsStored, ContextDue, ProfileDue, SessionDue, LayoutsKept, SessionsKept, Records;
    var more := log + [b];
    forall k | k in u.contexts
      ensures exists i :: 0 <= i < |more| && IsOffered(u.contexts[k], more[i].content.contexts)
    {
      assert k in v.contexts && v.contexts[k] == u.contexts[k];
      if k in r.contexts {
        assert k in s.contexts && s.contexts[k] == u.contexts[k];
        var i :| 0 <= i < |log| && IsOffered(s.contexts[k], log[i].content.contexts);
        assert more[i] == log[i];
      } else {
        assert more[|log|] == b;
      }
    }
  }

  /** The tables hold what the log says, with headers that are those of their evidence. */
  ghost predicate Grounded(h: History.History) {
    True(h.store) && Sourced(h.log, h.store)
  }

  lemma OfferKeepsGround(h: History.History, b: Batch, wall: int, fault: History.Fault, c: Config)
    requires History.Consistent(h, c.policy) && Grounded(h)
    ensures Grounded(History.Apply(h, History.Offer(b, wall, fault), c))
  {
    hide True, Sourced, Published, WriteBatch, Sound;
    WriteOutcomes(h.store, b, wall, c);
    var t, w := Clocked(h.store, wall), WriteBatch(h.store, b, wall, c);
    SameTables(h.store, t);
    SourcedLess(h.log, h.store, t);
    if w.result == Success(Receipt(b.sequence, false)) {
      var r, v := WriteStores(h.store, b, wall, c);
      SourcedMore(h.log, h.store, r, v, w.store, b, Max(wall, h.store.meta.clock), c.policy);
    }
  }

  lemma TidyKeepsGround(h: History.History, wall: int, fault: History.Fault, c: Config)
    requires History.Consistent(h, c.policy) && Grounded(h)
    ensures Grounded(History.Apply(h, History.Tidy(wall, fault), c))
  {
    hide True, Sourced, PruneAll;
    var t := Clocked(h.store, wall);
    ClockedSound(h.store, wall);
    SameTables(h.store, t);
    PassStaysTrue(t, t.meta.clock, c.policy);
    PassKeepsRows(t, t.meta.clock, c.policy);
    SourcedLess(h.log, h.store, PruneAll(t, t.meta.clock, c.policy).store);
  }

  /** Over every run, whatever is lost or retried, nothing is stored that no applied batch carried. */
  lemma {:induction false} EveryRunIsGrounded(h: History.History, ops: seq<History.Operation>, c: Config)
    requires History.Consistent(h, c.policy) && Grounded(h)
    ensures Grounded(History.ApplyAll(h, ops, c))
  {
    hide Grounded, History.Consistent, History.Apply;
    if ops != [] {
      var before := History.ApplyAll(h, ops[..|ops| - 1], c);
      EveryRunIsGrounded(h, ops[..|ops| - 1], c);
      History.EveryRunIsConsistent(h, ops[..|ops| - 1], c);
      match ops[|ops| - 1]
      case Offer(b, wall, fault) => OfferKeepsGround(before, b, wall, fault, c);
      case Tidy(wall, fault) => TidyKeepsGround(before, wall, fault, c);
    }
  }

  lemma EmptyIsGrounded()
    ensures Grounded(History.History(EMPTY_STORE, []))
  {
  }
}
