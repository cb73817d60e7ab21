/** What a write may change. */
module Ledger {
  // The watermark of its own producer, new publications, and rows retention drops. On this rest the exactly-once
  // guarantee and the page walk.

  import opened Wrappers
  import opened Totals
  import opened Tables
  import opened Rows
  import opened Prune
  import opened Transaction

  // ---- publishing only adds ----------------------------------------------------------------------

  /** Publishing adds contexts above the old publication and changes no watermark and no clock. */
  ghost predicate Grown(t: Store, s: Store) {
    && t.producers == s.producers && t.meta.clock == s.meta.clock && t.meta.rows == s.meta.rows
    && t.meta.publication >= s.meta.publication
    && Submap(s.contexts, t.contexts)
    && (forall k :: k in t.contexts && k !in s.contexts ==> k > s.meta.publication)
  }

  lemma GrownTransitive(u: Store, t: Store, s: Store)
    requires Grown(u, t) && Grown(t, s)
    ensures Grown(u, s)
  {
  }

  lemma {:induction false} PutSessionsGrow(s: Store, entries: seq<SessionEntry>)
    requires PutSessions(s, entries).Success?
    ensures Grown(PutSessions(s, entries).value, s) && PutSessions(s, entries).value.imports == s.imports
  {
    if entries != [] {
      PutSessionsGrow(s, entries[..|entries| - 1]);
    }
  }

  lemma PutContextGrows(s: Store, e: ContextEntry)
    requires Filed(s.contexts) && s.meta.publication + 1 !in s.contexts
    requires PutContext(s, e).Success?
    ensures Grown(PutContext(s, e).value, s) && PutContext(s, e).value.imports == s.imports
  {
  }

  ghost predicate Bounded(s: Store) {
    forall k :: k in s.contexts ==> s.contexts[k].publication == k && 1 <= k <= s.meta.publication
  }

  lemma {:induction false} PutContextsGrow(s: Store, entries: seq<ContextEntry>)
    requires Bounded(s) && PutContexts(s, entries).Success?
    ensures Bounded(PutContexts(s, entries).value)
    ensures Grown(PutContexts(s, entries).value, s) && PutContexts(s, entries).value.imports == s.imports
  {
    if entries != [] {
      PutContextsGrow(s, entries[..|entries| - 1]);
      var t := PutContexts(s, entries[..|entries| - 1]).value;
      PutContextGrows(t, entries[|entries| - 1]);
      GrownTransitive(PutContexts(s, entries).value, t, s);
    }
  }

  lemma {:induction false} PutProfilesGrow(s: Store, entries: seq<Aggregate>, now: int, c: Config)
    requires PutProfiles(s, entries, now, c).Success?
    ensures Grown(PutProfiles(s, entries, now, c).value, s) && PutProfiles(s, entries, now, c).value.imports == s.imports
  {
    if entries != [] {
      PutProfilesGrow(s, entries[..|entries| - 1], now, c);
    }
  }

  /** The checkpoint replaces its own import row and no other. */
  function Checkpointed(imports: map<Text, ImportRow>, content: Content): map<Text, ImportRow> {
    if content.checkpoint.None? then imports
    else
      var c := content.checkpoint.value;
      imports[c.record.id := ImportRow(c.record, CheckpointSize(c))]
  }

  lemma PutContentGrows(s: Store, content: Content, now: int, c: Config)
    requires Bounded(s) && PutContent(s, content, now, c).Success?
    ensures var t := PutContent(s, content, now, c).value;
      Grown(t, s) && t.imports == Checkpointed(s.imports, content)
  {
    PutSessionsGrow(s, content.sessions);
    var a := PutSessions(s, content.sessions).value;
    assert Bounded(a) by { PutSessionsSameContexts(s, content.sessions); }
    PutContextsGrow(a, content.contexts);
    var b := PutContexts(a, content.contexts).value;
    PutProfilesGrow(b, content.profiles, now, c);
    GrownTransitive(b, a, s);
    GrownTransitive(PutProfiles(b, content.profiles, now, c).value, b, s);
  }

  lemma {:induction false} PutSessionsSameContexts(s: Store, entries: seq<SessionEntry>)
    requires PutSessions(s, entries).Success?
    ensures PutSessions(s, entries).value.contexts == s.contexts
    ensures PutSessions(s, entries).value.meta.publication >= s.meta.publication
  {
    hide PutSession;
    if entries != [] {
      var init := entries[..|entries| - 1];
      PutSessionsSameContexts(s, init);
      PutSessionSameContexts(PutSessions(s, init).value, entries[|entries| - 1]);
    }
  }

  lemma PutSessionSameContexts(s: Store, e: SessionEntry)
    requires PutSession(s, e).Success?
    ensures PutSession(s, e).value.contexts == s.contexts && PutSession(s, e).value.meta.publication >= s.meta.publication
  {
  }

  // ---- the whole transaction ---------------------------------------------------------------------

  /** Watermarks of other producers stay as they are or were expired when they went. */
  ghost predicate OthersKept(t: map<Producer, Watermark>, s: map<Producer, Watermark>, own: Producer, now: int) {
    && (forall p :: p in t && p != own ==> p in s && t[p] == s[p])
    && (forall p :: p in s && p !in t ==> s[p].expires <= now)
  }

  /** Stored contexts are old ones, unchanged, or new ones above the old publication. */
  ghost predicate ContextsKept(t: Store, s: Store) {
    && t.meta.publication >= s.meta.publication
    && (forall k :: k in t.contexts && k <= s.meta.publication ==> k in s.contexts && t.contexts[k] == s.contexts[k])
  }

  /** Every stored watermark expires a fixed horizon after the issue time in its producer's name. */
  ghost predicate FixedExpiry(s: Store, p: Policy) {
    forall k :: k in s.producers ==> s.producers[k].expires == Expiry(k, p)
  }

  lemma RegisteredEffect(s: Store, b: Batch, now: int, c: Config)
    requires Sound(s) && FixedExpiry(s, c.policy) && Expiry(b.producer, c.policy) > now
    requires Registered(s, b, now, c).Success?
    ensures var t := Registered(s, b, now, c).value;
      && b.producer in t.producers && t.producers[b.producer].expires == Expiry(b.producer, c.policy)
      && OthersKept(t.producers, s.producers, b.producer, now) && ContextsKept(t, s)
      && t.imports == s.imports && t.meta.clock == s.meta.clock
  {
    var t := PruneAll(s, now, c.policy).store;
    assert Retained(s, t, now) by { PruneRetains(s, now, c.policy); }
    EnlistedEffect(s, t, b.producer, now, c.policy);
  }

  lemma EnlistedEffect(s: Store, t: Store, own: Producer, now: int, p: Policy)
    requires Retained(s, t, now) && FixedExpiry(s, p) && Expiry(own, p) > now
    ensures ContextsKept(t, s) && OthersKept(t.producers, s.producers, own, now)
    ensures own in s.producers ==> own in t.producers && t.producers[own].expires == Expiry(own, p)
    ensures own !in s.producers ==> OthersKept(AddProducer(t, own, Expiry(own, p)).producers, s.producers, own, now)
  {
    hide ContextsKept;
    RetainedContexts(s, t, now);
    if own !in s.producers {
      AddedOthers(t.producers, s.producers, own, Watermark(t.meta.rows, Expiry(own, p), 0, None), now);
    }
  }

  lemma RetainedContexts(s: Store, t: Store, now: int)
    requires Retained(s, t, now)
    ensures ContextsKept(t, s)
  {
  }

  lemma AddedOthers(t: map<Producer, Watermark>, s: map<Producer, Watermark>, own: Producer, w: Watermark, now: int)
    requires OthersKept(t, s, own, now)
    ensures OthersKept(t[own := w], s, own, now)
  {
  }

  lemma FinishedEffect(s: Store, b: Batch, now: int, c: Config)
    requires Sound(s) && b.producer in s.producers && s.producers[b.producer].expires > now
    ensures var t := Finished(s, b, now, c);
      && b.producer in t.producers
      && t.producers[b.producer] == s.producers[b.producer].(sequence := b.sequence, digest := Some(b.content))
      && OthersKept(t.producers, s.producers, b.producer, now) && ContextsKept(t, s)
      && t.imports == s.imports && t.meta.clock == s.meta.clock
  {
    PruneRetains(s, now, c.policy);
  }

  /** Everything a committed publication does to the watermarks, the clock, the old contexts and the imports. */
  ghost predicate Advances(u: Store, s: Store, b: Batch, now: int, p: Policy) {
    && b.producer in u.producers
    && u.producers[b.producer].sequence == b.sequence && u.producers[b.producer].digest == Some(b.content)
    && u.producers[b.producer].expires == Expiry(b.producer, p)
    && OthersKept(u.producers, s.producers, b.producer, now) && ContextsKept(u, s)
    && u.imports == Checkpointed(s.imports, b.content) && u.meta.clock == s.meta.clock
  }

  lemma TailEffect(s: Store, b: Batch, now: int, c: Config)
    requires Sound(s) && b.producer in s.producers && s.producers[b.producer].expires == Expiry(b.producer, c.policy) > now
    requires PutContent(s, b.content, now, c).Success?
    ensures Advances(Finished(PutContent(s, b.content, now, c).value, b, now, c), s, b, now, c.policy)
  {
    assert Bounded(s) by { SoundParts(s); }
    PutContentGrows(s, b.content, now, c);
    PutContentSound(s, b.content, now, c);
    FinishedEffect(PutContent(s, b.content, now, c).value, b, now, c);
  }

  lemma AdvancesAfter(u: Store, t: Store, s: Store, b: Batch, now: int, p: Policy)
    requires Advances(u, t, b, now, p)
    requires OthersKept(t.producers, s.producers, b.producer, now) && ContextsKept(t, s)
    requires t.imports == s.imports && t.meta.clock == s.meta.clock
    ensures Advances(u, s, b, now, p)
  {
  }

  lemma RegisteredTail(s: Store, t: Store, b: Batch, now: int, c: Config)
    requires Registered(s, b, now, c) == Success(t) && Publish(s, b, now, c).Success?
    requires Sound(t) && b.producer in t.producers && t.producers[b.producer].expires == Expiry(b.producer, c.policy) > now
    ensures Advances(Publish(s, b, now, c).value, t, b, now, c.policy)
  {
    TailEffect(t, b, now, c);
  }

  /** A committed publication advances exactly its own watermark. */
  lemma PublishEffect(s: Store, b: Batch, now: int, c: Config)
    requires Sound(s) && FixedExpiry(s, c.policy) && Expiry(b.producer, c.policy) > now
    requires Publish(s, b, now, c).Success?
    ensures Advances(Publish(s, b, now, c).value, s, b, now, c.policy)
  {
    var t := Registered(s, b, now, c).value;
    RegisteredEffect(s, b, now, c);
    assert Advances(Publish(s, b, now, c).value, t, b, now, c.policy) by {
      RegisteredSound(s, b, now, c);
      RegisteredTail(s, t, b, now, c);
    }
    AdvancesAfter(Publish(s, b, now, c).value, t, s, b, now, c.policy);
  }
}
