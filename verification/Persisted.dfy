/** What a publication leaves in the tables. */
module Persisted {
  // Stated on the offered entries and the rows, for single entries, for the sequences of a batch and for a whole write.

  import opened Wrappers
  import opened Totals
  import opened Tables
  import opened Rows
  import opened Prune
  import opened Transaction
  import opened Ledger
  import opened Retention
  import Timing

  // ---- contexts ----------------------------------------------------------------------------------------

  predicate SameIdentity(h: ContextHeader, e: ContextEntry) {
    h.session == e.header.session && h.context == e.header.context
  }

  /** The evidence by which a context is recognised. */
  function Evidence(e: ContextEntry): ContextDigest {
    ContextDigest(e.header, if e.layout.Some? then Some(e.layout.value.key) else None, e.body)
  }

  /** The row of a new context: its header with the schema of its layout, its evidence, its size and its layout. */
  predicate RowFor(row: ContextRow, e: ContextEntry) {
    && row.header == e.header.(schema := if e.layout.Some? then Some(e.layout.value.content.schema) else e.header.schema)
    && row.layoutKey == (if e.layout.Some? then Some(e.layout.value.key) else None)
    && row.nbytes == e.body.size + e.identity && row.digest == Evidence(e)
  }

  ghost predicate Stores(contexts: map<nat, ContextRow>, e: ContextEntry) {
    exists p :: p in contexts && SameIdentity(contexts[p].header, e)
  }

  ghost predicate Names(entries: seq<ContextEntry>, e: ContextEntry) {
    exists i :: 0 <= i < |entries| && SameIdentity(entries[i].header, e)
  }

  /** The entries whose identity is neither stored nor offered earlier in the batch. */
  ghost function NewOnes(contexts: map<nat, ContextRow>, entries: seq<ContextEntry>): seq<ContextEntry> {
    if entries == [] then []
    else
      var init, last := entries[..|entries| - 1], entries[|entries| - 1];
      NewOnes(contexts, init) + if Stores(contexts, last) || Names(init, last) then [] else [last]
  }

  /** Whatever is stored or offered under the identity of the entry carries the same evidence. */
  ghost predicate Agrees(contexts: map<nat, ContextRow>, novel: seq<ContextEntry>, e: ContextEntry) {
    && (forall p :: p in contexts && SameIdentity(contexts[p].header, e) ==> contexts[p].digest == Evidence(e))
    && (forall j :: 0 <= j < |novel| && SameIdentity(novel[j].header, e) ==> Evidence(novel[j]) == Evidence(e))
  }

  ghost predicate SameLayout(a: Option<Layout>, b: Option<Layout>) {
    a.Some? && b.Some? && a.value.key == b.value.key ==> a.value.content == b.value.content
  }

  /** The session of a new context is stored, and nothing else is known under the key of its layout. */
  ghost predicate Insertable(s: Store, novel: seq<ContextEntry>, j: nat)
    requires j < |novel|
  {
    var e := novel[j];
    && e.header.session in s.sessions
    && (e.layout.Some? && e.layout.value.key in s.layouts ==> s.layouts[e.layout.value.key].content == e.layout.value.content)
    && forall i :: 0 <= i < j ==> SameLayout(novel[i].layout, e.layout)
  }

  /** What a sequence of contexts must satisfy to be stored. */
  ghost predicate Acceptable(s: Store, entries: seq<ContextEntry>) {
    var novel := NewOnes(s.contexts, entries);
    && (forall i :: 0 <= i < |entries| ==> Agrees(s.contexts, novel, entries[i]))
    && (forall j :: 0 <= j < |novel| ==> Insertable(s, novel, j))
  }

  /** The new contexts take the next publications in order; every old row stays. */
  ghost predicate RowsAdded(s: Store, novel: seq<ContextEntry>, t: Store) {
    && t.meta.publication == s.meta.publication + |novel|
    && (forall p :: p in s.contexts ==> p in t.contexts && t.contexts[p] == s.contexts[p])
    && (forall p :: p in t.contexts ==> p in s.contexts || s.meta.publication < p <= s.meta.publication + |novel|)
    && (forall j :: 0 <= j < |novel| ==> RowAt(t.contexts, s.meta.publication + 1 + j, novel[j]))
  }

  predicate RowAt(contexts: map<nat, ContextRow>, p: nat, e: ContextEntry) {
    p in contexts && contexts[p].publication == p && RowFor(contexts[p], e)
  }

  /** The layouts of the new contexts are stored with their content; no other layout comes and none changes. */
  ghost predicate LayoutsAdded(s: Store, novel: seq<ContextEntry>, t: Store) {
    && (forall l :: l in s.layouts ==>
          l in t.layouts && t.layouts[l].content == s.layouts[l].content && t.layouts[l].nbytes == s.layouts[l].nbytes)
    && (forall j :: 0 <= j < |novel| && novel[j].layout.Some? ==>
          novel[j].layout.value.key in t.layouts && t.layouts[novel[j].layout.value.key].content == novel[j].layout.value.content)
    && (forall l :: l in t.layouts && l !in s.layouts ==>
          exists j :: 0 <= j < |novel| && novel[j].layout.Some? && novel[j].layout.value.key == l
                      && t.layouts[l].nbytes == LayoutSize(novel[j].layout.value))
  }

  ghost predicate Added(s: Store, novel: seq<ContextEntry>, t: Store) {
    && RowsAdded(s, novel, t) && LayoutsAdded(s, novel, t) && SameSessions(t.sessions, s.sessions)
    && t.profiles == s.profiles && t.producers == s.producers && t.imports == s.imports
  }

  lemma NothingAdded(s: Store)
    ensures Added(s, [], s)
  {
  }

  lemma RowAdded(s: Store, novel: seq<ContextEntry>, t: Store, e: ContextEntry)
    requires RowsAdded(s, novel, t) && e.header.session in t.sessions && t.meta.publication + 1 !in t.contexts
    ensures RowsAdded(s, novel + [e], InsertContext(t, e))
  {
    hide AddLayout, NewLayout, RowFor, RowsAdded, NewContextRow;
    var u, p := InsertContext(t, e), t.meta.publication + 1;
    NewRowFor(e, p);
    RowsMore(s, novel, t, novel + [e], u, e);
  }

  lemma NewRowFor(e: ContextEntry, publication: nat)
    ensures RowFor(NewContextRow(e, publication), e) && NewContextRow(e, publication).publication == publication
  {
  }

  lemma RowsMore(s: Store, novel: seq<ContextEntry>, t: Store, more: seq<ContextEntry>, u: Store, e: ContextEntry)
    requires RowsAdded(s, novel, t) && more == novel + [e] && u.meta.publication == t.meta.publication + 1
    requires u.meta.publication !in t.contexts && u.meta.publication in u.contexts
    requires u.contexts == t.contexts[u.meta.publication := u.contexts[u.meta.publication]]
    requires u.contexts[u.meta.publication].publication == u.meta.publication && RowFor(u.contexts[u.meta.publication], e)
    ensures RowsAdded(s, more, u)
  {
    forall j | 0 <= j < |more|
      ensures RowAt(u.contexts, s.meta.publication + 1 + j, more[j])
    {
      if j < |novel| {
        assert more[j] == novel[j];
      }
    }
    assert u.meta.publication == s.meta.publication + |more|;
    assert forall p :: p in s.contexts ==> p in u.contexts && u.contexts[p] == s.contexts[p];
    assert forall p :: p in u.contexts ==> p in s.contexts || s.meta.publication < p <= s.meta.publication + |more|;
  }

  lemma LayoutAdded(s: Store, novel: seq<ContextEntry>, t: Store, e: ContextEntry)
    requires LayoutsAdded(s, novel, t) && e.header.session in t.sessions && !LayoutConflict(t.layouts, e)
    ensures LayoutsAdded(s, novel + [e], InsertContext(t, e))
  {
    var u, more := InsertContext(t, e), novel + [e];
    assert u.layouts == AddLayout(t.layouts, e);
    forall j | 0 <= j < |more| && more[j].layout.Some?
      ensures more[j].layout.value.key in u.layouts && u.layouts[more[j].layout.value.key].content == more[j].layout.value.content
    {
      assert j < |novel| ==> more[j] == novel[j];
    }
    forall l | l in u.layouts && l !in s.layouts
      ensures exists j :: 0 <= j < |more| && more[j].layout.Some? && more[j].layout.value.key == l
                          && u.layouts[l].nbytes == LayoutSize(more[j].layout.value)
    {
      if l in t.layouts {
        var j :| 0 <= j < |novel| && novel[j].layout.Some? && novel[j].layout.value.key == l
                 && t.layouts[l].nbytes == LayoutSize(novel[j].layout.value);
        assert more[j] == novel[j];
      } else {
        assert more[|novel|] == e;
      }
    }
  }

  lemma ContextAdded(s: Store, novel: seq<ContextEntry>, t: Store, e: ContextEntry)
    requires Added(s, novel, t) && e.header.session in t.sessions && t.meta.publication + 1 !in t.contexts && !LayoutConflict(t.layouts, e)
    ensures Added(s, novel + [e], InsertContext(t, e))
  {
    hide RowsAdded, LayoutsAdded;
    RowAdded(s, novel, t, e);
    LayoutAdded(s, novel, t, e);
  }

  /** Every identity offered is stored or among the new ones, which are entries of the batch with identities of their own. */
  lemma {:induction false} NewOnesCover(contexts: map<nat, ContextRow>, entries: seq<ContextEntry>)
    ensures forall i :: 0 <= i < |entries| ==> Stores(contexts, entries[i]) || Names(NewOnes(contexts, entries), entries[i])
    ensures forall e :: e in NewOnes(contexts, entries) ==> e in entries && !Stores(contexts, e)
  {
    if entries != [] {
      var init, last := entries[..|entries| - 1], entries[|entries| - 1];
      var before, novel := NewOnes(contexts, init), NewOnes(contexts, entries);
      NewOnesCover(contexts, init);
      forall i | 0 <= i < |entries|
        ensures Stores(contexts, entries[i]) || Names(novel, entries[i])
      {
        if i == |init| && !Stores(contexts, last) && !Names(init, last) {
          assert SameIdentity(novel[|before|].header, last);
        } else {
          var e := if i < |init| then init[i] else last;
          if i == |init| && !Stores(contexts, last) {
            NamedByNew(contexts, init, last);
          }
          if Names(before, e) {
            var j :| 0 <= j < |before| && SameIdentity(before[j].header, e);
            assert novel[j] == before[j];
          }
        }
      }
      forall e | e in novel
        ensures e in entries && !Stores(contexts, e)
      {
        if e in before {
          assert e in init;
        }
      }
    }
  }

  lemma NamedByNew(contexts: map<nat, ContextRow>, entries: seq<ContextEntry>, e: ContextEntry)
    requires forall i :: 0 <= i < |entries| ==> Stores(contexts, entries[i]) || Names(NewOnes(contexts, entries), entries[i])
    requires Names(entries, e) && !Stores(contexts, e)
    ensures Names(NewOnes(contexts, entries), e)
  {
    var novel := NewOnes(contexts, entries);
    var i :| 0 <= i < |entries| && SameIdentity(entries[i].header, e);
    assert !Stores(contexts, entries[i]);
    var j :| 0 <= j < |novel| && SameIdentity(novel[j].header, entries[i]);
    assert SameIdentity(novel[j].header, e);
  }

  lemma RowOfNew(s: Store, novel: seq<ContextEntry>, t: Store, j: nat)
    requires RowsAdded(s, novel, t) && j < |novel|
    ensures var p := s.meta.publication + 1 + j; p in t.contexts && t.contexts[p].publication == p && RowFor(t.contexts[p], novel[j])
  {
    var e := novel[j];
  }

  lemma NewOfRow(s: Store, novel: seq<ContextEntry>, t: Store, p: nat) returns (j: nat)
    requires RowsAdded(s, novel, t) && p in t.contexts && p !in s.contexts
    ensures j < |novel| && p == s.meta.publication + 1 + j && t.contexts[p].publication == p && RowFor(t.contexts[p], novel[j])
  {
    j := p - s.meta.publication - 1;
    RowOfNew(s, novel, t, j);
  }

  /** After the new ones went in, an entry is known exactly if it was stored or is named by one of them. */
  lemma KnownMeans(s: Store, novel: seq<ContextEntry>, t: Store, e: ContextEntry)
    requires RowsAdded(s, novel, t)
    ensures Known(t, e) <==> Stores(s.contexts, e) || Names(novel, e)
  {
    if Known(t, e) {
      var p :| p in t.contexts && SameContext(t.contexts[p].header, e.header);
      if p in s.contexts {
        assert SameIdentity(s.contexts[p].header, e);
      } else {
        var j := NewOfRow(s, novel, t, p);
        assert SameIdentity(novel[j].header, e);
      }
    }
    if Stores(s.contexts, e) {
      var p :| p in s.contexts && SameIdentity(s.contexts[p].header, e);
      assert p in t.contexts && SameContext(t.contexts[p].header, e.header);
    }
    if Names(novel, e) {
      var j :| 0 <= j < |novel| && SameIdentity(novel[j].header, e);
      RowOfNew(s, novel, t, j);
      assert SameContext(t.contexts[s.meta.publication + 1 + j].header, e.header);
    }
  }

  /** A known entry is accepted exactly if everything under its identity carries the same evidence. */
  lemma KnownAgrees(s: Store, novel: seq<ContextEntry>, t: Store, e: ContextEntry)
    requires RowsAdded(s, novel, t) && ContextKeys(t.contexts) && Known(t, e)
    ensures KnownAs(t, e) <==> Agrees(s.contexts, novel, e)
  {
    var q :| q in t.contexts && SameContext(t.contexts[q].header, e.header);
    assert KnownAs(t, e) <==> t.contexts[q].digest == DigestOf(e);
    assert DigestOf(e) == Evidence(e);
    if q in s.contexts {
      assert SameIdentity(s.contexts[q].header, e);
    } else {
      var j := NewOfRow(s, novel, t, q);
      assert SameIdentity(novel[j].header, e);
    }
    forall p | p in s.contexts && SameIdentity(s.contexts[p].header, e)
      ensures p == q
    {
      assert SameContext(t.contexts[p].header, t.contexts[q].header);
    }
    forall j | 0 <= j < |novel| && SameIdentity(novel[j].header, e)
      ensures Evidence(novel[j]) == t.contexts[q].digest
    {
      RowOfNew(s, novel, t, j);
      assert SameContext(t.contexts[s.meta.publication + 1 + j].header, t.contexts[q].header);
    }
  }

  /** Nothing conflicts with the layout of a new context exactly if it has the content of what is stored and came before. */
  lemma LayoutAgrees(s: Store, novel: seq<ContextEntry>, t: Store, e: ContextEntry)
    requires Added(s, novel, t)
    ensures (e.header.session in t.sessions && !LayoutConflict(t.layouts, e)) <==> Insertable(s, novel + [e], |novel|)
  {
    var more := novel + [e];
    assert forall i :: 0 <= i < |novel| ==> more[i] == novel[i];
    assert more[|novel|] == e;
    if e.layout.Some? {
      var l := e.layout.value.key;
      if l in t.layouts && l !in s.layouts {
        var j :| 0 <= j < |novel| && novel[j].layout.Some? && novel[j].layout.value.key == l;
        assert SameLayout(more[j].layout, e.layout) <==> t.layouts[l].content == e.layout.value.content;
      }
    }
  }

  /** One more entry: what `Acceptable` asks of it. */
  ghost predicate Admissible(s: Store, entries: seq<ContextEntry>, e: ContextEntry) {
    var novel := NewOnes(s.contexts, entries);
    if Stores(s.contexts, e) || Names(entries, e) then Agrees(s.contexts, novel, e) else Insertable(s, novel + [e], |novel|)
  }

  lemma AcceptableMore(s: Store, entries: seq<ContextEntry>, e: ContextEntry)
    ensures Acceptable(s, entries + [e]) <==> Acceptable(s, entries) && Admissible(s, entries, e)
  {
    var all, novel := entries + [e], NewOnes(s.contexts, entries);
    assert all[..|all| - 1] == entries;
    var more := NewOnes(s.contexts, all);
    forall i | 0 <= i < |entries|
      ensures all[i] == entries[i]
    {
    }
    if Stores(s.contexts, e) || Names(entries, e) {
      assert more == novel;
      assert Acceptable(s, all) <==> Acceptable(s, entries) && Agrees(s.contexts, novel, all[|entries|]);
    } else {
      NewAccepted(s, entries, e);
    }
  }

  lemma NewAccepted(s: Store, entries: seq<ContextEntry>, e: ContextEntry)
    requires !Stores(s.contexts, e) && !Names(entries, e)
    ensures Acceptable(s, entries + [e]) <==> Acceptable(s, entries) && Admissible(s, entries, e)
  {
    hide Agrees, Insertable, Stores, Names;
    var all, novel := entries + [e], NewOnes(s.contexts, entries);
    assert all[..|all| - 1] == entries;
    var more := novel + [e];
    assert NewOnes(s.contexts, all) == more;
    NewAgrees(s.contexts, entries, e);
    forall i | 0 <= i < |entries|
      ensures Agrees(s.contexts, more, all[i]) <==> Agrees(s.contexts, novel, entries[i])
    {
      assert all[i] == entries[i];
    }
    assert all[|entries|] == e;
    forall j | 0 <= j < |novel|
      ensures Insertable(s, more, j) <==> Insertable(s, novel, j)
    {
      InsertableUnmoved(s, novel, e, j);
    }
  }

  lemma InsertableUnmoved(s: Store, novel: seq<ContextEntry>, e: ContextEntry, j: nat)
    requires j < |novel|
    ensures Insertable(s, novel + [e], j) <==> Insertable(s, novel, j)
  {
    assert forall i :: 0 <= i <= j ==> (novel + [e])[i] == novel[i];
  }

  lemma AgreesUnmoved(contexts: map<nat, ContextRow>, novel: seq<ContextEntry>, e: ContextEntry, d: ContextEntry)
    requires !SameIdentity(e.header, d)
    ensures Agrees(contexts, novel + [e], d) <==> Agrees(contexts, novel, d)
  {
    var more := novel + [e];
    assert forall j :: 0 <= j < |novel| ==> more[j] == novel[j];
    assert more[|novel|] == e;
  }

  lemma UnknownAgrees(contexts: map<nat, ContextRow>, novel: seq<ContextEntry>, e: ContextEntry)
    requires !Stores(contexts, e) && forall j :: 0 <= j < |novel| ==> !SameIdentity(novel[j].header, e)
    ensures Agrees(contexts, novel + [e], e)
  {
    var more := novel + [e];
    assert forall j :: 0 <= j < |novel| ==> more[j] == novel[j];
  }

  /** A new entry agrees with itself and says nothing about the others. */
  lemma NewAgrees(contexts: map<nat, ContextRow>, entries: seq<ContextEntry>, e: ContextEntry)
    requires !Stores(contexts, e) && !Names(entries, e)
    ensures var novel := NewOnes(contexts, entries);
      && Agrees(contexts, novel + [e], e)
      && forall i :: 0 <= i < |entries| ==> (Agrees(contexts, novel + [e], entries[i]) <==> Agrees(contexts, novel, entries[i]))
  {
    hide Agrees, Stores, NewOnes;
    var novel := NewOnes(contexts, entries);
    NewOnesCover(contexts, entries);
    forall j | 0 <= j < |novel|
      ensures !SameIdentity(novel[j].header, e)
    {
      assert novel[j] in novel;
      var i :| 0 <= i < |entries| && entries[i] == novel[j];
    }
    UnknownAgrees(contexts, novel, e);
    forall i | 0 <= i < |entries|
      ensures Agrees(contexts, novel + [e], entries[i]) <==> Agrees(contexts, novel, entries[i])
    {
      AgreesUnmoved(contexts, novel, e, entries[i]);
    }
  }

  /** One entry is stored, recognised or refused as `Admissible` says. */
  lemma PutContextDecides(s: Store, entries: seq<ContextEntry>, t: Store, e: ContextEntry)
    requires Sound(t) && Added(s, NewOnes(s.contexts, entries), t)
    ensures PutContext(t, e).Success? <==> Admissible(s, entries, e)
    ensures PutContext(t, e).Failure? ==> PutContext(t, e) == Failure(Contract)
    ensures PutContext(t, e).Success? ==> Added(s, NewOnes(s.contexts, entries + [e]), PutContext(t, e).value)
  {
    hide Known, KnownAs, Stores, Names, Agrees, Insertable, LayoutConflict, RowsAdded, LayoutsAdded, InsertContext, Sound;
    var novel, all := NewOnes(s.contexts, entries), entries + [e];
    assert all[..|all| - 1] == entries && all[|all| - 1] == e;
    NamesNew(s.contexts, entries, e);
    KnownMeans(s, novel, t, e);
    assert ContextKeys(t.contexts) && t.meta.publication + 1 !in t.contexts by { SoundParts(t); }
    if Known(t, e) {
      assert NewOnes(s.contexts, all) == novel;
      KnownAgrees(s, novel, t, e);
    } else {
      LayoutAgrees(s, novel, t, e);
      if e.header.session in t.sessions && !LayoutConflict(t.layouts, e) {
        ContextAdded(s, novel, t, e);
      }
    }
  }

  lemma NamesNew(contexts: map<nat, ContextRow>, entries: seq<ContextEntry>, e: ContextEntry)
    ensures Stores(contexts, e) || Names(entries, e) <==> Stores(contexts, e) || Names(NewOnes(contexts, entries), e)
  {
    NewOnesCover(contexts, entries);
    if !Stores(contexts, e) {
      if Names(entries, e) {
        NamedByNew(contexts, entries, e);
      }
      var novel := NewOnes(contexts, entries);
      if Names(novel, e) {
        var j :| 0 <= j < |novel| && SameIdentity(novel[j].header, e);
        assert novel[j] in novel;
        var i :| 0 <= i < |entries| && entries[i] == novel[j];
        assert SameIdentity(entries[i].header, e);
      }
    }
  }

  /**
    A sequence of contexts is stored exactly when it is acceptable, and refused as a contract error otherwise. Stored,
    every new context has its row and its layout, under the next publications in order, and nothing else was added.
   */
  lemma {:induction false} ContextsStored(s: Store, entries: seq<ContextEntry>)
    requires Sound(s)
    ensures PutContexts(s, entries).Success? <==> Acceptable(s, entries)
    ensures PutContexts(s, entries).Failure? ==> PutContexts(s, entries) == Failure(Contract)
    ensures PutContexts(s, entries).Success? ==> Added(s, NewOnes(s.contexts, entries), PutContexts(s, entries).value)
  {
    hide Added, Agrees, Insertable, Admissible, Sound, PutContext;
    if entries == [] {
      NothingAdded(s);
    } else {
      var init, e := entries[..|entries| - 1], entries[|entries| - 1];
      assert entries == init + [e];
      ContextsStored(s, init);
      AcceptableMore(s, init, e);
      if PutContexts(s, init).Success? {
        PutContextsSound(s, init);
        PutContextDecides(s, init, PutContexts(s, init).value, e);
      }
    }
  }

  // ---- sessions ----------------------------------------------------------------------------------------

  function SessionEvidence(e: SessionEntry): SessionDigest {
    SessionDigest(e.header, e.body)
  }

  function StartEvidence(e: SessionEntry): SessionStartup {
    SessionStartup(e.header.(shutdown := None), e.settings, e.environment)
  }

  /** The entry repeats what is stored, or adds a shutdown to a session that started the same way and has none. */
  predicate MayFollow(row: SessionRow, e: SessionEntry) {
    || row.digest == SessionEvidence(e)
    || (row.startup == StartEvidence(e) && row.header.shutdown.None? && e.header.shutdown.Some?)
  }

  /** The row of a new session, or of a stored one that is shut now and keeps its start and its contexts. */
  predicate SessionRowFor(before: map<Text, SessionRow>, row: SessionRow, e: SessionEntry, publication: nat) {
    && row.publication == publication && row.nbytes == e.body.size + e.identity && row.digest == SessionEvidence(e)
    && if e.header.id in before then
         var prior := before[e.header.id];
         row.header == prior.header.(shutdown := e.header.shutdown) && row.startup == prior.startup && row.refs == prior.refs
       else row.header == e.header && row.startup == StartEvidence(e) && row.refs == 0
  }

  /** A session is stored, left as it is, or refused; a shutdown is recorded, and nothing else of a stored session changes. */
  lemma SessionStored(s: Store, e: SessionEntry)
    ensures PutSession(s, e).Success? <==> (e.header.id in s.sessions ==> MayFollow(s.sessions[e.header.id], e))
    ensures PutSession(s, e).Failure? ==> PutSession(s, e) == Failure(Contract)
    ensures PutSession(s, e).Success? ==>
              var t, id := PutSession(s, e).value, e.header.id;
              && id in t.sessions && t.sessions - {id} == s.sessions - {id}
              && t.contexts == s.contexts && t.layouts == s.layouts && t.profiles == s.profiles
              && t.producers == s.producers && t.imports == s.imports
              && if id in s.sessions && s.sessions[id].digest == SessionEvidence(e) then t == s
                 else SessionRowFor(s.sessions, t.sessions[id], e, s.meta.publication + 1) && t.meta.publication == s.meta.publication + 1
  {
  }

  /** What a stored session says of an entry: the same header, and its shutdown if it has one. */
  predicate Records(sessions: map<Text, SessionRow>, e: SessionEntry) {
    && e.header.id in sessions
    && sessions[e.header.id].header.(shutdown := None) == e.header.(shutdown := None)
    && (e.header.shutdown.Some? ==> sessions[e.header.id].header.shutdown == e.header.shutdown)
  }

  // ---- rows and their evidence ---------------------------------------------------------------------------

  /** A context's header is the one of its evidence, with the schema of the layout stored for it. */
  predicate TrueContext(row: ContextRow, layouts: map<Text, LayoutRow>) {
    && row.layoutKey == row.digest.layoutKey
    && (row.layoutKey.None? ==> row.header == row.digest.header)
    && (row.layoutKey.Some? ==>
          row.layoutKey.value in layouts
          && row.header == row.digest.header.(schema := Some(layouts[row.layoutKey.value].content.schema)))
  }

  /** A session's header is the one of its evidence, and it started as its startup evidence says. */
  predicate TrueSession(row: SessionRow) {
    row.header == row.digest.header && row.startup.header == row.header.(shutdown := None)
  }

  ghost predicate True(s: Store) {
    && (forall p :: p in s.contexts ==> TrueContext(s.contexts[p], s.layouts))
    && (forall i :: i in s.sessions ==> TrueSession(s.sessions[i]))
  }

  lemma SessionStaysTrue(s: Store, e: SessionEntry)
    requires True(s) && PutSession(s, e).Success?
    ensures True(PutSession(s, e).value) && Records(PutSession(s, e).value.sessions, e)
    ensures forall d: SessionEntry :: Records(s.sessions, d) ==> Records(PutSession(s, e).value.sessions, d)
  {
    hide PutSession;
    SessionStored(s, e);
    var t := PutSession(s, e).value;
    forall i | i in t.sessions
      ensures TrueSession(t.sessions[i])
      ensures i != e.header.id ==> i in s.sessions && t.sessions[i] == s.sessions[i]
    {
      if i != e.header.id {
        assert i in t.sessions - {e.header.id};
      }
    }
    assert t.contexts == s.contexts && t.layouts == s.layouts;
    forall d: SessionEntry | Records(s.sessions, d)
      ensures Records(t.sessions, d)
    {
      var id := d.header.id;
      if id == e.header.id {
        assert MayFollow(s.sessions[id], e);
        if t != s {
          assert SessionRowFor(s.sessions, t.sessions[id], e, s.meta.publication + 1);
          assert d.header.shutdown.None?;
        }
      } else {
        assert id in s.sessions - {e.header.id};
      }
    }
  }

  lemma {:induction false} SessionsStayTrue(s: Store, entries: seq<SessionEntry>)
    requires True(s) && PutSessions(s, entries).Success?
    ensures True(PutSessions(s, entries).value)
    ensures forall i :: 0 <= i < |entries| ==> Records(PutSessions(s, entries).value.sessions, entries[i])
  {
    hide True, Records, PutSession;
    if entries != [] {
      var n := |entries| - 1;
      SessionsStayTrue(s, entries[..n]);
      SessionStaysTrue(PutSessions(s, entries[..n]).value, entries[n]);
      forall i | 0 <= i < n
        ensures entries[i] == entries[..n][i]
      {
      }
    }
  }

  lemma AddedStaysTrue(s: Store, novel: seq<ContextEntry>, t: Store)
    requires True(s) && Added(s, novel, t)
    ensures True(t)
  {
    forall p | p in t.contexts
      ensures TrueContext(t.contexts[p], t.layouts)
    {
      if p in s.contexts {
        assert TrueContext(s.contexts[p], s.layouts);
      } else {
        var j := NewOfRow(s, novel, t, p);
        assert novel[j].layout.Some? ==> t.layouts[novel[j].layout.value.key].content == novel[j].layout.value.content;
      }
    }
    SessionsAsTrue(s.sessions, t.sessions);
  }

  lemma SessionsAsTrue(before: map<Text, SessionRow>, after: map<Text, SessionRow>)
    requires forall i :: i in before ==> TrueSession(before[i])
    requires forall i :: i in after ==> i in before && after[i].(refs := 0) == before[i].(refs := 0)
    ensures forall i :: i in after ==> TrueSession(after[i])
  {
    forall i | i in after
      ensures TrueSession(after[i])
    {
      assert after[i].(refs := 0) == before[i].(refs := 0);
    }
  }

  /** The row `p` is that of the entry, as far as its evidence goes, and the layout it names is stored. */
  ghost predicate StoredAs(s: Store, p: nat, e: ContextEntry) {
    && p in s.contexts && SameIdentity(s.contexts[p].header, e) && s.contexts[p].digest == Evidence(e)
    && TrueContext(s.contexts[p], s.layouts)
  }

  lemma OldStored(s: Store, novel: seq<ContextEntry>, t: Store, e: ContextEntry) returns (p: nat)
    requires True(t) && RowsAdded(s, novel, t) && Agrees(s.contexts, novel, e) && Stores(s.contexts, e)
    ensures StoredAs(t, p, e)
  {
    p :| p in s.contexts && SameIdentity(s.contexts[p].header, e);
    assert p in t.contexts && t.contexts[p] == s.contexts[p];
  }

  lemma NewStored(s: Store, novel: seq<ContextEntry>, t: Store, e: ContextEntry) returns (p: nat)
    requires True(t) && RowsAdded(s, novel, t) && Agrees(s.contexts, novel, e) && Names(novel, e)
    ensures StoredAs(t, p, e)
  {
    var j :| 0 <= j < |novel| && SameIdentity(novel[j].header, e);
    RowOfNew(s, novel, t, j);
    p := s.meta.publication + 1 + j;
  }

  lemma EntriesStored(s: Store, entries: seq<ContextEntry>, t: Store, i: nat) returns (p: nat)
    requires True(t) && Acceptable(s, entries) && Added(s, NewOnes(s.contexts, entries), t) && i < |entries|
    ensures StoredAs(t, p, entries[i])
  {
    hide Insertable, RowsAdded, LayoutsAdded, Agrees, Stores, Names, StoredAs, True;
    NewOnesCover(s.contexts, entries);
    if Stores(s.contexts, entries[i]) {
      p := OldStored(s, NewOnes(s.contexts, entries), t, entries[i]);
    } else {
      p := NewStored(s, NewOnes(s.contexts, entries), t, entries[i]);
    }
  }

  // ---- profiles and checkpoints --------------------------------------------------------------------------

  /** The delta of a new key, or its merge into the stored aggregate. */
  function Joined(profiles: map<ProfileKey, ProfileRow>, delta: Aggregate): Timing.Profile {
    if delta.key in profiles && |profiles[delta.key].profile.steps| == |delta.profile.steps|
    then Timing.MergeProfiles(profiles[delta.key].profile, delta.profile) else delta.profile
  }

  predicate Countable(x: Timing.Statistics) {
    && x.observations < 0x8000_0000_0000_0000 && x.completions < 0x8000_0000_0000_0000
    && x.skips < 0x8000_0000_0000_0000 && x.failures < 0x8000_0000_0000_0000
  }

  /** A stored aggregate takes deltas of its own shape as long as no count leaves the range of a column. */
  predicate Joins(profiles: map<ProfileKey, ProfileRow>, delta: Aggregate) {
    delta.key in profiles ==>
      && |profiles[delta.key].profile.steps| == |delta.profile.steps|
      && var p := Joined(profiles, delta);
         p.runs < 0x8000_0000_0000_0000 && Countable(p.graph) && forall i :: 0 <= i < |p.steps| ==> Countable(p.steps[i])
  }

  /** A delta is stored exactly when it joins and the result fits; its row then is the result, dated now. */
  lemma ProfileStored(s: Store, delta: Aggregate, now: int, c: Config, p: Timing.Profile, body: nat)
    requires ProfileKeys(s.profiles)
    requires p == Joined(s.profiles, delta) && body == c.profileBytes(Aggregate(delta.key, p))
    ensures PutProfile(s, delta, now, c).Success? <==>
              Joins(s.profiles, delta) && body <= c.limits.maxContextBytes && body + 64 <= c.policy.profileBytes
    ensures PutProfile(s, delta, now, c).Failure? ==>
              PutProfile(s, delta, now, c)
              == Failure(if Joins(s.profiles, delta) && body <= c.limits.maxContextBytes then Backpressure else Contract)
    ensures PutProfile(s, delta, now, c).Success? ==>
              var t := PutProfile(s, delta, now, c).value;
              && t.profiles == s.profiles[delta.key := ProfileRow(p, now, s.meta.publication + 1, |p.steps|, body + 64)]
              && t.meta.publication == s.meta.publication + 1 && t.contexts == s.contexts && t.layouts == s.layouts
              && t.sessions == s.sessions && t.producers == s.producers && t.imports == s.imports
  {
    hide Timing.Merge;
  }

  lemma ImportsCounted(s: Store, id: Text, row: ImportRow)
    requires Sound(s)
    ensures var imports := s.imports[id := row];
      && |imports.Keys| == s.meta.imports + (if id in s.imports then 0 else 1)
      && Total(imports, ImportBytes()) == s.meta.importBytes + row.nbytes - (if id in s.imports then s.imports[id].nbytes else 0)
  {
    assert Tally(s.meta.imports, s.meta.importBytes, s.imports, ImportBytes()) by { SoundParts(s); }
    TallyPut(s.meta.imports, s.meta.importBytes, s.imports, ImportBytes(), id, row);
  }

  /** A checkpoint replaces the one of its import unless the ledger's true count or size would exceed the policy. */
  lemma CheckpointStored(s: Store, c: Checkpoint, p: Policy, imports: map<Text, ImportRow>)
    requires Sound(s) && imports == s.imports[c.record.id := ImportRow(c.record, c.bodyBytes + c.record.id.size)]
    ensures PutCheckpoint(s, c, p).Success? <==> |imports.Keys| <= p.imports && Total(imports, ImportBytes()) <= p.importBytes
    ensures PutCheckpoint(s, c, p).Failure? ==> PutCheckpoint(s, c, p) == Failure(Backpressure)
    ensures PutCheckpoint(s, c, p).Success? ==>
              var t := PutCheckpoint(s, c, p).value;
              && t.imports == imports && t.meta.publication == s.meta.publication && t.contexts == s.contexts
              && t.layouts == s.layouts && t.sessions == s.sessions && t.producers == s.producers && t.profiles == s.profiles
  {
    hide Sound, Total;
    ImportsCounted(s, c.record.id, ImportRow(c.record, c.bodyBytes + c.record.id.size));
  }
}
