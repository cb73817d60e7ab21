/**
  The backend with its tables as mutable state. Each method refines a function on table values:
  a transaction that raises restores the tables it found, layouts are re-read only once per batch,
  context totals are applied once after the loop, and retention re-reads metadata only after a deletion.
 */
module SQLiteBackend {
  import opened Wrappers
  import opened Totals
  import opened Tables
  import opened Rows
  import opened Prune
  import opened Transaction
  import opened Ledger
  import Paging
  import Timing

  // ---- sequences of puts stop at the first failure ---------------------------------------------------

  lemma {:induction false} SessionsStop(s: Store, entries: seq<SessionEntry>, i: nat)
    requires i <= |entries| && PutSessions(s, entries[..i]).Failure?
    ensures PutSessions(s, entries) == PutSessions(s, entries[..i])
    decreases |entries|
  {
    if i < |entries| {
      var init := entries[..|entries| - 1];
      assert init[..i] == entries[..i];
      SessionsStop(s, init, i);
    } else {
      assert entries[..i] == entries;
    }
  }

  lemma {:induction false} ContextsStop(s: Store, entries: seq<ContextEntry>, i: nat)
    requires i <= |entries| && PutContexts(s, entries[..i]).Failure?
    ensures PutContexts(s, entries) == PutContexts(s, entries[..i])
    decreases |entries|
  {
    if i < |entries| {
      var init := entries[..|entries| - 1];
      assert init[..i] == entries[..i];
      ContextsStop(s, init, i);
    } else {
      assert entries[..i] == entries;
    }
  }

  lemma {:induction false} ProfilesStop(s: Store, entries: seq<Aggregate>, now: int, c: Config, i: nat)
    requires i <= |entries| && PutProfiles(s, entries[..i], now, c).Failure?
    ensures PutProfiles(s, entries, now, c) == PutProfiles(s, entries[..i], now, c)
    decreases |entries|
  {
    if i < |entries| {
      var init := entries[..|entries| - 1];
      assert init[..i] == entries[..i];
      ProfilesStop(s, init, now, c, i);
    } else {
      assert entries[..i] == entries;
    }
  }

  lemma Extend<T>(entries: seq<T>, i: nat)
    requires i < |entries|
    ensures entries[..i + 1] == entries[..i] + [entries[i]] && entries[..i + 1][..i] == entries[..i]
  {
  }

  /** The store the loop stands for while its context totals are still outside the metadata row. */
  function WithTotals(s: Store, count: nat, bytes: nat): Store {
    s.(meta := s.meta.(contexts := s.meta.contexts + count, contextBytes := s.meta.contextBytes + bytes))
  }

  /** Layout contents remembered since the batch began are the stored ones. */
  ghost predicate Remembered(seen: map<Text, LayoutContent>, layouts: map<Text, LayoutRow>) {
    forall k :: k in seen ==> k in layouts && layouts[k].content == seen[k]
  }

  /** SELECT ... ORDER BY rank LIMIT 1 finds a row unless there is none, and it is the one `First` names. */
  ghost predicate Selected<K, V>(due: map<K, V>, rank: V -> Rank) {
    && (due == map[] ==> First(due, rank).None?)
    && (due != map[] ==> exists k :: k in due && IsFirst(due, k, rank))
    && (forall k :: k in due && IsFirst(due, k, rank) ==> First(due, rank) == Some(k))
  }

  lemma DistinctWhenSound(s: Store)
    requires Sound(s)
    ensures DistinctProfiles(s.profiles) && DistinctSessions(s.sessions) && RowOrder(s.meta.rows, s.producers)
  {
    SoundParts(s);
  }

  /** Each loop of a pass finds its rows still distinguished by their publications. */
  lemma StagesSelect(s: Store, now: int, p: Policy)
    requires Sound(s)
    ensures RowOrder(s.meta.rows, s.producers) && Sound(WithoutExpired(s, now).store)
    ensures var a := WithoutExpired(s, now);
      var b := PruneContexts(a.store, now, p, a.left);
      var c := PruneProfiles(b.store, now, p, b.left);
      && DistinctProfiles(b.store.profiles) && DistinctSessions(c.store.sessions)
  {
    DistinctWhenSound(s);
    assert Sound(WithoutExpired(s, now).store) by { WithoutExpiredSound(s, now); }
    var a := WithoutExpired(s, now);
    PruneContextsFrame(a.store, now, p, a.left);
    var b := PruneContexts(a.store, now, p, a.left);
    PruneProfilesFrame(b.store, now, p, b.left);
    SameSessionsDistinct(b.store.sessions, s.sessions);
  }

  lemma SameSessionsDistinct(t: map<Text, SessionRow>, s: map<Text, SessionRow>)
    requires SameSessions(t, s) && DistinctSessions(s)
    ensures DistinctSessions(t)
  {
    forall i, j | i in t && j in t && i != j
      ensures t[i].publication != t[j].publication
    {
      assert t[i].(refs := 0) == s[i].(refs := 0) && t[j].(refs := 0) == s[j].(refs := 0);
    }
  }

  lemma FewerProfilesDistinct(profiles: map<ProfileKey, ProfileRow>, k: ProfileKey)
    requires DistinctProfiles(profiles)
    ensures DistinctProfiles(profiles - {k})
  {
  }

  class Backend {
    const config: Config
    var meta: Metadata
    var sessions: map<Text, SessionRow>
    var layouts: map<Text, LayoutRow>
    var contexts: map<nat, ContextRow>
    var profiles: map<ProfileKey, ProfileRow>
    var producers: map<Producer, Watermark>
    var imports: map<Text, ImportRow>

    constructor (config: Config)
      ensures this.config == config && State() == EMPTY_STORE
    {
      this.config := config;
      meta, sessions, layouts, contexts := EMPTY_STORE.meta, map[], map[], map[];
      profiles, producers, imports := map[], map[], map[];
    }

    function State(): Store
      reads this
    {
      Store(meta, sessions, layouts, contexts, profiles, producers, imports)
    }

    /** ROLLBACK to a snapshot of the tables. */
    method Rollback(s: Store)
      modifies this
      ensures State() == s
    {
      meta, sessions, layouts, contexts := s.meta, s.sessions, s.layouts, s.contexts;
      profiles, producers, imports := s.profiles, s.producers, s.imports;
    }

    method Clock(wall: int) returns (now: int)
      modifies this`meta
      ensures State() == Clocked(old(State()), wall) && now == meta.clock
    {
      now := if wall < meta.clock then meta.clock else wall;
      meta := meta.(clock := now);
    }

    method NextPublication() returns (publication: nat)
      modifies this`meta
      ensures publication == old(meta).publication + 1 && meta == old(meta).(publication := publication)
    {
      meta := meta.(publication := meta.publication + 1);
      publication := meta.publication;
    }

    method PutSession(e: SessionEntry) returns (r: Result<()>)
      modifies this`meta, this`sessions
      ensures r.Success? ==> Rows.PutSession(old(State()), e) == Success(State())
      ensures r.Failure? ==> Rows.PutSession(old(State()), e) == Failure(r.error)
    {
      var id, size := e.header.id, SessionSize(e);
      if id in sessions {
        var previous := sessions[id];
        if previous.digest == SessionDigest(e.header, e.body) {
          return Success(());
        }
        if previous.startup != StartupOf(e) || previous.header.shutdown.Some? || e.header.shutdown.None? {
          return Failure(Contract);
        }
        var publication := NextPublication();
        sessions := sessions[id := ShutSessionRow(previous, e, publication)];
        meta := meta.(sessionBytes := meta.sessionBytes + (size - previous.nbytes));
      } else {
        var publication := NextPublication();
        sessions := sessions[id := NewSessionRow(e, publication)];
        meta := meta.(sessions := meta.sessions + 1, sessionBytes := meta.sessionBytes + size);
      }
      r := Success(());
    }

    /** Insert or compare the layout, from memory when this batch has seen its key, and count one reference. */
    method AttachLayout(e: ContextEntry, seen: map<Text, LayoutContent>) returns (conflict: bool, seen': map<Text, LayoutContent>)
      requires Remembered(seen, layouts)
      modifies this`meta, this`layouts
      ensures conflict == LayoutConflict(old(layouts), e)
      ensures !conflict ==>
                && Remembered(seen', layouts) && layouts == AddLayout(old(layouts), e)
                && meta == old(meta).(layouts := old(meta).layouts + (if NewLayout(old(layouts), e) then 1 else 0),
                                      layoutBytes := old(meta).layoutBytes + (if NewLayout(old(layouts), e) then LayoutSize(e.layout.value) else 0))
    {
      seen' := seen;
      if e.layout.None? {
        return false, seen';
      }
      var layout := e.layout.value;
      var existing: Option<LayoutContent> := if layout.key in seen then Some(seen[layout.key]) else None;
      if existing.None? && layout.key in layouts {
        existing := Some(layouts[layout.key].content);
      }
      if existing.None? {
        layouts := layouts[layout.key := LayoutRow(layout.content, 0, LayoutSize(layout))];
        meta := meta.(layouts := meta.layouts + 1, layoutBytes := meta.layoutBytes + LayoutSize(layout));
      } else if existing.value != layout.content {
        return true, seen';
      }
      seen' := seen'[layout.key := layout.content];
      layouts := layouts[layout.key := layouts[layout.key].(refs := layouts[layout.key].refs + 1)];
      assert layouts == AddLayout(old(layouts), e);
      conflict := false;
    }

    /**
      Insert one context, leaving its count and bytes to the caller: the size is None when it was already stored.
     */
    method PutContext(e: ContextEntry, seen: map<Text, LayoutContent>)
      returns (r: Result<Option<nat>>, seen': map<Text, LayoutContent>)
      requires Remembered(seen, layouts)
      modifies this`meta, this`sessions, this`layouts, this`contexts
      ensures r.Success? ==> Remembered(seen', layouts)
      ensures r == Success(None) ==> State() == old(State()) && Rows.PutContext(old(State()), e) == Success(State())
      ensures r.Success? && r.value.Some? ==>
                Rows.PutContext(old(State()), e) == Success(WithTotals(State(), 1, r.value.value))
      ensures r.Failure? ==> Rows.PutContext(old(State()), e) == Failure(r.error)
    {
      if Known(State(), e) {
        if !KnownAs(State(), e) {
          return Failure(Contract), seen;
        }
        return Success(None), seen;
      }
      var conflict;
      conflict, seen' := AttachLayout(e, seen);
      if conflict || e.header.session !in sessions {
        return Failure(Contract), seen';
      }
      var publication := NextPublication();
      contexts := contexts[publication := NewContextRow(e, publication)];
      var owner := sessions[e.header.session];
      sessions := sessions[e.header.session := owner.(refs := owner.refs + 1)];
      r := Success(Some(ContextSize(e)));
    }

    /** The context loop of a batch: one metadata update for all its totals. */
    method PutContexts(entries: seq<ContextEntry>) returns (r: Result<()>)
      modifies this`meta, this`sessions, this`layouts, this`contexts
      ensures r.Success? ==> Transaction.PutContexts(old(State()), entries) == Success(State())
      ensures r.Failure? ==> Transaction.PutContexts(old(State()), entries) == Failure(r.error)
    {
      hide Rows.PutContext;
      ghost var before := State();
      var seen: map<Text, LayoutContent> := map[];
      var count: nat, bytes: nat := 0, 0;
      for i := 0 to |entries|
        invariant Remembered(seen, layouts)
        invariant Transaction.PutContexts(before, entries[..i]) == Success(WithTotals(State(), count, bytes))
        invariant count == 0 ==> bytes == 0
      {
        ghost var start := State();
        var size: Result<Option<nat>>;
        size, seen := PutContext(entries[i], seen);
        Extend(entries, i);
        TotalsCommute(start, entries[i], count, bytes);
        if size.Failure? {
          ContextsStop(before, entries, i + 1);
          return Failure(size.error);
        }
        if size.value.Some? {
          count := count + 1;
          bytes := bytes + size.value.value;
        }
      }
      if count != 0 {
        meta := meta.(contexts := meta.contexts + count, contextBytes := meta.contextBytes + bytes);
      }
      assert entries[..|entries|] == entries;
      r := Success(());
    }

    method PutProfile(delta: Aggregate, now: int) returns (r: Result<()>)
      modifies this`meta, this`profiles
      ensures r.Success? ==> Rows.PutProfile(old(State()), delta, now, config) == Success(State())
      ensures r.Failure? ==> Rows.PutProfile(old(State()), delta, now, config) == Failure(r.error)
    {
      var isNew := delta.key !in profiles;
      var merged := delta.profile;
      if !isNew {
        var stored := profiles[delta.key].profile;
        if |stored.steps| != |delta.profile.steps| {
          return Failure(Contract);
        }
        merged := Timing.MergeProfiles(stored, delta.profile);
        if !ProfileInRange(merged) {
          return Failure(Contract);
        }
      }
      var body := config.profileBytes(Aggregate(delta.key, merged));
      var size := body + PROFILE_KEY_BYTES;
      if body > config.limits.maxContextBytes {
        return Failure(Contract);
      }
      if size > config.policy.profileBytes {
        return Failure(Backpressure);
      }
      var publication := NextPublication();
      var steps := if isNew then |merged.steps| else profiles[delta.key].steps;
      var previous := if isNew then 0 else profiles[delta.key].nbytes;
      profiles := profiles[delta.key := ProfileRow(merged, now, publication, steps, size)];
      meta := meta.(profiles := meta.profiles + (if isNew then 1 else 0),
                    profileBytes := meta.profileBytes + (size - previous),
                    profileSteps := meta.profileSteps + (if isNew then |merged.steps| else 0));
      r := Success(());
    }

    method PutCheckpoint(c: Checkpoint) returns (r: Result<()>)
      modifies this`meta, this`imports
      ensures r.Success? ==> Rows.PutCheckpoint(old(State()), c, config.policy) == Success(State())
      ensures r.Failure? ==> Rows.PutCheckpoint(old(State()), c, config.policy) == Failure(r.error)
    {
      var id, size := c.record.id, CheckpointSize(c);
      var isNew := id !in imports;
      var previous := if isNew then 0 else imports[id].nbytes;
      if meta.imports + (if isNew then 1 else 0) > config.policy.imports
         || meta.importBytes + size - previous > config.policy.importBytes {
        return Failure(Backpressure);
      }
      imports := imports[id := ImportRow(c.record, size)];
      meta := meta.(imports := meta.imports + (if isNew then 1 else 0), importBytes := meta.importBytes + (size - previous));
      r := Success(());
    }

    method PutSessions(entries: seq<SessionEntry>) returns (r: Result<()>)
      modifies this`meta, this`sessions
      ensures r.Success? ==> Transaction.PutSessions(old(State()), entries) == Success(State())
      ensures r.Failure? ==> Transaction.PutSessions(old(State()), entries) == Failure(r.error)
    {
      ghost var before := State();
      for i := 0 to |entries|
        invariant Transaction.PutSessions(before, entries[..i]) == Success(State())
      {
        Extend(entries, i);
        var put := PutSession(entries[i]);
        if put.Failure? {
          SessionsStop(before, entries, i + 1);
          return put;
        }
      }
      assert entries[..|entries|] == entries;
      r := Success(());
    }

    method PutProfiles(entries: seq<Aggregate>, now: int) returns (r: Result<()>)
      modifies this`meta, this`profiles
      ensures r.Success? ==> Transaction.PutProfiles(old(State()), entries, now, config) == Success(State())
      ensures r.Failure? ==> Transaction.PutProfiles(old(State()), entries, now, config) == Failure(r.error)
    {
      ghost var before := State();
      for i := 0 to |entries|
        invariant Transaction.PutProfiles(before, entries[..i], now, config) == Success(State())
      {
        Extend(entries, i);
        var put := PutProfile(entries[i], now);
        if put.Failure? {
          ProfilesStop(before, entries, now, config, i + 1);
          return put;
        }
      }
      assert entries[..|entries|] == entries;
      r := Success(());
    }

    method PutContent(content: Content, now: int) returns (r: Result<()>)
      modifies this
      ensures r.Success? ==> Transaction.PutContent(old(State()), content, now, config) == Success(State())
      ensures r.Failure? ==> Transaction.PutContent(old(State()), content, now, config) == Failure(r.error)
    {
      r := PutSessions(content.sessions);
      if r.Failure? { return; }
      r := PutContexts(content.contexts);
      if r.Failure? { return; }
      r := PutProfiles(content.profiles, now);
      if r.Failure? { return; }
      if content.checkpoint.Some? {
        r := PutCheckpoint(content.checkpoint.value);
      }
    }

    method RemoveContext(publication: nat)
      requires Removable(State(), publication)
      modifies this`meta, this`contexts, this`sessions, this`layouts
      ensures State() == Rows.RemoveContext(old(State()), publication)
    {
      var row := contexts[publication];
      contexts := contexts - {publication};
      var owner := sessions[row.header.session];
      sessions := sessions[row.header.session := owner.(refs := owner.refs - 1)];
      meta := meta.(contexts := meta.contexts - 1, contextBytes := meta.contextBytes - row.nbytes);
      if row.layoutKey.Some? {
        var key := row.layoutKey.value;
        layouts := layouts[key := layouts[key].(refs := layouts[key].refs - 1)];
        var layout := layouts[key];
        if layout.refs == 0 {
          layouts := layouts - {key};
          meta := meta.(layouts := meta.layouts - 1, layoutBytes := meta.layoutBytes - layout.nbytes);
          assert layouts == old(layouts) - {key};
        }
      }
    }

    /** SELECT the earliest expired watermark and delete it. */
    method DeleteExpired(now: int, ghost left: nat, ghost whole: Watermarks) returns (found: bool)
      requires RowOrder(meta.rows, producers) && left > 0 && whole == PruneProducers(producers, now, left)
      modifies this`meta, this`producers
      ensures RowOrder(meta.rows, producers)
      ensures found ==> whole == PruneProducers(producers, now, left - 1)
      ensures meta == old(meta).(producers := old(meta).producers - (if found then 1 else 0))
      ensures !found ==> whole == Watermarks(producers, left)
    {
      var due := Expired(producers, now);
      SelectProducer(meta.rows, producers, due);
      if due == map[] {
        return false;
      }
      var k :| k in due && IsFirst(due, k, ByExpiry());
      producers := producers - {k};
      meta := meta.(producers := meta.producers - 1);
      found := true;
    }

    /** Expired watermarks go one at a time, in expiry order. */
    method PruneExpired(now: int, budget: nat) returns (left: nat)
      requires RowOrder(meta.rows, producers)
      modifies this`meta, this`producers
      ensures PruneProducers(old(producers), now, budget) == Watermarks(producers, left)
      ensures left <= budget && meta == old(meta).(producers := old(meta).producers - (budget - left))
    {
      hide RowOrder, PruneProducers;
      ghost var start, whole := meta, PruneProducers(producers, now, budget);
      left := budget;
      while left > 0
        invariant RowOrder(meta.rows, producers) && left <= budget
        invariant whole == PruneProducers(producers, now, left)
        invariant meta == start.(producers := start.producers - (budget - left))
      {
        var found := DeleteExpired(now, left, whole);
        if !found { return; }
        left := left - 1;
      }
      NoBudget(State(), now, config.policy);
    }

    /** The context loop; `m` is the metadata row as last read, dropped after each deletion. */
    method PruneOldContexts(now: int, budget: nat) returns (left: nat, m: Option<Metadata>)
      requires Sound(State())
      modifies this`meta, this`contexts, this`sessions, this`layouts
      ensures PruneContexts(old(State()), now, config.policy, budget) == Pass(State(), left)
      ensures Sound(State()) && (m.Some? ==> m.value == meta)
    {
      var p := config.policy;
      var cutoff := Cutoff(now, p.contextAge);
      left, m := budget, None;
      while left > 0
        invariant Sound(State()) && left <= budget && (m.Some? ==> m.value == meta)
        invariant PruneContexts(old(State()), now, p, budget) == PruneContexts(State(), now, p, left)
      {
        if m.None? { m := Some(meta); }
        var pressure := ContextPressure(m.value, p);
        if !pressure && cutoff.None? {
          NothingSelected(State(), now, p);
          return;
        }
        var rows := if pressure then contexts else Overdue(contexts, cutoff.value);
        assert rows == DueContexts(State(), now, p);
        FiledWhenSound(State());
        SelectContext(contexts, rows);
        if rows == map[] { return; }
        var k :| k in rows && IsFirst(rows, k, ByTime());
        RemoveContextSound(State(), k);
        RemoveContext(k);
        left, m := left - 1, None;
      }
    }

    method RemoveProfile(key: ProfileKey)
      requires key in profiles
      modifies this`meta, this`profiles
      ensures State() == Rows.RemoveProfile(old(State()), key)
    {
      var row := profiles[key];
      profiles := profiles - {key};
      meta := meta.(profiles := meta.profiles - 1, profileBytes := meta.profileBytes - row.nbytes,
                    profileSteps := meta.profileSteps - row.steps);
    }

    method RemoveSession(id: Text)
      requires id in sessions
      modifies this`meta, this`sessions
      ensures State() == Rows.RemoveSession(old(State()), id)
    {
      var row := sessions[id];
      sessions := sessions - {id};
      meta := meta.(sessions := meta.sessions - 1, sessionBytes := meta.sessionBytes - row.nbytes);
    }

    /** SELECT the profile to drop first, by pressure or age as the metadata row at hand says, and delete it. */
    method DeleteOldProfile(now: int, m: Metadata) returns (found: bool)
      requires DistinctProfiles(profiles) && m == meta
      modifies this`meta, this`profiles
      ensures DistinctProfiles(profiles)
      ensures forall left: nat :: left > 0 ==>
        PruneProfiles(old(State()), now, config.policy, left)
        == if found then PruneProfiles(State(), now, config.policy, left - 1) else Pass(old(State()), left)
      ensures !found ==> State() == old(State())
    {
      hide DistinctProfiles;
      var p := config.policy;
      var cutoff := Cutoff(now, p.profileAge);
      var pressure := ProfilePressure(m, p);
      ghost var due := DueProfiles(State(), now, p);
      SelectProfile(profiles, due);
      if !pressure && cutoff.None? { return false; }
      var rows := if pressure then profiles else Stale(profiles, cutoff.value);
      assert rows == due;
      if rows == map[] { return false; }
      var k :| k in rows && IsFirst(rows, k, ByUpdate());
      FewerProfilesDistinct(profiles, k);
      RemoveProfile(k);
      found := true;
    }

    /** The profile loop may start with the metadata row the context loop ended with. */
    method PruneOldProfiles(now: int, budget: nat, row: Option<Metadata>) returns (left: nat, m: Option<Metadata>)
      requires DistinctProfiles(profiles) && (row.Some? ==> row.value == meta)
      modifies this`meta, this`profiles
      ensures PruneProfiles(old(State()), now, config.policy, budget) == Pass(State(), left)
      ensures m.Some? ==> m.value == meta
    {
      hide DistinctProfiles, PruneProfiles;
      ghost var s, whole := State(), PruneProfiles(State(), now, config.policy, budget);
      left, m := budget, row;
      while left > 0
        invariant DistinctProfiles(profiles) && left <= budget && (m.Some? ==> m.value == meta)
        invariant s == State() && whole == PruneProfiles(s, now, config.policy, left)
      {
        if m.None? { m := Some(meta); }
        var found := DeleteOldProfile(now, m.value);
        s := State();
        if !found { return; }
        left, m := left - 1, None;
      }
      NoBudget(s, now, config.policy);
    }

    method DeleteIdleSession(now: int, m: Metadata) returns (found: bool)
      requires DistinctSessions(sessions) && m == meta
      modifies this`meta, this`sessions
      ensures DistinctSessions(sessions)
      ensures forall left: nat :: left > 0 ==>
        PruneSessions(old(State()), now, config.policy, left)
        == if found then PruneSessions(State(), now, config.policy, left - 1) else Pass(old(State()), left)
      ensures !found ==> State() == old(State())
    {
      var rows := Idle(sessions, SessionPressure(m, config.policy), Cutoff(now, config.policy.sessionAge));
      assert rows == DueSessions(State(), now, config.policy);
      SelectSession(sessions, rows);
      if rows == map[] { return false; }
      var k :| k in rows && IsFirst(rows, k, ByShutdown());
      RemoveSession(k);
      found := true;
    }

    method PruneIdleSessions(now: int, budget: nat, row: Option<Metadata>) returns (left: nat)
      requires DistinctSessions(sessions) && (row.Some? ==> row.value == meta)
      modifies this`meta, this`sessions
      ensures PruneSessions(old(State()), now, config.policy, budget) == Pass(State(), left)
    {
      hide DistinctSessions, PruneSessions;
      ghost var s, whole := State(), PruneSessions(State(), now, config.policy, budget);
      var m := row;
      left := budget;
      while left > 0
        invariant DistinctSessions(sessions) && left <= budget && (m.Some? ==> m.value == meta)
        invariant s == State() && whole == PruneSessions(s, now, config.policy, left)
      {
        if m.None? { m := Some(meta); }
        var found := DeleteIdleSession(now, m.value);
        s := State();
        if !found { return; }
        left, m := left - 1, None;
      }
      NoBudget(s, now, config.policy);
    }

    /** `_prune`: one budget of 128 rows for the four loops. */
    method Prune(now: int)
      requires Sound(State())
      modifies this
      ensures State() == PruneAll(old(State()), now, config.policy).store
    {
      ghost var before := State();
      StagesSelect(before, now, config.policy);
      var left := PruneExpired(now, MAINTENANCE_ITEMS);
      PruneProducersBudget(before.producers, now, MAINTENANCE_ITEMS);
      assert State() == WithoutExpired(before, now).store;
      var m;
      left, m := PruneOldContexts(now, left);
      left, m := PruneOldProfiles(now, left, m);
      left := PruneIdleSessions(now, left, m);
    }

    /** Retention, then the watermark row of a new producer. */
    method Register(b: Batch, now: int) returns (r: Result<()>)
      requires Sound(State())
      modifies this
      ensures r.Success? ==> Registered(old(State()), b, now, config) == Success(State())
      ensures r.Failure? ==> Registered(old(State()), b, now, config) == Failure(r.error)
    {
      ghost var s := State();
      var known := b.producer in producers;
      Prune(now);
      if known {
        return Success(());
      }
      r := Enlist(b.producer);
    }

    /** A watermark row for a producer seen for the first time, if there is room for one. */
    method Enlist(producer: Producer) returns (r: Result<()>)
      modifies this`meta, this`producers
      ensures old(meta).producers < config.policy.producers ==>
        r == Success(()) && State() == AddProducer(old(State()), producer, Expiry(producer, config.policy))
      ensures old(meta).producers >= config.policy.producers ==> r == Failure(Backpressure)
    {
      if meta.producers >= config.policy.producers {
        return Failure(Backpressure);
      }
      producers := producers[producer := Watermark(meta.rows, Expiry(producer, config.policy), 0, None)];
      meta := meta.(producers := meta.producers + 1, rows := meta.rows + 1);
      r := Success(());
    }

    /** Everything between the ordering checks and the commit. */
    method Publish(b: Batch, now: int) returns (r: Result<()>)
      requires Sound(State())
      modifies this
      ensures r.Success? ==> Transaction.Publish(old(State()), b, now, config) == Success(State())
      ensures r.Failure? ==> Transaction.Publish(old(State()), b, now, config) == Failure(r.error)
    {
      ghost var s := State();
      r := Register(b, now);
      if r.Failure? { return; }
      assert Sound(State()) by { RegisteredSound(s, b, now, config); }
      r := Fill(b, now);
    }

    /** The content, the second retention pass, the capacity test and the watermark advance. */
    method Fill(b: Batch, now: int) returns (r: Result<()>)
      requires Sound(State())
      modifies this
      ensures r.Success? ==> Filled(old(State()), b, now, config) == Success(State())
      ensures r.Failure? ==> Filled(old(State()), b, now, config) == Failure(r.error)
    {
      ghost var s := State();
      r := PutContent(b.content, now);
      if r.Failure? { return; }
      assert Sound(State()) by { PutContentSound(s, b.content, now, config); }
      Prune(now);
      r := Commit(b);
    }

    /** The capacity test and the watermark advance. */
    method Commit(b: Batch) returns (r: Result<()>)
      modifies this`producers
      ensures WithinBounds(meta, config.policy) ==> r == Success(()) && State() == Advanced(old(State()), b)
      ensures !WithinBounds(meta, config.policy) ==> r == Failure(Backpressure)
    {
      if !WithinBounds(meta, config.policy) {
        return Failure(Backpressure);
      }
      if b.producer in producers {
        producers := producers[b.producer := producers[b.producer].(sequence := b.sequence, digest := Some(b.content))];
      }
      r := Success(());
    }

    /** BEGIN IMMEDIATE ... COMMIT, or ROLLBACK to the tables as they were. */
    method Transact(b: Batch, wall: int) returns (r: Result<Receipt>)
      requires Sound(State())
      modifies this
      ensures Written(State(), r) == Transaction.Transact(old(State()), b, wall, config)
    {
      var saved := State();
      ClockedSound(saved, wall);
      var now := Clock(wall);
      if b.producer.issued > now || Expiry(b.producer, config.policy) <= now {
        Rollback(saved);
        return Failure(Contract);
      }
      if b.producer in producers && b.sequence <= producers[b.producer].sequence {
        if b.sequence == producers[b.producer].sequence && producers[b.producer].digest != Some(b.content) {
          Rollback(saved);
          return Failure(Contract);
        }
        return Success(Receipt(b.sequence, true));
      }
      var expected := if b.producer in producers then producers[b.producer].sequence + 1 else 1;
      if b.sequence != expected || CheckpointConflict(State(), b.content) {
        Rollback(saved);
        return Failure(Contract);
      }
      var published := Publish(b, now);
      if published.Failure? {
        Rollback(saved);
        return Failure(published.error);
      }
      r := Success(Receipt(b.sequence, false));
    }

    /** `write`: admission before the transaction, so a refused batch touches nothing. */
    method Write(b: Batch, wall: int) returns (r: Result<Receipt>)
      requires Sound(State())
      modifies this
      ensures Written(State(), r) == WriteBatch(old(State()), b, wall, config)
      ensures Sound(State())
      ensures r.Failure? ==> State() == old(State())
    {
      WriteKeepsSound(State(), b, wall, config);
      WriteOutcomes(State(), b, wall, config);
      var refusal := Refusal(b, config);
      if refusal.Some? {
        return Failure(refusal.value);
      }
      r := Transact(b, wall);
    }

    /** `query_contexts`: one row more than the limit is read to learn whether there is another page. */
    method QueryContexts(q: Paging.Query, scope: Option<seq<Text>>, r: Paging.Reader) returns (answer: Result<Paging.Page>)
      ensures answer == Paging.Answer(State(), q, scope, r)
    {
      hide Paging.Items, Paging.Candidates, Paging.Ordered, Paging.Held;
      if q.limit > r.config.limits.pageItems {
        return Failure(Contract);
      }
      var located := Paging.Located(State(), q, scope, r);
      if located.Failure? {
        return Failure(located.error);
      }
      var at, b := located.value, Paging.Binding(q.filter, Paging.ScopeSet(scope));
      var rows := SelectRows(Paging.Candidates(contexts, b, at, r.contains), q.filter.descending, q.limit + 1);
      ghost var all := Paging.Items(State(), b, at, r);
      Paging.ItemsAreRows(State(), b, at, r);
      var items := CutPage(rows, q.limit, r.config, all);
      if rows != [] && items == [] {
        return Failure(Backpressure);
      }
      var cursor := if |rows| > |items| then Some(Paging.Cursor(r.store, b, at.boundary, items[|items| - 1].publication)) else None;
      answer := Success(Paging.Page(items, cursor, at.boundary));
    }

    /** Headers in order until the limit or the byte budget is reached. */
    method CutPage(rows: seq<nat>, limit: nat, c: Config, ghost all: seq<Paging.Item>) returns (items: seq<Paging.Item>)
      requires |rows| == Paging.Least(limit + 1, |all|)
      requires forall i :: 0 <= i < |rows| ==> rows[i] in contexts && all[i] == Paging.ItemOf(contexts, rows[i])
      ensures items == all[..Paging.Held(all, limit, c)]
    {
      ghost var offered := all[..Paging.Least(limit, |all|)];
      ghost var costs := Paging.Costs(offered, c);
      ghost var fitting := Paging.Fitting(costs, c.limits.pageBytes);
      var size := 0;
      items := [];
      for i := 0 to Paging.Least(limit, |rows|)
        invariant |items| == i && items == all[..i] && size <= c.limits.pageBytes
        invariant fitting == i + Paging.Fitting(costs[i..], c.limits.pageBytes - size)
      {
        var item := Paging.ItemOf(contexts, rows[i]);
        var cost := c.headerBytes(item.header, item.publication);
        assert costs[i] == cost && costs[i..][1..] == costs[i + 1..];
        if size + cost > c.limits.pageBytes {
          return;
        }
        items := items + [item];
        size := size + cost;
      }
    }

    method Maintain(wall: int) returns (r: Result<Receipt>)
      requires Sound(State())
      modifies this
      ensures Written(State(), r) == Transaction.Maintain(old(State()), wall, config)
      ensures Sound(State())
    {
      MaintainKeepsSound(State(), wall, config);
      var saved := State();
      ClockedSound(saved, wall);
      var now := Clock(wall);
      Prune(now);
      if !WithinBounds(meta, config.policy) {
        Rollback(saved);
        return Failure(Backpressure);
      }
      r := Success(Receipt(0, false));
    }
  }

  /** SELECT ... ORDER BY publication LIMIT count. */
  method SelectRows(keys: set<nat>, descending: bool, count: nat) returns (rows: seq<nat>)
    ensures var all := Paging.Ordered(keys, descending); rows == all[..Paging.Least(count, |all|)]
  {
    hide Paging.Ahead;
    var rest := keys;
    rows := [];
    while rest != {} && |rows| < count
      invariant |rows| <= count
      invariant Paging.Ordered(keys, descending) == rows + Paging.Ordered(rest, descending)
      decreases |rest|
    {
      ghost var first := Paging.NextExists(rest, descending);
      var k :| k in rest && forall j :: j in rest && j != k ==> Paging.Ahead(descending, k, j);
      Paging.OrderedStep(rest, descending, k);
      rows := rows + [k];
      rest := rest - {k};
    }
  }

  lemma SelectedWhenDistinct<K, V>(due: map<K, V>, rank: V -> Rank)
    requires Distinct(due, rank)
    ensures Selected(due, rank)
  {
    FirstIs(due, rank);
  }

  lemma SelectProfile(profiles: map<ProfileKey, ProfileRow>, due: map<ProfileKey, ProfileRow>)
    requires DistinctProfiles(profiles) && Submap(due, profiles)
    ensures Selected(due, ByUpdate())
  {
    assert Distinct(due, ByUpdate());
    SelectedWhenDistinct(due, ByUpdate());
  }

  lemma SelectSession(sessions: map<Text, SessionRow>, due: map<Text, SessionRow>)
    requires DistinctSessions(sessions) && Submap(due, sessions)
    ensures Selected(due, ByShutdown())
  {
    assert Distinct(due, ByShutdown());
    SelectedWhenDistinct(due, ByShutdown());
  }

  lemma SelectProducer(rows: nat, producers: map<Producer, Watermark>, due: map<Producer, Watermark>)
    requires RowOrder(rows, producers) && Submap(due, producers)
    ensures Selected(due, ByExpiry())
  {
    assert Distinct(due, ByExpiry());
    SelectedWhenDistinct(due, ByExpiry());
  }

  lemma SelectContext(contexts: map<nat, ContextRow>, due: map<nat, ContextRow>)
    requires Filed(contexts) && Submap(due, contexts)
    ensures Selected(due, ByTime())
  {
    assert Distinct(due, ByTime());
    SelectedWhenDistinct(due, ByTime());
  }

  lemma NothingSelected(s: Store, now: int, p: Policy)
    requires !ContextPressure(s.meta, p) && p.contextAge.None?
    ensures forall budget: nat :: PruneContexts(s, now, p, budget) == Pass(s, budget)
  {
    assert DueContexts(s, now, p) == map[];
  }

  /** Inserting a context neither reads nor is disturbed by totals that are still to be applied. */
  lemma TotalsCommute(s: Store, e: ContextEntry, count: nat, bytes: nat)
    ensures var plain, shifted := Rows.PutContext(s, e), Rows.PutContext(WithTotals(s, count, bytes), e);
      && (plain.Failure? ==> shifted == plain)
      && (plain.Success? ==> shifted == Success(WithTotals(plain.value, count, bytes)))
  {
  }
}
