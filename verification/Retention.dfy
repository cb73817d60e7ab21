/** Why a retention pass deletes a row. */
module Retention {
  // A row goes because it is past its age limit, or because everything that is kept longer than it exceeds a bound. A pass
  // with budget left over deletes exactly the rows for which that is so.

  import opened Wrappers
  import opened Totals
  import opened Tables
  import opened Rows
  import opened Prune

  // ---- contexts ----------------------------------------------------------------------------------------

  predicate OlderContext(a: ContextRow, b: ContextRow) {
    a.header.stamp.at < b.header.stamp.at || (a.header.stamp.at == b.header.stamp.at && a.publication < b.publication)
  }

  /** The context `k` and all that are not older. */
  function ContextsFrom(contexts: map<nat, ContextRow>, k: nat): map<nat, ContextRow>
    requires k in contexts
  {
    map j | j in contexts && !OlderContext(contexts[j], contexts[k]) :: contexts[j]
  }

  /** The sizes of the layouts that contexts of the table use. */
  function LayoutsOf(contexts: map<nat, ContextRow>, layouts: map<Text, LayoutRow>): map<Text, nat> {
    map l | l in layouts && (exists p :: p in contexts && contexts[p].layoutKey == Some(l)) :: layouts[l].nbytes
  }

  function Itself(): nat -> nat { (n: nat) => n }

  ghost predicate ContextsExceed(contexts: map<nat, ContextRow>, layouts: map<Text, LayoutRow>, p: Policy) {
    || |contexts.Keys| > p.contexts
    || Total(contexts, ContextBytes()) + Total(LayoutsOf(contexts, layouts), Itself()) > p.contextBytes
  }

  /** The context is past its age limit, or it and everything not older exceed the count or the bytes, layouts included. */
  ghost predicate ContextDue(contexts: map<nat, ContextRow>, layouts: map<Text, LayoutRow>, k: nat, now: int, p: Policy)
    requires k in contexts
  {
    || (p.contextAge.Some? && contexts[k].header.stamp.at < now - Micros(p.contextAge.value))
    || ContextsExceed(ContextsFrom(contexts, k), layouts, p)
  }

  lemma SameTotals<K, V, W>(a: map<K, V>, v: V -> nat, b: map<K, W>, w: W -> nat)
    requires a.Keys == b.Keys && forall k :: k in a ==> v(a[k]) == w(b[k])
    ensures Total(a, v) == Total(b, w)
  {
    assert Units(a, v) == Units(b, w);
  }

  lemma AllLayoutsUsed(layouts: map<Text, LayoutRow>, contexts: map<nat, ContextRow>)
    requires LayoutRefs(layouts, contexts)
    ensures Total(LayoutsOf(contexts, layouts), Itself()) == Total(layouts, LayoutBytes())
  {
    hide Total;
    var used := LayoutsOf(contexts, layouts);
    forall l | l in layouts
      ensures l in used
    {
      if forall q :: q in contexts ==> contexts[q].layoutKey != Some(l) {
        TotalZero(contexts, UsesLayout(l));
      }
    }
    SameTotals(layouts, LayoutBytes(), used, Itself());
  }

  /** In a sound state only used layouts are stored, so the counters say whether the whole table exceeds the bounds. */
  lemma ContextPressureMeans(s: Store, p: Policy)
    requires Sound(s)
    ensures ContextPressure(s.meta, p) <==> ContextsExceed(s.contexts, s.layouts, p)
  {
    hide Sound, LayoutRefs, LayoutsOf, Total;
    SoundParts(s);
    AllLayoutsUsed(s.layouts, s.contexts);
  }

  lemma OlderIsBefore(a: ContextRow, b: ContextRow)
    ensures OlderContext(a, b) <==> Before(ByTime()(a), ByTime()(b))
  {
  }

  lemma OldestIsOlder(contexts: map<nat, ContextRow>, k: nat)
    requires OldestContext(contexts, k)
    ensures forall j :: j in contexts && j != k ==> OlderContext(contexts[k], contexts[j])
    ensures ContextsFrom(contexts, k) == contexts
  {
    forall j | j in contexts
      ensures j != k ==> OlderContext(contexts[k], contexts[j])
      ensures !OlderContext(contexts[j], contexts[k])
    {
      OlderIsBefore(contexts[k], contexts[j]);
    }
  }

  lemma ChosenIsDue(s: Store, now: int, p: Policy, k: nat)
    requires Sound(s) && k in DueContexts(s, now, p) && ContextsFrom(s.contexts, k) == s.contexts
    ensures ContextDue(s.contexts, s.layouts, k, now, p)
  {
    ContextPressureMeans(s, p);
  }

  /** What the loop deletes next is due and older than everything else; it stops when nothing is due. */
  lemma NextContextDue(s: Store, now: int, p: Policy)
    requires Sound(s)
    ensures match First(DueContexts(s, now, p), ByTime())
      case None => forall k :: k in s.contexts ==> !ContextDue(s.contexts, s.layouts, k, now, p)
      case Some(k) =>
        && Removable(s, k) && Sound(RemoveContext(s, k)) && ContextDue(s.contexts, s.layouts, k, now, p)
        && forall j :: j in s.contexts && j != k ==> OlderContext(s.contexts[k], s.contexts[j])
  {
    hide Sound, ContextDue, OlderContext, ContextsFrom, RemoveContext, First, DueContexts;
    NextContextRemovable(s, now, p);
    FiledWhenSound(s);
    NextContext(s, now, p);
    match First(DueContexts(s, now, p), ByTime())
    case None =>
      forall k | k in s.contexts
        ensures !ContextDue(s.contexts, s.layouts, k, now, p)
      {
        NotDue(s, now, p, k);
      }
    case Some(k) =>
      OldestIsOlder(s.contexts, k);
      FirstIsARow(DueContexts(s, now, p), ByTime());
      ChosenIsDue(s, now, p, k);
  }

  lemma NotDue(s: Store, now: int, p: Policy, k: nat)
    requires Sound(s) && DueContexts(s, now, p) == map[] && k in s.contexts
    ensures !ContextDue(s.contexts, s.layouts, k, now, p)
  {
    NothingDueIsSettled(s, now, p);
    ContextPressureMeans(s, p);
    if ContextsExceed(ContextsFrom(s.contexts, k), s.layouts, p) {
      FewerContexts(s.contexts, ContextsFrom(s.contexts, k), s.layouts, p);
    }
  }

  lemma FewerRows<K, V>(rows: map<K, V>, fewer: map<K, V>, weight: V -> nat)
    requires Submap(fewer, rows)
    ensures |fewer.Keys| <= |rows.Keys| && Total(fewer, weight) <= Total(rows, weight)
  {
    assert Units(fewer, weight) <= Units(rows, weight);
    FewerElements(Units(fewer, weight), Units(rows, weight));
    FewerElements(fewer.Keys, rows.Keys);
  }

  lemma FewerElements<T>(a: set<T>, b: set<T>)
    requires a <= b
    ensures |a| <= |b|
  {
    assert b == a + (b - a);
  }

  lemma FewerContexts(contexts: map<nat, ContextRow>, fewer: map<nat, ContextRow>, layouts: map<Text, LayoutRow>, p: Policy)
    requires Submap(fewer, contexts) && ContextsExceed(fewer, layouts, p)
    ensures ContextsExceed(contexts, layouts, p)
  {
    FewerRows(contexts, fewer, ContextBytes());
    assert Submap(LayoutsOf(fewer, layouts), LayoutsOf(contexts, layouts));
    FewerRows(LayoutsOf(contexts, layouts), LayoutsOf(fewer, layouts), Itself());
  }

  /** Deleting an older context changes nothing about what is not older than `k`. */
  lemma DueUnmoved(s: Store, o: nat, k: nat, now: int, p: Policy)
    requires Sound(s) && Removable(s, o) && Sound(RemoveContext(s, o)) && k in s.contexts && OlderContext(s.contexts[o], s.contexts[k])
    ensures k in RemoveContext(s, o).contexts
    ensures var t := RemoveContext(s, o);
      ContextDue(t.contexts, t.layouts, k, now, p) <==> ContextDue(s.contexts, s.layouts, k, now, p)
  {
    hide Sound, Related, Accounted, LayoutsOf, LastUse, DropLayout;
    var t, kept := RemoveContext(s, o), ContextsFrom(s.contexts, k);
    assert t.contexts == s.contexts - {o} && t.layouts == DropLayout(s.layouts, s.contexts[o].layoutKey);
    assert ContextsFrom(t.contexts, k) == kept;
    NoDangling(s);
    NoDangling(t);
    UsedLayoutsStay(s.layouts, s.contexts[o].layoutKey, t.contexts, kept);
  }

  lemma NoDangling(s: Store)
    requires Sound(s)
    ensures forall p :: p in s.contexts && s.contexts[p].layoutKey.Some? ==> s.contexts[p].layoutKey.value in s.layouts
  {
    SoundParts(s);
  }

  lemma UsedLayoutsStay(layouts: map<Text, LayoutRow>, key: Option<Text>, contexts: map<nat, ContextRow>, kept: map<nat, ContextRow>)
    requires Submap(kept, contexts) && (key.Some? ==> key.value in layouts)
    requires forall p :: p in contexts && contexts[p].layoutKey.Some? ==> contexts[p].layoutKey.value in DropLayout(layouts, key)
    ensures LayoutsOf(kept, DropLayout(layouts, key)) == LayoutsOf(kept, layouts)
  {
    var rest := DropLayout(layouts, key);
    forall l | l in LayoutsOf(kept, layouts)
      ensures l in rest && rest[l].nbytes == layouts[l].nbytes
    {
      var q :| q in kept && kept[q].layoutKey == Some(l);
      assert q in contexts && contexts[q].layoutKey == Some(l);
    }
  }

  /** The context loop deletes only what is due, and all of it unless the budget runs out. */
  lemma {:induction false} ContextsGoWhenDue(s: Store, now: int, p: Policy, budget: nat, k: nat)
    requires Sound(s) && k in s.contexts
    ensures var r := PruneContexts(s, now, p, budget);
      && (k !in r.store.contexts ==> ContextDue(s.contexts, s.layouts, k, now, p))
      && (r.left > 0 && ContextDue(s.contexts, s.layouts, k, now, p) ==> k !in r.store.contexts)
    decreases budget
  {
    hide Sound, DueContexts, Removable, First, ContextDue, RemoveContext;
    NextContextDue(s, now, p);
    var next := First(DueContexts(s, now, p), ByTime());
    if budget != 0 && next.Some? {
      var t := RemoveContext(s, next.value);
      assert PruneContexts(s, now, p, budget) == PruneContexts(t, now, p, budget - 1);
      if next.value == k {
        GoneStays(s, k, now, p, budget - 1);
      } else {
        DueUnmoved(s, next.value, k, now, p);
        ContextsGoWhenDue(t, now, p, budget - 1, k);
      }
    }
  }

  lemma GoneStays(s: Store, k: nat, now: int, p: Policy, budget: nat)
    requires Sound(s) && Removable(s, k) && Sound(RemoveContext(s, k))
    ensures k !in PruneContexts(RemoveContext(s, k), now, p, budget).store.contexts
  {
    var t := RemoveContext(s, k);
    FiledWhenSound(t);
    PruneContextsPrefix(t, now, p, budget);
  }

  // ---- profiles ----------------------------------------------------------------------------------------

  predicate StalerProfile(a: ProfileRow, b: ProfileRow) {
    a.updated < b.updated || (a.updated == b.updated && a.publication < b.publication)
  }

  function ProfilesFrom(profiles: map<ProfileKey, ProfileRow>, k: ProfileKey): map<ProfileKey, ProfileRow>
    requires k in profiles
  {
    map j | j in profiles && !StalerProfile(profiles[j], profiles[k]) :: profiles[j]
  }

  ghost predicate ProfilesExceed(profiles: map<ProfileKey, ProfileRow>, p: Policy) {
    |profiles.Keys| > p.profiles || Total(profiles, ProfileBytes()) > p.profileBytes || Total(profiles, ProfileSteps()) > p.profileSteps
  }

  /** Not updated within the age limit, or it and everything updated later exceed the count, the bytes or the steps. */
  ghost predicate ProfileDue(profiles: map<ProfileKey, ProfileRow>, k: ProfileKey, now: int, p: Policy)
    requires k in profiles
  {
    || (p.profileAge.Some? && profiles[k].updated < now - Micros(p.profileAge.value))
    || ProfilesExceed(ProfilesFrom(profiles, k), p)
  }

  ghost predicate TalliedProfiles(s: Store) {
    && Tally(s.meta.profiles, s.meta.profileBytes, s.profiles, ProfileBytes())
    && Tally(s.meta.profiles, s.meta.profileSteps, s.profiles, ProfileSteps()) && DistinctProfiles(s.profiles)
  }

  lemma ProfilePressureMeans(s: Store, p: Policy)
    requires TalliedProfiles(s)
    ensures ProfilePressure(s.meta, p) <==> ProfilesExceed(s.profiles, p)
  {
  }

  lemma FewerProfiles(profiles: map<ProfileKey, ProfileRow>, fewer: map<ProfileKey, ProfileRow>, p: Policy)
    requires Submap(fewer, profiles) && ProfilesExceed(fewer, p)
    ensures ProfilesExceed(profiles, p)
  {
    FewerRows(profiles, fewer, ProfileBytes());
    FewerRows(profiles, fewer, ProfileSteps());
  }

  lemma StalerIsBefore(a: ProfileRow, b: ProfileRow)
    ensures StalerProfile(a, b) <==> Before(ByUpdate()(a), ByUpdate()(b))
  {
  }

  ghost predicate StalestProfile(profiles: map<ProfileKey, ProfileRow>, k: ProfileKey) {
    k in profiles && forall j :: j in profiles && j != k ==> StalerProfile(profiles[k], profiles[j])
  }

  /** Selected under pressure or by age, the next profile is the one not updated for longest. */
  lemma NextProfileStalest(s: Store, now: int, p: Policy)
    requires DistinctProfiles(s.profiles)
    ensures match First(DueProfiles(s, now, p), ByUpdate())
      case None => DueProfiles(s, now, p) == map[]
      case Some(k) => k in DueProfiles(s, now, p) && StalestProfile(s.profiles, k)
  {
    var due := DueProfiles(s, now, p);
    FirstIs(due, ByUpdate());
    match First(due, ByUpdate())
    case None =>
    case Some(k) =>
      forall j | j in s.profiles && j != k
        ensures StalerProfile(s.profiles[k], s.profiles[j])
      {
        StalerIsBefore(s.profiles[k], s.profiles[j]);
        if j in due {
          assert Before(ByUpdate()(due[k]), ByUpdate()(due[j]));
        }
      }
  }

  lemma ProfileNotDue(s: Store, now: int, p: Policy, k: ProfileKey)
    requires TalliedProfiles(s) && DueProfiles(s, now, p) == map[] && k in s.profiles
    ensures !ProfileDue(s.profiles, k, now, p)
  {
    NoProfileDueIsSettled(s, now, p);
    ProfilePressureMeans(s, p);
    if ProfilesExceed(ProfilesFrom(s.profiles, k), p) {
      FewerProfiles(s.profiles, ProfilesFrom(s.profiles, k), p);
    }
  }

  lemma DistinctWhenTallied(s: Store)
    requires TalliedProfiles(s)
    ensures DistinctProfiles(s.profiles)
  {
  }

  lemma ChosenProfileDue(s: Store, now: int, p: Policy, k: ProfileKey)
    requires TalliedProfiles(s) && k in DueProfiles(s, now, p) && StalestProfile(s.profiles, k)
    ensures ProfileDue(s.profiles, k, now, p) && TalliedProfiles(RemoveProfile(s, k))
  {
    hide ProfilesExceed, Total;
    ProfilePressureMeans(s, p);
    assert ProfilesFrom(s.profiles, k) == s.profiles;
    TalliedLess(s, k);
  }

  lemma TalliedLess(s: Store, k: ProfileKey)
    requires TalliedProfiles(s) && k in s.profiles
    ensures TalliedProfiles(RemoveProfile(s, k))
  {
    hide Total;
    TallyRemove(s.meta.profiles, s.meta.profileBytes, s.profiles, ProfileBytes(), k);
    TallyRemove(s.meta.profiles, s.meta.profileSteps, s.profiles, ProfileSteps(), k);
    FewerDistinct(s.profiles, k);
  }

  lemma FewerDistinct(profiles: map<ProfileKey, ProfileRow>, k: ProfileKey)
    requires DistinctProfiles(profiles)
    ensures DistinctProfiles(profiles - {k})
  {
  }

  lemma NextProfileDue(s: Store, now: int, p: Policy)
    requires TalliedProfiles(s)
    ensures match First(DueProfiles(s, now, p), ByUpdate())
      case None => forall k :: k in s.profiles ==> !ProfileDue(s.profiles, k, now, p)
      case Some(k) =>
        StalestProfile(s.profiles, k) && ProfileDue(s.profiles, k, now, p) && TalliedProfiles(RemoveProfile(s, k))
  {
    hide ProfileDue, TalliedProfiles, DueProfiles, StalestProfile, First;
    assert DistinctProfiles(s.profiles) by { DistinctWhenTallied(s); }
    NextProfileStalest(s, now, p);
    match First(DueProfiles(s, now, p), ByUpdate())
    case None =>
      forall k | k in s.profiles
        ensures !ProfileDue(s.profiles, k, now, p)
      {
        ProfileNotDue(s, now, p, k);
      }
    case Some(k) =>
      ChosenProfileDue(s, now, p, k);
  }

  lemma ProfileDueUnmoved(profiles: map<ProfileKey, ProfileRow>, o: ProfileKey, k: ProfileKey, now: int, p: Policy)
    requires StalestProfile(profiles, o) && k in profiles && k != o
    ensures ProfileDue(profiles - {o}, k, now, p) <==> ProfileDue(profiles, k, now, p)
  {
    hide ProfilesExceed;
    assert ProfilesFrom(profiles - {o}, k) == ProfilesFrom(profiles, k);
  }

  /** One round of the loop. */
  lemma ProfileRound(s: Store, now: int, p: Policy, budget: nat)
    ensures match First(DueProfiles(s, now, p), ByUpdate())
      case None => PruneProfiles(s, now, p, budget) == Pass(s, budget)
      case Some(k) =>
        && (budget == 0 ==> PruneProfiles(s, now, p, budget) == Pass(s, 0))
        && (budget > 0 && k in s.profiles ==>
              && PruneProfiles(s, now, p, budget) == PruneProfiles(RemoveProfile(s, k), now, p, budget - 1)
              && RemoveProfile(s, k).profiles == s.profiles - {k})
  {
    hide DueProfiles, First;
  }

  /** The profile loop deletes only what is due, and all of it unless the budget runs out. */
  lemma {:induction false} ProfilesGoWhenDue(s: Store, now: int, p: Policy, budget: nat, k: ProfileKey)
    requires TalliedProfiles(s) && k in s.profiles
    ensures var r := PruneProfiles(s, now, p, budget);
      && (k !in r.store.profiles ==> ProfileDue(s.profiles, k, now, p))
      && (r.left > 0 && ProfileDue(s.profiles, k, now, p) ==> k !in r.store.profiles)
    decreases budget
  {
    hide TalliedProfiles, DueProfiles, First, ProfileDue, StalestProfile, PruneProfiles, RemoveProfile;
    NextProfileDue(s, now, p);
    ProfileRound(s, now, p, budget);
    var next := First(DueProfiles(s, now, p), ByUpdate());
    if budget != 0 && next.Some? {
      StalestIsARow(s.profiles, next.value);
      var t := RemoveProfile(s, next.value);
      if next.value == k {
        PruneProfilesFrame(t, now, p, budget - 1);
      } else {
        ProfileDueUnmoved(s.profiles, next.value, k, now, p);
        ProfilesGoWhenDue(t, now, p, budget - 1, k);
      }
    }
  }

  lemma StalestIsARow(profiles: map<ProfileKey, ProfileRow>, k: ProfileKey)
    requires StalestProfile(profiles, k)
    ensures k in profiles
  {
  }

  // ---- sessions ----------------------------------------------------------------------------------------

  predicate Sooner(a: Option<int>, b: Option<int>) {
    b.Some? && (a.None? || a.value < b.value)
  }

  /** Without a shutdown first, then by shutdown, start and publication. */
  predicate EarlierSession(a: SessionRow, b: SessionRow) {
    || Sooner(a.header.shutdown, b.header.shutdown)
    || (a.header.shutdown == b.header.shutdown
        && (|| Sooner(a.header.started, b.header.started)
            || (a.header.started == b.header.started && a.publication < b.publication)))
  }

  /** It was shut or never recorded a start, and no context of it is stored. */
  predicate Deletable(sessions: map<Text, SessionRow>, contexts: map<nat, ContextRow>, i: Text) {
    && i in sessions && (sessions[i].header.shutdown.Some? || sessions[i].header.started.None?)
    && forall k :: k in contexts ==> contexts[k].header.session != i
  }

  /** All sessions but the deletable ones that are earlier than `i`. */
  function SessionsFrom(sessions: map<Text, SessionRow>, contexts: map<nat, ContextRow>, i: Text): map<Text, SessionRow>
    requires i in sessions
  {
    map j | j in sessions && !(Deletable(sessions, contexts, j) && EarlierSession(sessions[j], sessions[i])) :: sessions[j]
  }

  ghost predicate SessionsExceed(sessions: map<Text, SessionRow>, p: Policy) {
    |sessions.Keys| > p.sessions || Total(sessions, SessionBytes()) > p.sessionBytes
  }

  /** It never recorded a start, or was shut before the age limit, or the sessions kept longer exceed the bounds with it. */
  ghost predicate SessionDue(sessions: map<Text, SessionRow>, contexts: map<nat, ContextRow>, i: Text, now: int, p: Policy) {
    && Deletable(sessions, contexts, i)
    && (|| sessions[i].header.started.None?
        || (p.sessionAge.Some? && sessions[i].header.shutdown.value < now - Micros(p.sessionAge.value))
        || SessionsExceed(SessionsFrom(sessions, contexts, i), p))
  }

  ghost predicate TalliedSessions(s: Store) {
    && Tally(s.meta.sessions, s.meta.sessionBytes, s.sessions, SessionBytes()) && DistinctSessions(s.sessions)
    && SessionRefs(s.sessions, s.contexts)
  }

  lemma EarlierIsBefore(a: SessionRow, b: SessionRow)
    ensures EarlierSession(a, b) <==> Before(ByShutdown()(a), ByShutdown()(b))
  {
  }

  lemma UnreferencedIsUnused(sessions: map<Text, SessionRow>, contexts: map<nat, ContextRow>, i: Text)
    requires SessionRefs(sessions, contexts) && i in sessions
    ensures sessions[i].refs == 0 <==> forall k :: k in contexts ==> contexts[k].header.session != i
  {
    if sessions[i].refs == 0 {
      UnreferencedSession(sessions, contexts, i);
    } else if forall k :: k in contexts ==> contexts[k].header.session != i {
      TotalZero(contexts, UsesSession(i));
    }
  }

  lemma FewerSessions(sessions: map<Text, SessionRow>, fewer: map<Text, SessionRow>, p: Policy)
    requires Submap(fewer, sessions) && SessionsExceed(fewer, p)
    ensures SessionsExceed(sessions, p)
  {
    FewerRows(sessions, fewer, SessionBytes());
  }

  /** What the statement selects: with pressure every deletable session, without only the lapsed ones. */
  lemma IdleMeans(s: Store, now: int, p: Policy)
    requires TalliedSessions(s)
    ensures SessionPressure(s.meta, p) <==> SessionsExceed(s.sessions, p)
    ensures forall i :: i in DueSessions(s, now, p) <==>
              && Deletable(s.sessions, s.contexts, i)
              && (|| SessionsExceed(s.sessions, p) || s.sessions[i].header.started.None?
                  || (p.sessionAge.Some? && s.sessions[i].header.shutdown.value < now - Micros(p.sessionAge.value)))
  {
    forall i | i in s.sessions
      ensures s.sessions[i].refs == 0 <==> forall k :: k in s.contexts ==> s.contexts[k].header.session != i
    {
      UnreferencedIsUnused(s.sessions, s.contexts, i);
    }
  }

  lemma NoSessionIsDue(s: Store, now: int, p: Policy, i: Text)
    requires TalliedSessions(s) && DueSessions(s, now, p) == map[] && i in s.sessions
    ensures !SessionDue(s.sessions, s.contexts, i, now, p)
  {
    hide TalliedSessions, DueSessions, SessionsExceed;
    IdleMeans(s, now, p);
    if SessionsExceed(SessionsFrom(s.sessions, s.contexts, i), p) {
      FewerSessions(s.sessions, SessionsFrom(s.sessions, s.contexts, i), p);
    }
  }

  lemma SessionLess(s: Store, i: Text)
    requires TalliedSessions(s) && Deletable(s.sessions, s.contexts, i)
    ensures TalliedSessions(RemoveSession(s, i))
  {
    hide Total;
    TallyRemove(s.meta.sessions, s.meta.sessionBytes, s.sessions, SessionBytes(), i);
  }

  /** Under pressure the earliest deletable session is next; in any case what is next is due, and nothing else stops the loop. */
  lemma NextSessionDue(s: Store, now: int, p: Policy)
    requires TalliedSessions(s)
    ensures match First(DueSessions(s, now, p), ByShutdown())
      case None => forall i :: i in s.sessions ==> !SessionDue(s.sessions, s.contexts, i, now, p)
      case Some(i) =>
        && SessionDue(s.sessions, s.contexts, i, now, p) && TalliedSessions(RemoveSession(s, i))
        && (SessionsExceed(s.sessions, p) ==>
              forall j :: Deletable(s.sessions, s.contexts, j) && j != i ==> EarlierSession(s.sessions[i], s.sessions[j]))
  {
    hide SessionDue, TalliedSessions, SessionsExceed, Deletable, EarlierSession, First, DueSessions;
    IdleMeans(s, now, p);
    SessionsSelected(s, now, p);
    match First(DueSessions(s, now, p), ByShutdown())
    case None =>
      forall i | i in s.sessions
        ensures !SessionDue(s.sessions, s.contexts, i, now, p)
      {
        NoSessionIsDue(s, now, p, i);
      }
    case Some(i) =>
      ChosenSessionDue(s, now, p, i);
      SessionLess(s, i);
  }

  lemma SessionsSelected(s: Store, now: int, p: Policy)
    requires TalliedSessions(s)
    ensures var due := DueSessions(s, now, p);
      match First(due, ByShutdown())
      case None => due == map[]
      case Some(i) => i in due && forall j :: j in due && j != i ==> EarlierSession(s.sessions[i], s.sessions[j])
  {
    var due := DueSessions(s, now, p);
    assert Distinct(due, ByShutdown());
    FirstIs(due, ByShutdown());
    match First(due, ByShutdown())
    case None =>
    case Some(i) =>
      forall j | j in due && j != i
        ensures EarlierSession(s.sessions[i], s.sessions[j])
      {
        EarlierIsBefore(due[i], due[j]);
      }
  }

  lemma ChosenSessionDue(s: Store, now: int, p: Policy, i: Text)
    requires TalliedSessions(s) && i in DueSessions(s, now, p)
    requires forall j :: j in DueSessions(s, now, p) && j != i ==> EarlierSession(s.sessions[i], s.sessions[j])
    ensures SessionDue(s.sessions, s.contexts, i, now, p)
  {
    hide DueSessions, TalliedSessions, SessionsExceed, EarlierSession;
    IdleMeans(s, now, p);
    if SessionsExceed(s.sessions, p) {
      forall j | j in s.sessions
        ensures !(Deletable(s.sessions, s.contexts, j) && EarlierSession(s.sessions[j], s.sessions[i]))
      {
        NotEarlier(s.sessions[i], s.sessions[j]);
      }
      assert SessionsFrom(s.sessions, s.contexts, i) == s.sessions;
    }
  }

  lemma NotEarlier(a: SessionRow, b: SessionRow)
    ensures EarlierSession(a, b) || a == b ==> !EarlierSession(b, a)
  {
  }

  /** Deleting a session that goes before `i`, or without pressure any lapsed one, does not change whether `i` is due. */
  lemma SessionDueUnmoved(sessions: map<Text, SessionRow>, contexts: map<nat, ContextRow>, o: Text, i: Text, now: int, p: Policy)
    requires Deletable(sessions, contexts, o) && i in sessions && i != o
    requires SessionsExceed(sessions, p) ==> (Deletable(sessions, contexts, i) ==> EarlierSession(sessions[o], sessions[i]))
    ensures SessionDue(sessions - {o}, contexts, i, now, p) <==> SessionDue(sessions, contexts, i, now, p)
  {
    var from, rest := SessionsFrom(sessions, contexts, i), SessionsFrom(sessions - {o}, contexts, i);
    if EarlierSession(sessions[o], sessions[i]) {
      assert from == rest;
    } else {
      assert Submap(rest, from) && Submap(from, sessions);
      if SessionsExceed(rest, p) {
        FewerSessions(from, rest, p);
      }
      if SessionsExceed(from, p) {
        FewerSessions(sessions, from, p);
      }
    }
  }

  lemma DueIsDeletable(sessions: map<Text, SessionRow>, contexts: map<nat, ContextRow>, i: Text, now: int, p: Policy)
    requires SessionDue(sessions, contexts, i, now, p)
    ensures Deletable(sessions, contexts, i) && i in sessions
  {
  }

  lemma SessionRound(s: Store, now: int, p: Policy, budget: nat)
    ensures match First(DueSessions(s, now, p), ByShutdown())
      case None => PruneSessions(s, now, p, budget) == Pass(s, budget)
      case Some(i) =>
        && (budget == 0 ==> PruneSessions(s, now, p, budget) == Pass(s, 0))
        && (budget > 0 && i in s.sessions ==>
              && PruneSessions(s, now, p, budget) == PruneSessions(RemoveSession(s, i), now, p, budget - 1)
              && RemoveSession(s, i).sessions == s.sessions - {i} && RemoveSession(s, i).contexts == s.contexts)
  {
    hide DueSessions, First;
  }

  /** The session loop deletes only what is due, and all of it unless the budget runs out. */
  lemma {:induction false} SessionsGoWhenDue(s: Store, now: int, p: Policy, budget: nat, i: Text)
    requires TalliedSessions(s) && i in s.sessions
    ensures var r := PruneSessions(s, now, p, budget);
      && (i !in r.store.sessions ==> SessionDue(s.sessions, s.contexts, i, now, p))
      && (r.left > 0 && SessionDue(s.sessions, s.contexts, i, now, p) ==> i !in r.store.sessions)
    decreases budget
  {
    hide TalliedSessions, DueSessions, First, SessionDue, SessionsExceed, Deletable, EarlierSession, PruneSessions, RemoveSession;
    NextSessionDue(s, now, p);
    SessionRound(s, now, p, budget);
    var next := First(DueSessions(s, now, p), ByShutdown());
    if budget != 0 && next.Some? {
      DueIsDeletable(s.sessions, s.contexts, next.value, now, p);
      var t := RemoveSession(s, next.value);
      if next.value == i {
        PruneSessionsFrame(t, now, p, budget - 1);
      } else {
        SessionDueUnmoved(s.sessions, s.contexts, next.value, i, now, p);
        SessionsGoWhenDue(t, now, p, budget - 1, i);
      }
    }
  }

  // ---- the whole pass ----------------------------------------------------------------------------------

  lemma SameSessionsDue(a: map<Text, SessionRow>, b: map<Text, SessionRow>, contexts: map<nat, ContextRow>, i: Text, now: int, p: Policy)
    requires SameSessions(a, b) && i in a
    ensures SessionDue(a, contexts, i, now, p) <==> SessionDue(b, contexts, i, now, p)
  {
    forall j | j in a
      ensures a[j].header == b[j].header && a[j].publication == b[j].publication && a[j].nbytes == b[j].nbytes
    {
      assert a[j].(refs := 0) == b[j].(refs := 0);
    }
    var from, rest := SessionsFrom(a, contexts, i), SessionsFrom(b, contexts, i);
    assert from.Keys == rest.Keys;
    SameTotals(from, SessionBytes(), rest, SessionBytes());
  }

  ghost predicate ContextsDecided(s: Store, t: Store, left: nat, now: int, p: Policy) {
    forall k :: k in s.contexts ==>
      && (k !in t.contexts ==> ContextDue(s.contexts, s.layouts, k, now, p))
      && (left > 0 && ContextDue(s.contexts, s.layouts, k, now, p) ==> k !in t.contexts)
  }

  ghost predicate ProfilesDecided(s: Store, t: Store, left: nat, now: int, p: Policy) {
    forall k :: k in s.profiles ==>
      && (k !in t.profiles ==> ProfileDue(s.profiles, k, now, p))
      && (left > 0 && ProfileDue(s.profiles, k, now, p) ==> k !in t.profiles)
  }

  /** Whether a session may go depends on the contexts that are left when its turn comes, which are those left at the end. */
  ghost predicate SessionsDecided(s: Store, t: Store, left: nat, now: int, p: Policy) {
    forall i :: i in s.sessions ==>
      && (i !in t.sessions ==> SessionDue(s.sessions, t.contexts, i, now, p))
      && (left > 0 && SessionDue(s.sessions, t.contexts, i, now, p) ==> i !in t.sessions)
  }

  ghost predicate WatermarksDecided(s: Store, t: Store, left: nat, now: int) {
    forall k :: k in s.producers ==>
      && (k !in t.producers ==> s.producers[k].expires <= now)
      && (left > 0 && s.producers[k].expires <= now ==> k !in t.producers)
  }

  lemma ContextsDecide(s: Store, now: int, p: Policy, budget: nat)
    requires Sound(s)
    ensures var r := PruneContexts(s, now, p, budget); ContextsDecided(s, r.store, r.left, now, p)
  {
    hide ContextDue;
    forall k | k in s.contexts
      ensures var r := PruneContexts(s, now, p, budget);
        && (k !in r.store.contexts ==> ContextDue(s.contexts, s.layouts, k, now, p))
        && (r.left > 0 && ContextDue(s.contexts, s.layouts, k, now, p) ==> k !in r.store.contexts)
    {
      ContextsGoWhenDue(s, now, p, budget, k);
    }
  }

  lemma ProfilesDecide(s: Store, now: int, p: Policy, budget: nat)
    requires Sound(s)
    ensures var r := PruneProfiles(s, now, p, budget); ProfilesDecided(s, r.store, r.left, now, p)
  {
    hide ProfileDue;
    assert TalliedProfiles(s) by { SoundParts(s); }
    forall k | k in s.profiles
      ensures var r := PruneProfiles(s, now, p, budget);
        && (k !in r.store.profiles ==> ProfileDue(s.profiles, k, now, p))
        && (r.left > 0 && ProfileDue(s.profiles, k, now, p) ==> k !in r.store.profiles)
    {
      ProfilesGoWhenDue(s, now, p, budget, k);
    }
  }

  lemma SessionsDecide(s: Store, now: int, p: Policy, budget: nat)
    requires Sound(s)
    ensures var r := PruneSessions(s, now, p, budget); SessionsDecided(s, r.store, r.left, now, p)
  {
    hide SessionDue;
    assert TalliedSessions(s) by { SoundParts(s); }
    PruneSessionsFrame(s, now, p, budget);
    forall i | i in s.sessions
      ensures var r := PruneSessions(s, now, p, budget);
        && (i !in r.store.sessions ==> SessionDue(s.sessions, s.contexts, i, now, p))
        && (r.left > 0 && SessionDue(s.sessions, s.contexts, i, now, p) ==> i !in r.store.sessions)
    {
      SessionsGoWhenDue(s, now, p, budget, i);
    }
  }

  lemma WatermarksDecide(s: Store, now: int)
    requires Sound(s)
    ensures var r := WithoutExpired(s, now); WatermarksDecided(s, r.store, r.left, now)
  {
    SoundParts(s);
    PruneProducersPrefix(s.meta.rows, s.producers, now, MAINTENANCE_ITEMS);
    PruneProducersComplete(s.meta.rows, s.producers, now, MAINTENANCE_ITEMS);
  }

  /** What each stage of a pass leaves alone, so that every table is decided by its own stage. */
  lemma StagesDecide(s: Store, a: Pass, b: Pass, c: Pass, d: Pass, now: int, p: Policy)
    requires a.store == s.(producers := a.store.producers, meta := s.meta.(producers := a.store.meta.producers))
    requires OnlyContexts(b.store, a.store) && OnlyProfiles(c.store, b.store) && OnlySessions(d.store, c.store)
    requires d.left <= c.left <= b.left <= a.left
    requires WatermarksDecided(s, a.store, a.left, now) && ContextsDecided(a.store, b.store, b.left, now, p)
    requires ProfilesDecided(b.store, c.store, c.left, now, p) && SessionsDecided(c.store, d.store, d.left, now, p)
    ensures WatermarksDecided(s, d.store, d.left, now) && ContextsDecided(s, d.store, d.left, now, p)
    ensures ProfilesDecided(s, d.store, d.left, now, p) && SessionsDecided(s, d.store, d.left, now, p)
  {
    hide ContextDue, ProfileDue, SessionDue;
    forall i | i in s.sessions
      ensures SessionDue(c.store.sessions, d.store.contexts, i, now, p) <==> SessionDue(s.sessions, d.store.contexts, i, now, p)
    {
      SameSessionsDue(c.store.sessions, s.sessions, d.store.contexts, i, now, p);
    }
  }

  /**
    A retention pass deletes an expired watermark, and a context, profile or session that is due. As long as its budget
    lasts it deletes all of them.
   */
  lemma PassDeletesTheDue(s: Store, now: int, p: Policy)
    requires Sound(s)
    ensures var r := PruneAll(s, now, p);
      && WatermarksDecided(s, r.store, r.left, now) && ContextsDecided(s, r.store, r.left, now, p)
      && ProfilesDecided(s, r.store, r.left, now, p) && SessionsDecided(s, r.store, r.left, now, p)
  {
    hide Sound, WatermarksDecided, ContextsDecided, ProfilesDecided, SessionsDecided, OnlyContexts, OnlyProfiles, OnlySessions,
         PruneContexts, PruneProfiles, PruneSessions;
    var a := WithoutExpired(s, now);
    WithoutExpiredSound(s, now);
    WatermarksDecide(s, now);
    var b := PruneContexts(a.store, now, p, a.left);
    PruneContextsSound(a.store, now, p, a.left);
    PruneContextsFrame(a.store, now, p, a.left);
    ContextsDecide(a.store, now, p, a.left);
    var c := PruneProfiles(b.store, now, p, b.left);
    PruneProfilesSound(b.store, now, p, b.left);
    PruneProfilesFrame(b.store, now, p, b.left);
    ProfilesDecide(b.store, now, p, b.left);
    var d := PruneSessions(c.store, now, p, c.left);
    PruneSessionsFrame(c.store, now, p, c.left);
    SessionsDecide(c.store, now, p, c.left);
    StagesDecide(s, a, b, c, d, now, p);
  }

  /** With budget left over the true counts and sums are within the bounds, sessions as far as any may be deleted. */
  lemma PassMeetsTheBounds(s: Store, now: int, p: Policy)
    requires Sound(s) && PruneAll(s, now, p).left > 0
    ensures var t := PruneAll(s, now, p).store;
      && !ContextsExceed(t.contexts, t.layouts, p) && !ProfilesExceed(t.profiles, p)
      && (SessionsExceed(t.sessions, p) ==> forall i :: i in t.sessions ==> !Deletable(t.sessions, t.contexts, i))
  {
    var t := PruneAll(s, now, p).store;
    PruneComplete(s, now, p);
    PruneSound(s, now, p);
    BoundsMet(t, now, p);
  }

  lemma BoundsMet(t: Store, now: int, p: Policy)
    requires Sound(t) && ContextsSettled(t, now, p) && ProfilesSettled(t, now, p) && DueSessions(t, now, p) == map[]
    ensures !ContextsExceed(t.contexts, t.layouts, p) && !ProfilesExceed(t.profiles, p)
    ensures SessionsExceed(t.sessions, p) ==> forall i :: i in t.sessions ==> !Deletable(t.sessions, t.contexts, i)
  {
    hide Sound, ContextsExceed, ProfilesExceed, SessionsExceed;
    ContextPressureMeans(t, p);
    assert TalliedProfiles(t) && TalliedSessions(t) by { SoundParts(t); }
    ProfilePressureMeans(t, p);
    IdleMeans(t, now, p);
  }
}
