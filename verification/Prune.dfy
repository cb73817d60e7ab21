/** One budgeted retention pass: at most 128 rows, oldest first, references respected. */
module Prune {
  import opened Wrappers
  import opened Totals
  import opened Tables
  import opened Rows

  /** A store with what is left of the pass's item budget. */
  datatype Pass = Pass(store: Store, left: nat)

  // ---- the row each loop would delete next -----------------------------------------------------

  function Expired(producers: map<Producer, Watermark>, now: int): map<Producer, Watermark> {
    map p | p in producers && producers[p].expires <= now :: producers[p]
  }

  function Overdue(contexts: map<nat, ContextRow>, cutoff: int): map<nat, ContextRow> {
    map p | p in contexts && contexts[p].header.stamp.at < cutoff :: contexts[p]
  }

  function Stale(profiles: map<ProfileKey, ProfileRow>, cutoff: int): map<ProfileKey, ProfileRow> {
    map k | k in profiles && profiles[k].updated < cutoff :: profiles[k]
  }

  /** A session that recorded its shutdown, or a legacy one that never recorded a start. */
  predicate Closed(row: SessionRow) {
    row.header.shutdown.Some? || row.header.started.None?
  }

  predicate Lapsed(row: SessionRow, cutoff: Option<int>) {
    row.header.started.None? || (cutoff.Some? && row.header.shutdown.Some? && row.header.shutdown.value < cutoff.value)
  }

  function Idle(sessions: map<Text, SessionRow>, pressure: bool, cutoff: Option<int>): map<Text, SessionRow> {
    map i | i in sessions && sessions[i].refs == 0 && Closed(sessions[i]) && (pressure || Lapsed(sessions[i], cutoff)) ::
      sessions[i]
  }

  predicate ContextPressure(m: Metadata, p: Policy) {
    m.contexts > p.contexts || m.contextBytes + m.layoutBytes > p.contextBytes
  }

  predicate ProfilePressure(m: Metadata, p: Policy) {
    m.profiles > p.profiles || m.profileBytes > p.profileBytes || m.profileSteps > p.profileSteps
  }

  predicate SessionPressure(m: Metadata, p: Policy) {
    m.sessions > p.sessions || m.sessionBytes > p.sessionBytes
  }

  /** The rows the next SELECT ranges over; nothing is selected without pressure or an age limit. */
  function DueContexts(s: Store, now: int, p: Policy): map<nat, ContextRow> {
    if ContextPressure(s.meta, p) then s.contexts
    else match Cutoff(now, p.contextAge)
      case None => map[]
      case Some(cutoff) => Overdue(s.contexts, cutoff)
  }

  function DueProfiles(s: Store, now: int, p: Policy): map<ProfileKey, ProfileRow> {
    if ProfilePressure(s.meta, p) then s.profiles
    else match Cutoff(now, p.profileAge)
      case None => map[]
      case Some(cutoff) => Stale(s.profiles, cutoff)
  }

  function DueSessions(s: Store, now: int, p: Policy): map<Text, SessionRow> {
    Idle(s.sessions, SessionPressure(s.meta, p), Cutoff(now, p.sessionAge))
  }

  // ---- the four loops ------------------------------------------------------------------------

  datatype Watermarks = Watermarks(rows: map<Producer, Watermark>, left: nat)

  ghost function PruneProducers(producers: map<Producer, Watermark>, now: int, budget: nat): (r: Watermarks)
    ensures r.left <= budget
    decreases budget
  {
    if budget == 0 then Watermarks(producers, 0)
    else
      match First(Expired(producers, now), ByExpiry())
      case None => Watermarks(producers, budget)
      case Some(k) => PruneProducers(producers - {k}, now, budget - 1)
  }

  /** Without budget no loop does anything. */
  lemma NoBudget(s: Store, now: int, p: Policy)
    ensures PruneProducers(s.producers, now, 0) == Watermarks(s.producers, 0)
    ensures PruneProfiles(s, now, p, 0) == Pass(s, 0) && PruneSessions(s, now, p, 0) == Pass(s, 0)
  {
  }

  ghost function PruneContexts(s: Store, now: int, p: Policy, budget: nat): (r: Pass)
    ensures r.left <= budget
    decreases budget
  {
    if budget == 0 then Pass(s, 0)
    else
      match First(DueContexts(s, now, p), ByTime())
      case None => Pass(s, budget)
      case Some(k) => if !Removable(s, k) then Pass(s, budget) else PruneContexts(RemoveContext(s, k), now, p, budget - 1)
  }

  ghost function PruneProfiles(s: Store, now: int, p: Policy, budget: nat): (r: Pass)
    ensures r.left <= budget
    decreases budget
  {
    if budget == 0 then Pass(s, 0)
    else
      match First(DueProfiles(s, now, p), ByUpdate())
      case None => Pass(s, budget)
      case Some(k) => if k !in s.profiles then Pass(s, budget) else PruneProfiles(RemoveProfile(s, k), now, p, budget - 1)
  }

  ghost function PruneSessions(s: Store, now: int, p: Policy, budget: nat): (r: Pass)
    ensures r.left <= budget
    decreases budget
  {
    if budget == 0 then Pass(s, 0)
    else
      match First(DueSessions(s, now, p), ByShutdown())
      case None => Pass(s, budget)
      case Some(k) => if k !in s.sessions then Pass(s, budget) else PruneSessions(RemoveSession(s, k), now, p, budget - 1)
  }

  ghost function WithoutExpired(s: Store, now: int): Pass {
    var Watermarks(producers, left) := PruneProducers(s.producers, now, MAINTENANCE_ITEMS);
    Pass(s.(producers := producers, meta := s.meta.(producers := s.meta.producers - |s.producers.Keys| + |producers.Keys|)), left)
  }

  /** `_prune`: watermarks, then contexts, profiles and sessions, on one shared budget. */
  ghost function PruneAll(s: Store, now: int, p: Policy): Pass {
    var a := WithoutExpired(s, now);
    var b := PruneContexts(a.store, now, p, a.left);
    var c := PruneProfiles(b.store, now, p, b.left);
    PruneSessions(c.store, now, p, c.left)
  }

  // ---- watermarks ------------------------------------------------------------------------------

  ghost predicate Submap<K, V>(t: map<K, V>, s: map<K, V>) {
    forall k :: k in t ==> k in s && t[k] == s[k]
  }

  /** The row a loop deletes is due and precedes every other row of its table. */
  ghost predicate Oldest(producers: map<Producer, Watermark>, now: int, k: Producer) {
    && k in producers && producers[k].expires <= now
    && forall j :: j in producers && j != k ==> Before(ByExpiry()(producers[k]), ByExpiry()(producers[j]))
  }

  lemma NextProducer(rows: nat, producers: map<Producer, Watermark>, now: int)
    requires RowOrder(rows, producers)
    ensures match First(Expired(producers, now), ByExpiry())
      case None => forall k :: k in producers ==> producers[k].expires > now
      case Some(k) => Oldest(producers, now, k)
  {
    var due := Expired(producers, now);
    FirstIs(due, ByExpiry());
    match First(due, ByExpiry())
    case None =>
      assert forall k :: k in producers && producers[k].expires <= now ==> k in due;
    case Some(k) =>
      forall j | j in producers && j != k
        ensures Before(ByExpiry()(producers[k]), ByExpiry()(producers[j]))
      {
        if producers[j].expires <= now {
          assert j in due && Before(ByExpiry()(due[k]), ByExpiry()(due[j]));
        }
      }
  }

  /** What is left after deleting expired rows in expiry order. */
  ghost predicate ExpiredPrefix(producers: map<Producer, Watermark>, rest: map<Producer, Watermark>, now: int) {
    && Submap(rest, producers)
    && (forall k :: k in producers && k !in rest ==> producers[k].expires <= now)
    && (forall k, j :: k in producers && k !in rest && j in rest ==> Before(ByExpiry()(producers[k]), ByExpiry()(rest[j])))
  }

  lemma ExpiredPrefixStep(producers: map<Producer, Watermark>, k: Producer, rest: map<Producer, Watermark>, now: int)
    requires Oldest(producers, now, k) && ExpiredPrefix(producers - {k}, rest, now)
    ensures ExpiredPrefix(producers, rest, now)
  {
  }

  /** Only expired watermarks go, the earliest expiry first. */
  lemma {:induction false} PruneProducersPrefix(rows: nat, producers: map<Producer, Watermark>, now: int, budget: nat)
    requires RowOrder(rows, producers)
    ensures ExpiredPrefix(producers, PruneProducers(producers, now, budget).rows, now)
    decreases budget
  {
    NextProducer(rows, producers, now);
    match First(Expired(producers, now), ByExpiry())
    case None =>
    case Some(k) =>
      if budget != 0 {
        PruneProducersPrefix(rows, producers - {k}, now, budget - 1);
        ExpiredPrefixStep(producers, k, PruneProducers(producers - {k}, now, budget - 1).rows, now);
      }
  }

  /** The budget pays for exactly the deleted rows. */
  lemma PruneProducersBudget(producers: map<Producer, Watermark>, now: int, budget: nat)
    ensures var Watermarks(rest, left) := PruneProducers(producers, now, budget);
      |rest.Keys| + budget == |producers.Keys| + left
  {
    forall rows: map<Producer, Watermark>, k: Producer | k in rows
      ensures |(rows - {k}).Keys| == |rows.Keys| - 1
    {
      RowsRemove(rows, k);
    }
    var excess := |producers.Keys| - budget;
    PruneProducersInvariant(producers, now, budget, (rows: map<Producer, Watermark>, left: nat) => |rows.Keys| - left == excess);
  }

  lemma FirstIsARow<K, V>(table: map<K, V>, rank: V -> Rank)
    ensures First(table, rank).Some? ==> First(table, rank).value in table
  {
  }

  /** Whatever each deletion keeps about the watermarks and the budget, the loop keeps. */
  lemma {:induction false} PruneProducersInvariant(producers: map<Producer, Watermark>, now: int, budget: nat,
                                                   good: (map<Producer, Watermark>, nat) -> bool)
    requires good(producers, budget)
    requires forall rows: map<Producer, Watermark>, left: nat, k: Producer ::
      good(rows, left) && left > 0 && k in rows ==> good(rows - {k}, left - 1)
    ensures good(PruneProducers(producers, now, budget).rows, PruneProducers(producers, now, budget).left)
    decreases budget
  {
    FirstIsARow(Expired(producers, now), ByExpiry());
    match First(Expired(producers, now), ByExpiry())
    case None =>
    case Some(k) =>
      if budget != 0 {
        assert k in producers && good(producers - {k}, budget - 1);
        PruneProducersInvariant(producers - {k}, now, budget - 1, good);
      }
  }

  /** Budget left over means no watermark is expired any more. */
  lemma {:induction false} PruneProducersComplete(rows: nat, producers: map<Producer, Watermark>, now: int, budget: nat)
    requires RowOrder(rows, producers)
    ensures var Watermarks(rest, left) := PruneProducers(producers, now, budget);
      left > 0 ==> forall k :: k in rest ==> rest[k].expires > now
    decreases budget
  {
    NextProducer(rows, producers, now);
    match First(Expired(producers, now), ByExpiry())
    case None =>
    case Some(k) =>
      if budget != 0 {
        PruneProducersComplete(rows, producers - {k}, now, budget - 1);
      }
  }

  lemma WithoutExpiredSound(s: Store, now: int)
    requires Sound(s)
    ensures Sound(WithoutExpired(s, now).store)
  {
    SoundParts(s);
    PruneProducersPrefix(s.meta.rows, s.producers, now, MAINTENANCE_ITEMS);
    SoundWhole(WithoutExpired(s, now).store);
  }

  // ---- contexts --------------------------------------------------------------------------------

  /** Within both context bounds, and no stored context is past the age limit. */
  ghost predicate ContextsSettled(s: Store, now: int, p: Policy) {
    && !ContextPressure(s.meta, p)
    && (p.contextAge.Some? ==>
          forall k :: k in s.contexts ==> s.contexts[k].header.stamp.at >= now - Micros(p.contextAge.value))
  }

  ghost predicate OldestContext(contexts: map<nat, ContextRow>, k: nat) {
    k in contexts && forall j :: j in contexts && j != k ==> Before(ByTime()(contexts[k]), ByTime()(contexts[j]))
  }

  ghost predicate Filed(contexts: map<nat, ContextRow>) {
    forall k :: k in contexts ==> contexts[k].publication == k
  }

  /** Whether selected under pressure or by age, the next context is the oldest one stored. */
  lemma NextContext(s: Store, now: int, p: Policy)
    requires Filed(s.contexts)
    ensures match First(DueContexts(s, now, p), ByTime())
      case None => DueContexts(s, now, p) == map[]
      case Some(k) => OldestContext(s.contexts, k)
  {
    var due := DueContexts(s, now, p);
    FirstIs(due, ByTime());
    match First(due, ByTime())
    case None =>
    case Some(k) =>
      forall j | j in s.contexts && j != k
        ensures Before(ByTime()(s.contexts[k]), ByTime()(s.contexts[j]))
      {
        if j in due {
          assert Before(ByTime()(due[k]), ByTime()(due[j]));
        }
      }
  }

  lemma NoContextsNoPressure(s: Store, p: Policy)
    requires Tally(s.meta.contexts, s.meta.contextBytes, s.contexts, ContextBytes())
    requires Tally(s.meta.layouts, s.meta.layoutBytes, s.layouts, LayoutBytes())
    requires LayoutRefs(s.layouts, s.contexts) && s.contexts == map[]
    ensures !ContextPressure(s.meta, p)
  {
    TotalZero(s.contexts, ContextBytes());
    forall k | k in s.layouts
      ensures false
    {
      TotalZero(s.contexts, UsesLayout(k));
    }
    TotalZero(s.layouts, LayoutBytes());
  }

  lemma NothingDueIsSettled(s: Store, now: int, p: Policy)
    requires Sound(s) && DueContexts(s, now, p) == map[]
    ensures ContextsSettled(s, now, p)
  {
    if ContextPressure(s.meta, p) {
      SoundParts(s);
      NoContextsNoPressure(s, p);
    } else if p.contextAge.Some? {
      forall k | k in s.contexts
        ensures s.contexts[k].header.stamp.at >= now - Micros(p.contextAge.value)
      {
        assert k !in Overdue(s.contexts, now - Micros(p.contextAge.value));
      }
    }
  }

  /** Sessions keep everything but their reference counts. */
  ghost predicate SameSessions(t: map<Text, SessionRow>, s: map<Text, SessionRow>) {
    t.Keys == s.Keys && forall i :: i in t ==> t[i].(refs := 0) == s[i].(refs := 0)
  }

  /** Deleting contexts touches context and layout accounting and session references, nothing else. */
  ghost predicate OnlyContexts(t: Store, s: Store) {
    && t.profiles == s.profiles && t.producers == s.producers && t.imports == s.imports
    && SameSessions(t.sessions, s.sessions)
    && t.meta == s.meta.(contexts := t.meta.contexts, contextBytes := t.meta.contextBytes,
                         layouts := t.meta.layouts, layoutBytes := t.meta.layoutBytes)
  }

  lemma RemoveContextFrame(t: Store, k: nat)
    requires Removable(t, k)
    ensures OnlyContexts(RemoveContext(t, k), t)
  {
  }

  lemma PruneContextsFrame(s: Store, now: int, p: Policy, budget: nat)
    ensures OnlyContexts(PruneContexts(s, now, p, budget).store, s)
  {
    forall t: Store, k: nat | OnlyContexts(t, s) && Removable(t, k)
      ensures OnlyContexts(RemoveContext(t, k), s)
    {
      RemoveContextFrame(t, k);
    }
    PruneContextsInvariant(s, now, p, budget, (t: Store, left: nat) => OnlyContexts(t, s));
  }

  /** The deleted contexts are a prefix of the retention order: each precedes every survivor. */
  ghost predicate ContextPrefix(contexts: map<nat, ContextRow>, rest: map<nat, ContextRow>) {
    && Submap(rest, contexts)
    && (forall k, j :: k in contexts && k !in rest && j in rest ==> Before(ByTime()(contexts[k]), ByTime()(rest[j])))
  }

  lemma ContextPrefixStep(contexts: map<nat, ContextRow>, k: nat, rest: map<nat, ContextRow>)
    requires OldestContext(contexts, k) && ContextPrefix(contexts - {k}, rest)
    ensures ContextPrefix(contexts, rest)
  {
  }

  lemma {:induction false} PruneContextsPrefix(s: Store, now: int, p: Policy, budget: nat)
    requires Filed(s.contexts)
    ensures ContextPrefix(s.contexts, PruneContexts(s, now, p, budget).store.contexts)
    decreases budget
  {
    NextContext(s, now, p);
    match First(DueContexts(s, now, p), ByTime())
    case None =>
    case Some(k) =>
      if budget != 0 && Removable(s, k) {
        var t := RemoveContext(s, k);
        PruneContextsPrefix(t, now, p, budget - 1);
        ContextPrefixStep(s.contexts, k, PruneContexts(t, now, p, budget - 1).store.contexts);
      }
  }

  /** The budget pays for exactly the deleted rows. */
  lemma PruneContextsBudget(s: Store, now: int, p: Policy, budget: nat)
    ensures |PruneContexts(s, now, p, budget).store.contexts.Keys| + budget
         == |s.contexts.Keys| + PruneContexts(s, now, p, budget).left
  {
    forall t: Store, k: nat | Removable(t, k)
      ensures |RemoveContext(t, k).contexts.Keys| == |t.contexts.Keys| - 1
    {
      RowsRemove(t.contexts, k);
    }
    var excess := |s.contexts.Keys| - budget;
    PruneContextsInvariant(s, now, p, budget, (t: Store, left: nat) => |t.contexts.Keys| - left == excess);
  }

  lemma FiledWhenSound(s: Store)
    requires Sound(s)
    ensures Filed(s.contexts)
    ensures forall k :: k in s.contexts ==> Removable(s, k)
  {
    SoundParts(s);
  }

  /** Whatever each deletion keeps about the store and the budget, the loop keeps. */
  lemma {:induction false} PruneContextsInvariant(s: Store, now: int, p: Policy, budget: nat, good: (Store, nat) -> bool)
    requires good(s, budget)
    requires forall t: Store, left: nat, k: nat ::
      good(t, left) && left > 0 && Removable(t, k) ==> good(RemoveContext(t, k), left - 1)
    ensures good(PruneContexts(s, now, p, budget).store, PruneContexts(s, now, p, budget).left)
    decreases budget
  {
    match First(DueContexts(s, now, p), ByTime())
    case None =>
    case Some(k) =>
      if budget != 0 && Removable(s, k) {
        assert good(RemoveContext(s, k), budget - 1);
        PruneContextsInvariant(RemoveContext(s, k), now, p, budget - 1, good);
      }
  }

  lemma PruneContextsSound(s: Store, now: int, p: Policy, budget: nat)
    requires Sound(s)
    ensures Sound(PruneContexts(s, now, p, budget).store)
  {
    forall t: Store, k: nat | Sound(t) && Removable(t, k)
      ensures Sound(RemoveContext(t, k))
    {
      RemoveContextSound(t, k);
    }
    PruneContextsInvariant(s, now, p, budget, (t: Store, left: nat) => Sound(t));
  }

  /** Budget left over means nothing is due: both bounds and the age limit hold. */
  lemma {:induction false} PruneContextsComplete(s: Store, now: int, p: Policy, budget: nat)
    requires Sound(s)
    ensures var r := PruneContexts(s, now, p, budget); r.left > 0 ==> DueContexts(r.store, now, p) == map[]
    decreases budget
  {
    hide Sound, DueContexts, Removable, First;
    NextContextRemovable(s, now, p);
    if budget != 0 && First(DueContexts(s, now, p), ByTime()).Some? {
      var t := RemoveContext(s, First(DueContexts(s, now, p), ByTime()).value);
      PruneContextsComplete(t, now, p, budget - 1);
      assert PruneContexts(s, now, p, budget) == PruneContexts(t, now, p, budget - 1);
    }
  }

  lemma NextContextRemovable(s: Store, now: int, p: Policy)
    requires Sound(s)
    ensures match First(DueContexts(s, now, p), ByTime())
      case None => DueContexts(s, now, p) == map[]
      case Some(k) => Removable(s, k) && Sound(RemoveContext(s, k))
  {
    FiledWhenSound(s);
    NextContext(s, now, p);
    if First(DueContexts(s, now, p), ByTime()).Some? {
      RemoveContextSound(s, First(DueContexts(s, now, p), ByTime()).value);
    }
  }

  // ---- profiles --------------------------------------------------------------------------------

  ghost predicate ProfilesSettled(s: Store, now: int, p: Policy) {
    && !ProfilePressure(s.meta, p)
    && (p.profileAge.Some? ==> forall k :: k in s.profiles ==> s.profiles[k].updated >= now - Micros(p.profileAge.value))
  }

  ghost predicate OnlyProfiles(t: Store, s: Store) {
    && t.contexts == s.contexts && t.sessions == s.sessions && t.layouts == s.layouts
    && t.producers == s.producers && t.imports == s.imports
    && t.meta == s.meta.(profiles := t.meta.profiles, profileBytes := t.meta.profileBytes, profileSteps := t.meta.profileSteps)
  }

  ghost predicate DistinctProfiles(profiles: map<ProfileKey, ProfileRow>) {
    forall k, l :: k in profiles && l in profiles && k != l ==> profiles[k].publication != profiles[l].publication
  }

  lemma NextProfile(s: Store, now: int, p: Policy)
    requires DistinctProfiles(s.profiles)
    ensures match First(DueProfiles(s, now, p), ByUpdate())
      case None => DueProfiles(s, now, p) == map[]
      case Some(k) => k in s.profiles
  {
    FirstIs(DueProfiles(s, now, p), ByUpdate());
  }

  lemma NoProfileDueIsSettled(s: Store, now: int, p: Policy)
    requires Tally(s.meta.profiles, s.meta.profileBytes, s.profiles, ProfileBytes())
    requires Tally(s.meta.profiles, s.meta.profileSteps, s.profiles, ProfileSteps())
    requires DueProfiles(s, now, p) == map[]
    ensures ProfilesSettled(s, now, p)
  {
    if ProfilePressure(s.meta, p) {
      TotalZero(s.profiles, ProfileBytes());
      TotalZero(s.profiles, ProfileSteps());
    } else if p.profileAge.Some? {
      forall k | k in s.profiles
        ensures s.profiles[k].updated >= now - Micros(p.profileAge.value)
      {
        assert k !in Stale(s.profiles, now - Micros(p.profileAge.value));
      }
    }
  }

  lemma {:induction false} PruneProfilesFrame(s: Store, now: int, p: Policy, budget: nat)
    ensures var r := PruneProfiles(s, now, p, budget);
      OnlyProfiles(r.store, s) && Submap(r.store.profiles, s.profiles)
    decreases budget
  {
    match First(DueProfiles(s, now, p), ByUpdate())
    case None =>
    case Some(k) =>
      if budget != 0 && k in s.profiles {
        PruneProfilesFrame(RemoveProfile(s, k), now, p, budget - 1);
      }
  }

  /** The budget pays for exactly the deleted rows. */
  lemma PruneProfilesBudget(s: Store, now: int, p: Policy, budget: nat)
    ensures |PruneProfiles(s, now, p, budget).store.profiles.Keys| + budget
         == |s.profiles.Keys| + PruneProfiles(s, now, p, budget).left
  {
    forall t: Store, k: ProfileKey | k in t.profiles
      ensures |RemoveProfile(t, k).profiles.Keys| == |t.profiles.Keys| - 1
    {
      RowsRemove(t.profiles, k);
    }
    var excess := |s.profiles.Keys| - budget;
    PruneProfilesInvariant(s, now, p, budget, (t: Store, left: nat) => |t.profiles.Keys| - left == excess);
  }

  /** Whatever each deletion keeps about the store and the budget, the loop keeps. */
  lemma {:induction false} PruneProfilesInvariant(s: Store, now: int, p: Policy, budget: nat, good: (Store, nat) -> bool)
    requires good(s, budget)
    requires forall t: Store, left: nat, k: ProfileKey ::
      good(t, left) && left > 0 && k in t.profiles ==> good(RemoveProfile(t, k), left - 1)
    ensures good(PruneProfiles(s, now, p, budget).store, PruneProfiles(s, now, p, budget).left)
    decreases budget
  {
    match First(DueProfiles(s, now, p), ByUpdate())
    case None =>
    case Some(k) =>
      if budget != 0 && k in s.profiles {
        assert good(RemoveProfile(s, k), budget - 1);
        PruneProfilesInvariant(RemoveProfile(s, k), now, p, budget - 1, good);
      }
  }

  lemma PruneProfilesSound(s: Store, now: int, p: Policy, budget: nat)
    requires Sound(s)
    ensures Sound(PruneProfiles(s, now, p, budget).store)
  {
    forall t: Store, k: ProfileKey | Sound(t) && k in t.profiles
      ensures Sound(RemoveProfile(t, k))
    {
      RemoveProfileSound(t, k);
    }
    PruneProfilesInvariant(s, now, p, budget, (t: Store, left: nat) => Sound(t));
  }

  lemma {:induction false} PruneProfilesComplete(s: Store, now: int, p: Policy, budget: nat)
    requires DistinctProfiles(s.profiles)
    ensures var r := PruneProfiles(s, now, p, budget); r.left > 0 ==> DueProfiles(r.store, now, p) == map[]
    decreases budget
  {
    NextProfile(s, now, p);
    match First(DueProfiles(s, now, p), ByUpdate())
    case None =>
    case Some(k) =>
      if budget != 0 {
        PruneProfilesComplete(RemoveProfile(s, k), now, p, budget - 1);
      }
  }

  // ---- sessions --------------------------------------------------------------------------------

  ghost predicate OnlySessions(t: Store, s: Store) {
    && t.contexts == s.contexts && t.profiles == s.profiles && t.layouts == s.layouts
    && t.producers == s.producers && t.imports == s.imports
    && t.meta == s.meta.(sessions := t.meta.sessions, sessionBytes := t.meta.sessionBytes)
  }

  /** No open and no referenced session is deleted. */
  ghost predicate IdleRemoved(sessions: map<Text, SessionRow>, rest: map<Text, SessionRow>) {
    && Submap(rest, sessions)
    && (forall i :: i in sessions && i !in rest ==> Closed(sessions[i]) && sessions[i].refs == 0)
  }

  ghost predicate DistinctSessions(sessions: map<Text, SessionRow>) {
    forall i, j :: i in sessions && j in sessions && i != j ==> sessions[i].publication != sessions[j].publication
  }

  /** Budget left over means no closed, unreferenced session is due any more. */
  lemma {:induction false} PruneSessionsComplete(s: Store, now: int, p: Policy, budget: nat)
    requires DistinctSessions(s.sessions)
    ensures var r := PruneSessions(s, now, p, budget); r.left > 0 ==> DueSessions(r.store, now, p) == map[]
    decreases budget
  {
    NoSessionDue(s.sessions, DueSessions(s, now, p));
    NextSession(s, now, p);
    if budget != 0 && First(DueSessions(s, now, p), ByShutdown()).Some? {
      var t := RemoveSession(s, First(DueSessions(s, now, p), ByShutdown()).value);
      PruneSessionsComplete(t, now, p, budget - 1);
      assert PruneSessions(s, now, p, budget) == PruneSessions(t, now, p, budget - 1);
    }
  }

  lemma NoSessionDue(sessions: map<Text, SessionRow>, due: map<Text, SessionRow>)
    requires DistinctSessions(sessions) && Submap(due, sessions)
    ensures First(due, ByShutdown()).None? ==> due == map[]
  {
    assert Distinct(due, ByShutdown());
    FirstIs(due, ByShutdown());
  }

  lemma NextSession(s: Store, now: int, p: Policy)
    ensures match First(DueSessions(s, now, p), ByShutdown())
      case None => true
      case Some(i) => i in s.sessions && Closed(s.sessions[i]) && s.sessions[i].refs == 0
  {
  }

  lemma {:induction false} PruneSessionsFrame(s: Store, now: int, p: Policy, budget: nat)
    ensures var r := PruneSessions(s, now, p, budget);
      OnlySessions(r.store, s) && IdleRemoved(s.sessions, r.store.sessions)
    decreases budget
  {
    NextSession(s, now, p);
    match First(DueSessions(s, now, p), ByShutdown())
    case None =>
    case Some(k) =>
      if budget != 0 {
        PruneSessionsFrame(RemoveSession(s, k), now, p, budget - 1);
      }
  }

  /** The budget pays for exactly the deleted rows. */
  lemma PruneSessionsBudget(s: Store, now: int, p: Policy, budget: nat)
    ensures |PruneSessions(s, now, p, budget).store.sessions.Keys| + budget
         == |s.sessions.Keys| + PruneSessions(s, now, p, budget).left
  {
    forall t: Store, k: Text | k in t.sessions && t.sessions[k].refs == 0
      ensures |RemoveSession(t, k).sessions.Keys| == |t.sessions.Keys| - 1
    {
      RowsRemove(t.sessions, k);
    }
    var excess := |s.sessions.Keys| - budget;
    PruneSessionsInvariant(s, now, p, budget, (t: Store, left: nat) => |t.sessions.Keys| - left == excess);
  }

  /** Whatever each deletion keeps about the store and the budget, the loop keeps. */
  lemma {:induction false} PruneSessionsInvariant(s: Store, now: int, p: Policy, budget: nat, good: (Store, nat) -> bool)
    requires good(s, budget)
    requires forall t: Store, left: nat, k: Text ::
      good(t, left) && left > 0 && k in t.sessions && t.sessions[k].refs == 0 ==> good(RemoveSession(t, k), left - 1)
    ensures good(PruneSessions(s, now, p, budget).store, PruneSessions(s, now, p, budget).left)
    decreases budget
  {
    NextSession(s, now, p);
    match First(DueSessions(s, now, p), ByShutdown())
    case None =>
    case Some(k) =>
      if budget != 0 {
        assert good(RemoveSession(s, k), budget - 1);
        PruneSessionsInvariant(RemoveSession(s, k), now, p, budget - 1, good);
      }
  }

  lemma PruneSessionsSound(s: Store, now: int, p: Policy, budget: nat)
    requires Sound(s)
    ensures Sound(PruneSessions(s, now, p, budget).store)
  {
    forall t: Store, k: Text | Sound(t) && k in t.sessions && t.sessions[k].refs == 0
      ensures Sound(RemoveSession(t, k))
    {
      RemoveSessionSound(t, k);
    }
    PruneSessionsInvariant(s, now, p, budget, (t: Store, left: nat) => Sound(t));
  }

  // ---- the whole pass ----------------------------------------------------------------------------

  /** A retention pass keeps every counter, reference and publication exact. */
  lemma PruneSound(s: Store, now: int, p: Policy)
    requires Sound(s)
    ensures Sound(PruneAll(s, now, p).store)
  {
    var a := WithoutExpired(s, now);
    WithoutExpiredSound(s, now);
    var b := PruneContexts(a.store, now, p, a.left);
    PruneContextsSound(a.store, now, p, a.left);
    var c := PruneProfiles(b.store, now, p, b.left);
    PruneProfilesSound(b.store, now, p, b.left);
    PruneSessionsSound(c.store, now, p, c.left);
  }

  ghost function RowCount(s: Store): nat {
    |s.producers.Keys| + |s.contexts.Keys| + |s.profiles.Keys| + |s.sessions.Keys|
  }

  /** One pass deletes at most 128 rows, and pays for each of them. */
  lemma PruneBudget(s: Store, now: int, p: Policy)
    ensures var r := PruneAll(s, now, p);
      r.left <= MAINTENANCE_ITEMS && RowCount(s) - RowCount(r.store) == MAINTENANCE_ITEMS - r.left
  {
    var a := WithoutExpired(s, now);
    PruneProducersBudget(s.producers, now, MAINTENANCE_ITEMS);
    var b := PruneContexts(a.store, now, p, a.left);
    PruneContextsBudget(a.store, now, p, a.left);
    PruneContextsFrame(a.store, now, p, a.left);
    assert b.store.sessions.Keys == s.sessions.Keys;
    var c := PruneProfiles(b.store, now, p, b.left);
    PruneProfilesBudget(b.store, now, p, b.left);
    PruneProfilesFrame(b.store, now, p, b.left);
    PruneSessionsBudget(c.store, now, p, c.left);
    PruneSessionsFrame(c.store, now, p, c.left);
  }

  /** What a pass may delete: expired watermarks, the oldest contexts, and closed sessions nothing refers to. */
  ghost predicate Retained(s: Store, t: Store, now: int) {
    && ExpiredPrefix(s.producers, t.producers, now)
    && ContextPrefix(s.contexts, t.contexts)
    && Submap(t.profiles, s.profiles)
    && t.imports == s.imports
    && t.meta.clock == s.meta.clock && t.meta.publication == s.meta.publication && t.meta.rows == s.meta.rows
    && (forall i :: i in s.sessions && i !in t.sessions ==> Closed(s.sessions[i]))
    && (forall k :: k in t.contexts ==> t.contexts[k].header.session in t.sessions)
  }

  lemma PruneRetains(s: Store, now: int, p: Policy)
    requires Sound(s)
    ensures Retained(s, PruneAll(s, now, p).store, now)
  {
    var a := WithoutExpired(s, now);
    assert ExpiredPrefix(s.producers, a.store.producers, now) by {
      SoundParts(s);
      PruneProducersPrefix(s.meta.rows, s.producers, now, MAINTENANCE_ITEMS);
    }
    var b := PruneContexts(a.store, now, p, a.left);
    assert OnlyContexts(b.store, a.store) by { PruneContextsFrame(a.store, now, p, a.left); }
    assert ContextPrefix(s.contexts, b.store.contexts) by {
      FiledWhenSound(s);
      PruneContextsPrefix(a.store, now, p, a.left);
    }
    var c := PruneProfiles(b.store, now, p, b.left);
    assert OnlyProfiles(c.store, b.store) && Submap(c.store.profiles, b.store.profiles) by {
      PruneProfilesFrame(b.store, now, p, b.left);
    }
    var d := PruneSessions(c.store, now, p, c.left);
    assert OnlySessions(d.store, c.store) && IdleRemoved(c.store.sessions, d.store.sessions) by {
      PruneSessionsFrame(c.store, now, p, c.left);
    }
    OwnersStored(s, now, p);
    StagesRetain(s, a.store, b.store, c.store, d.store, now);
  }

  lemma StagesRetain(s: Store, a: Store, b: Store, c: Store, d: Store, now: int)
    requires a == s.(producers := a.producers, meta := s.meta.(producers := a.meta.producers))
    requires ExpiredPrefix(s.producers, a.producers, now)
    requires OnlyContexts(b, a) && ContextPrefix(s.contexts, b.contexts)
    requires OnlyProfiles(c, b) && Submap(c.profiles, b.profiles)
    requires OnlySessions(d, c) && IdleRemoved(c.sessions, d.sessions)
    requires forall k :: k in d.contexts ==> d.contexts[k].header.session in d.sessions
    ensures Retained(s, d, now)
  {
    forall i | i in s.sessions && i !in d.sessions
      ensures Closed(s.sessions[i])
    {
      assert c.sessions[i].(refs := 0) == s.sessions[i].(refs := 0);
    }
  }

  lemma OwnersStored(s: Store, now: int, p: Policy)
    requires Sound(s)
    ensures var t := PruneAll(s, now, p).store; forall k :: k in t.contexts ==> t.contexts[k].header.session in t.sessions
  {
    var t := PruneAll(s, now, p).store;
    PruneSound(s, now, p);
    SoundParts(t);
  }

  lemma ContextsDone(s: Store, now: int, p: Policy, budget: nat)
    requires Sound(s) && PruneContexts(s, now, p, budget).left > 0
    ensures ContextsSettled(PruneContexts(s, now, p, budget).store, now, p)
  {
    PruneContextsSound(s, now, p, budget);
    PruneContextsComplete(s, now, p, budget);
    NothingDueIsSettled(PruneContexts(s, now, p, budget).store, now, p);
  }

  lemma ProfilesDone(s: Store, now: int, p: Policy, budget: nat)
    requires Sound(s) && PruneProfiles(s, now, p, budget).left > 0
    ensures ProfilesSettled(PruneProfiles(s, now, p, budget).store, now, p)
  {
    var t := PruneProfiles(s, now, p, budget).store;
    assert DueProfiles(t, now, p) == map[] by {
      SoundParts(s);
      PruneProfilesComplete(s, now, p, budget);
    }
    PruneProfilesSound(s, now, p, budget);
    SoundParts(t);
    NoProfileDueIsSettled(t, now, p);
  }

  lemma CompleteProducers(s: Store, now: int, p: Policy)
    requires RowOrder(s.meta.rows, s.producers) && PruneAll(s, now, p).left > 0
    ensures var t := PruneAll(s, now, p).store; forall k :: k in t.producers ==> t.producers[k].expires > now
  {
    var a := WithoutExpired(s, now);
    PruneProducersComplete(s.meta.rows, s.producers, now, MAINTENANCE_ITEMS);
    LaterStages(a, now, p);
  }

  /** The profile and session loops leave the context table alone, the session loop leaves profiles alone. */
  lemma LaterStages(a: Pass, now: int, p: Policy)
    ensures var b := PruneContexts(a.store, now, p, a.left);
      var c := PruneProfiles(b.store, now, p, b.left);
      var d := PruneSessions(c.store, now, p, c.left);
      && d.left <= c.left <= b.left <= a.left && d.store.producers == a.store.producers
      && (ContextsSettled(b.store, now, p) ==> ContextsSettled(d.store, now, p))
      && (ProfilesSettled(c.store, now, p) ==> ProfilesSettled(d.store, now, p))
  {
    PruneContextsFrame(a.store, now, p, a.left);
    var b := PruneContexts(a.store, now, p, a.left);
    PruneProfilesFrame(b.store, now, p, b.left);
    var c := PruneProfiles(b.store, now, p, b.left);
    PruneSessionsFrame(c.store, now, p, c.left);
  }

  /** A pass that did not use up its budget leaves no bound exceeded and nothing past its age limit. */
  lemma PruneComplete(s: Store, now: int, p: Policy)
    requires Sound(s) && PruneAll(s, now, p).left > 0
    ensures var t := PruneAll(s, now, p).store;
      && ContextsSettled(t, now, p) && ProfilesSettled(t, now, p) && DueSessions(t, now, p) == map[]
      && forall k :: k in t.producers ==> t.producers[k].expires > now
  {
    assert RowOrder(s.meta.rows, s.producers) by { SoundParts(s); }
    CompleteProducers(s, now, p);
    var a := WithoutExpired(s, now);
    assert Sound(a.store) by { WithoutExpiredSound(s, now); }
    CompleteStages(a, now, p);
    CompleteSessions(a, now, p);
  }

  lemma CompleteSessions(a: Pass, now: int, p: Policy)
    requires Sound(a.store)
    ensures var b := PruneContexts(a.store, now, p, a.left);
      var c := PruneProfiles(b.store, now, p, b.left);
      var d := PruneSessions(c.store, now, p, c.left);
      d.left > 0 ==> DueSessions(d.store, now, p) == map[]
  {
    var b := PruneContexts(a.store, now, p, a.left);
    PruneContextsSound(a.store, now, p, a.left);
    var c := PruneProfiles(b.store, now, p, b.left);
    PruneProfilesSound(b.store, now, p, b.left);
    assert DistinctSessions(c.store.sessions) by { SoundParts(c.store); }
    PruneSessionsComplete(c.store, now, p, c.left);
  }

  lemma CompleteStages(a: Pass, now: int, p: Policy)
    requires Sound(a.store)
    ensures var b := PruneContexts(a.store, now, p, a.left);
      var c := PruneProfiles(b.store, now, p, b.left);
      var d := PruneSessions(c.store, now, p, c.left);
      d.left > 0 ==> ContextsSettled(d.store, now, p) && ProfilesSettled(d.store, now, p)
  {
    LaterStages(a, now, p);
    CompleteBounds(a, now, p);
  }

  lemma CompleteBounds(a: Pass, now: int, p: Policy)
    requires Sound(a.store)
    ensures var b := PruneContexts(a.store, now, p, a.left);
      var c := PruneProfiles(b.store, now, p, b.left);
      && (b.left > 0 ==> ContextsSettled(b.store, now, p))
      && (c.left > 0 ==> ProfilesSettled(c.store, now, p))
  {
    var b := PruneContexts(a.store, now, p, a.left);
    if b.left > 0 {
      ContextsDone(a.store, now, p, a.left);
    }
    if PruneProfiles(b.store, now, p, b.left).left > 0 {
      PruneContextsSound(a.store, now, p, a.left);
      ProfilesDone(b.store, now, p, b.left);
    }
  }
}
