/** Combining the contents of adjacent publications into one batch loses nothing and adds up exactly. */
module Publications {
  import opened Wrappers
  import opened Tables
  import opened Transaction

  function AllContexts(parts: seq<Content>): seq<ContextEntry> {
    if parts == [] then [] else AllContexts(parts[..|parts| - 1]) + parts[|parts| - 1].contexts
  }

  function AllSessions(parts: seq<Content>): seq<SessionEntry> {
    if parts == [] then [] else AllSessions(parts[..|parts| - 1]) + parts[|parts| - 1].sessions
  }

  function AllProfiles(parts: seq<Content>): seq<Aggregate> {
    if parts == [] then [] else AllProfiles(parts[..|parts| - 1]) + parts[|parts| - 1].profiles
  }

  /** One batch for all parts; an import checkpoint only travels alone. */
  function Combined(parts: seq<Content>): Content {
    Content(AllContexts(parts), AllSessions(parts), AllProfiles(parts), if |parts| == 1 then parts[0].checkpoint else None)
  }

  /** `part` occurs in `whole` as a contiguous run. */
  ghost predicate Run<T(!new)>(whole: seq<T>, part: seq<T>) {
    exists before: seq<T>, after: seq<T> :: whole == before + part + after
  }

  lemma RunGrows<T(!new)>(whole: seq<T>, part: seq<T>, more: seq<T>)
    requires Run(whole, part)
    ensures Run(whole + more, part)
  {
    var before, after :| whole == before + part + after;
    assert whole + more == before + part + (after + more);
  }

  lemma RunLast<T(!new)>(whole: seq<T>, part: seq<T>)
    ensures Run(whole + part, part)
  {
    assert whole + part == whole + part + [];
  }

  ghost predicate Includes(whole: Content, part: Content) {
    && Run(whole.contexts, part.contexts) && Run(whole.sessions, part.sessions) && Run(whole.profiles, part.profiles)
    && (part.checkpoint.Some? ==> whole.checkpoint == part.checkpoint)
  }

  /** A checkpoint comes alone. */
  predicate Combinable(parts: seq<Content>) {
    |parts| > 1 ==> forall i :: 0 <= i < |parts| ==> parts[i].checkpoint.None?
  }

  lemma {:induction false} PartsIncluded(parts: seq<Content>, i: nat)
    requires i < |parts|
    ensures Run(AllContexts(parts), parts[i].contexts) && Run(AllSessions(parts), parts[i].sessions)
    ensures Run(AllProfiles(parts), parts[i].profiles)
  {
    var init, last := parts[..|parts| - 1], parts[|parts| - 1];
    if i < |init| {
      PartsIncluded(init, i);
      RunGrows(AllContexts(init), parts[i].contexts, last.contexts);
      RunGrows(AllSessions(init), parts[i].sessions, last.sessions);
      RunGrows(AllProfiles(init), parts[i].profiles, last.profiles);
    } else {
      RunLast(AllContexts(init), last.contexts);
      RunLast(AllSessions(init), last.sessions);
      RunLast(AllProfiles(init), last.profiles);
    }
  }

  /** Everything a publication carries is in the batch it is combined into. */
  lemma CombinedIncludes(parts: seq<Content>, i: nat)
    requires Combinable(parts) && i < |parts|
    ensures Includes(Combined(parts), parts[i])
  {
    PartsIncluded(parts, i);
  }

  // ---- sizes add up ----------------------------------------------------------------------------

  function SumOf(costs: seq<nat>): nat {
    if costs == [] then 0 else SumOf(costs[..|costs| - 1]) + costs[|costs| - 1]
  }

  lemma {:induction false} ContextsBytesAdd(a: seq<ContextEntry>, b: seq<ContextEntry>)
    ensures ContextsBytes(a + b) == ContextsBytes(a) + ContextsBytes(b)
  {
    if b == [] {
      assert a + b == a;
    } else {
      ContextsBytesAdd(a, b[..|b| - 1]);
      assert (a + b)[..|a + b| - 1] == a + b[..|b| - 1];
    }
  }

  lemma {:induction false} SessionsBytesAdd(a: seq<SessionEntry>, b: seq<SessionEntry>)
    ensures SessionsBytes(a + b) == SessionsBytes(a) + SessionsBytes(b)
  {
    if b == [] {
      assert a + b == a;
    } else {
      SessionsBytesAdd(a, b[..|b| - 1]);
      assert (a + b)[..|a + b| - 1] == a + b[..|b| - 1];
    }
  }

  lemma {:induction false} ProfilesBytesAdd(a: seq<Aggregate>, b: seq<Aggregate>, c: Config)
    ensures ProfilesBytes(a + b, c) == ProfilesBytes(a, c) + ProfilesBytes(b, c)
  {
    if b == [] {
      assert a + b == a;
    } else {
      ProfilesBytesAdd(a, b[..|b| - 1], c);
      assert (a + b)[..|a + b| - 1] == a + b[..|b| - 1];
    }
  }

  function ItemCounts(parts: seq<Content>): (costs: seq<nat>)
    ensures |costs| == |parts| && forall i :: 0 <= i < |parts| ==> costs[i] == Items(parts[i])
  {
    seq<nat>(|parts|, i requires 0 <= i < |parts| => Items(parts[i]))
  }

  function ByteCounts(parts: seq<Content>, c: Config): (costs: seq<nat>)
    ensures |costs| == |parts| && forall i :: 0 <= i < |parts| ==> costs[i] == ByteSize(parts[i], c)
  {
    seq<nat>(|parts|, i requires 0 <= i < |parts| => ByteSize(parts[i], c))
  }

  lemma {:induction false} PlainSizesAdd(parts: seq<Content>, c: Config)
    requires forall i :: 0 <= i < |parts| ==> parts[i].checkpoint.None?
    ensures |AllContexts(parts)| + |AllSessions(parts)| + |AllProfiles(parts)| == SumOf(ItemCounts(parts))
    ensures ContextsBytes(AllContexts(parts)) + SessionsBytes(AllSessions(parts)) + ProfilesBytes(AllProfiles(parts), c)
         == SumOf(ByteCounts(parts, c))
  {
    if parts != [] {
      var init, last := parts[..|parts| - 1], parts[|parts| - 1];
      PlainSizesAdd(init, c);
      ContextsBytesAdd(AllContexts(init), last.contexts);
      SessionsBytesAdd(AllSessions(init), last.sessions);
      ProfilesBytesAdd(AllProfiles(init), last.profiles, c);
      assert ItemCounts(parts)[..|init|] == ItemCounts(init);
      assert ByteCounts(parts, c)[..|init|] == ByteCounts(init, c);
    }
  }

  lemma CombinedSizes(parts: seq<Content>, c: Config)
    requires Combinable(parts)
    ensures Items(Combined(parts)) == SumOf(ItemCounts(parts))
    ensures ByteSize(Combined(parts), c) == SumOf(ByteCounts(parts, c))
  {
    if |parts| == 1 {
      assert parts[..0] == [];
      assert AllContexts(parts) == AllContexts([]) + parts[0].contexts == parts[0].contexts;
      assert AllSessions(parts) == AllSessions([]) + parts[0].sessions == parts[0].sessions;
      assert AllProfiles(parts) == AllProfiles([]) + parts[0].profiles == parts[0].profiles;
      assert ItemCounts(parts)[..0] == [] && ByteCounts(parts, c)[..0] == [];
    } else {
      PlainSizesAdd(parts, c);
    }
  }

  // ---- publications whose preparation succeeded ----------------------------------------------------

  function Survivors(prepared: seq<Option<Content>>): seq<Content> {
    if prepared == [] then []
    else
      Survivors(prepared[..|prepared| - 1])
      + if prepared[|prepared| - 1].Some? then [prepared[|prepared| - 1].value] else []
  }

  lemma {:induction false} SurvivorAt(prepared: seq<Option<Content>>, i: nat) returns (j: nat)
    requires i < |prepared| && prepared[i].Some?
    ensures j < |Survivors(prepared)| && Survivors(prepared)[j] == prepared[i].value
  {
    var init := prepared[..|prepared| - 1];
    if i < |init| {
      j := SurvivorAt(init, i);
    } else {
      j := |Survivors(init)|;
    }
  }

  lemma CountsAppend(parts: seq<Content>, x: Content, c: Config)
    ensures SumOf(ItemCounts(parts + [x])) == SumOf(ItemCounts(parts)) + Items(x)
    ensures SumOf(ByteCounts(parts + [x], c)) == SumOf(ByteCounts(parts, c)) + ByteSize(x, c)
  {
    assert ItemCounts(parts + [x])[..|parts|] == ItemCounts(parts);
    assert ByteCounts(parts + [x], c)[..|parts|] == ByteCounts(parts, c);
  }

  /** What survives preparation within the bounds of each publication stays within their sums. */
  lemma {:induction false} SurvivorsFit(prepared: seq<Option<Content>>, items: seq<nat>, bytes: seq<nat>, c: Config)
    requires |prepared| == |items| == |bytes|
    requires forall i :: 0 <= i < |prepared| && prepared[i].Some? ==>
               Items(prepared[i].value) <= items[i] && ByteSize(prepared[i].value, c) <= bytes[i]
    ensures SumOf(ItemCounts(Survivors(prepared))) <= SumOf(items)
    ensures SumOf(ByteCounts(Survivors(prepared), c)) <= SumOf(bytes)
  {
    if prepared != [] {
      var n := |prepared| - 1;
      SurvivorsFit(prepared[..n], items[..n], bytes[..n], c);
      if prepared[n].Some? {
        CountsAppend(Survivors(prepared[..n]), prepared[n].value, c);
      } else {
        assert Survivors(prepared) == Survivors(prepared[..n]);
      }
    }
  }
}
