/** The stored timing aggregate of one key, over every run of the store. */
module Aggregates {
  // As long as no retention pass deletes its row, it is the fold of the deltas that the applied batches carried, in the
  // order of the log.

  import opened Wrappers
  import opened Tables
  import opened Rows
  import opened Prune
  import opened Transaction
  import opened History
  import Timing

  function RowOf(s: Store, key: ProfileKey): Option<Timing.Profile> {
    if key in s.profiles then Some(s.profiles[key].profile) else None
  }

  /** The deltas for one key among the entries of a batch. */
  function DeltasFor(entries: seq<Aggregate>, key: ProfileKey): seq<Timing.Profile> {
    if entries == [] then []
    else
      var last := entries[|entries| - 1];
      DeltasFor(entries[..|entries| - 1], key) + if last.key == key then [last.profile] else []
  }

  lemma {:induction false} DeltasConcat(a: seq<Aggregate>, b: seq<Aggregate>, key: ProfileKey)
    ensures DeltasFor(a + b, key) == DeltasFor(a, key) + DeltasFor(b, key)
  {
    if b == [] {
      assert a + b == a;
    } else {
      DeltasConcat(a, b[..|b| - 1], key);
      assert (a + b)[..|a + b| - 1] == a + b[..|b| - 1];
    }
  }

  function LogDeltas(log: seq<Batch>, key: ProfileKey): seq<Timing.Profile> {
    if log == [] then []
    else LogDeltas(log[..|log| - 1], key) + DeltasFor(log[|log| - 1].content.profiles, key)
  }

  /** The first delta is the aggregate; every later one of the same shape is merged into it. */
  function Merged(o: Option<Timing.Profile>, d: Timing.Profile): Option<Timing.Profile> {
    if o.None? then Some(d)
    else if |o.value.steps| == |d.steps| then Some(Timing.MergeProfiles(o.value, d))
    else o
  }

  function Fold(o: Option<Timing.Profile>, deltas: seq<Timing.Profile>): Option<Timing.Profile> {
    if deltas == [] then o else Merged(Fold(o, deltas[..|deltas| - 1]), deltas[|deltas| - 1])
  }

  lemma {:induction false} FoldConcat(o: Option<Timing.Profile>, a: seq<Timing.Profile>, b: seq<Timing.Profile>)
    ensures Fold(o, a + b) == Fold(Fold(o, a), b)
  {
    if b == [] {
      assert a + b == a;
    } else {
      FoldConcat(o, a, b[..|b| - 1]);
      assert (a + b)[..|a + b| - 1] == a + b[..|b| - 1];
    }
  }

  // ---- one publication ------------------------------------------------------------------------------------

  lemma {:induction false} SessionsKeepProfiles(s: Store, entries: seq<SessionEntry>)
    requires PutSessions(s, entries).Success?
    ensures PutSessions(s, entries).value.profiles == s.profiles
  {
    if entries != [] {
      SessionsKeepProfiles(s, entries[..|entries| - 1]);
    }
  }

  lemma {:induction false} ContextsKeepProfiles(s: Store, entries: seq<ContextEntry>)
    requires PutContexts(s, entries).Success?
    ensures PutContexts(s, entries).value.profiles == s.profiles
  {
    if entries != [] {
      ContextsKeepProfiles(s, entries[..|entries| - 1]);
    }
  }

  lemma PutFolds(s: Store, delta: Aggregate, now: int, c: Config, key: ProfileKey)
    requires PutProfile(s, delta, now, c).Success?
    ensures RowOf(PutProfile(s, delta, now, c).value, key)
         == if delta.key == key then Merged(RowOf(s, key), delta.profile) else RowOf(s, key)
  {
  }

  lemma {:induction false} ProfilesFold(s: Store, entries: seq<Aggregate>, now: int, c: Config, key: ProfileKey)
    requires PutProfiles(s, entries, now, c).Success?
    ensures RowOf(PutProfiles(s, entries, now, c).value, key) == Fold(RowOf(s, key), DeltasFor(entries, key))
  {
    if entries != [] {
      var init, last := entries[..|entries| - 1], entries[|entries| - 1];
      ProfilesFold(s, init, now, c, key);
      PutFolds(PutProfiles(s, init, now, c).value, last, now, c, key);
      var deltas := DeltasFor(entries, key);
      if last.key == key {
        assert deltas[..|deltas| - 1] == DeltasFor(init, key);
      } else {
        assert deltas == DeltasFor(init, key);
      }
    }
  }

  lemma ContentFolds(s: Store, content: Content, now: int, c: Config, key: ProfileKey)
    requires PutContent(s, content, now, c).Success?
    ensures RowOf(PutContent(s, content, now, c).value, key) == Fold(RowOf(s, key), DeltasFor(content.profiles, key))
  {
    SessionsKeepProfiles(s, content.sessions);
    var a := PutSessions(s, content.sessions).value;
    ContextsKeepProfiles(a, content.contexts);
    var b := PutContexts(a, content.contexts).value;
    ProfilesFold(b, content.profiles, now, c, key);
    assert RowOf(b, key) == RowOf(s, key);
  }

  // ---- retention --------------------------------------------------------------------------------------------

  /** A retention pass deletes the row of the key. */
  ghost predicate PassDrops(s: Store, now: int, p: Policy, key: ProfileKey) {
    key in s.profiles && key !in PruneAll(s, now, p).store.profiles
  }

  lemma PassKeepsRow(s: Store, now: int, p: Policy, key: ProfileKey)
    requires Sound(s) && !PassDrops(s, now, p, key)
    ensures RowOf(PruneAll(s, now, p).store, key) == RowOf(s, key)
  {
    PruneRetains(s, now, p);
  }

  /** One of the two passes of a publication deletes the row. */
  ghost predicate PublishDrops(t: Store, b: Batch, c: Config, key: ProfileKey) {
    Publish(t, b, t.meta.clock, c).Success? &&
    (|| PassDrops(t, t.meta.clock, c.policy, key)
     || PassDrops(PutContent(Registered(t, b, t.meta.clock, c).value, b.content, t.meta.clock, c).value, t.meta.clock, c.policy, key))
  }

  ghost predicate Drops(s: Store, op: Operation, c: Config, key: ProfileKey) {
    !op.fault.Aborted? &&
    match op
    case Offer(b, wall, _) =>
      WriteBatch(s, b, wall, c).result == Success(Receipt(b.sequence, false)) && PublishDrops(Clocked(s, wall), b, c, key)
    case Tidy(wall, _) =>
      Maintain(s, wall, c).result.Success? && PassDrops(Clocked(s, wall), Clocked(s, wall).meta.clock, c.policy, key)
  }

  lemma RegisteredKeepsRow(t: Store, b: Batch, c: Config, key: ProfileKey)
    requires Sound(t) && Registered(t, b, t.meta.clock, c).Success? && !PassDrops(t, t.meta.clock, c.policy, key)
    ensures RowOf(Registered(t, b, t.meta.clock, c).value, key) == RowOf(t, key)
  {
    PassKeepsRow(t, t.meta.clock, c.policy, key);
  }

  lemma FilledFolds(r: Store, b: Batch, now: int, c: Config, key: ProfileKey)
    requires Sound(r) && Filled(r, b, now, c).Success?
    requires !PassDrops(PutContent(r, b.content, now, c).value, now, c.policy, key)
    ensures RowOf(Filled(r, b, now, c).value, key) == Fold(RowOf(r, key), DeltasFor(b.content.profiles, key))
  {
    PutContentSound(r, b.content, now, c);
    ContentFolds(r, b.content, now, c, key);
    PassKeepsRow(PutContent(r, b.content, now, c).value, now, c.policy, key);
  }

  lemma PublishFolds(t: Store, b: Batch, c: Config, key: ProfileKey)
    requires Sound(t) && Publish(t, b, t.meta.clock, c).Success? && !PublishDrops(t, b, c, key)
    ensures RowOf(Publish(t, b, t.meta.clock, c).value, key) == Fold(RowOf(t, key), DeltasFor(b.content.profiles, key))
  {
    RegisteredSound(t, b, t.meta.clock, c);
    RegisteredKeepsRow(t, b, c, key);
    FilledFolds(Registered(t, b, t.meta.clock, c).value, b, t.meta.clock, c, key);
  }

  /** An operation that deletes no row of the key logs a batch and folds its deltas in, or does neither. */
  lemma ApplyFolds(h: History, op: Operation, c: Config, key: ProfileKey)
    requires Sound(h.store) && !Drops(h.store, op, c, key)
    ensures var g := Apply(h, op, c);
      || (g.log == h.log && RowOf(g.store, key) == RowOf(h.store, key))
      || (op.Offer? && g.log == h.log + [op.batch] && RowOf(g.store, key) == Fold(RowOf(h.store, key), DeltasFor(op.batch.content.profiles, key)))
  {
    if !op.fault.Aborted? {
      match op
      case Offer(b, wall, _) =>
        WriteOutcomes(h.store, b, wall, c);
        ClockedSound(h.store, wall);
        if WriteBatch(h.store, b, wall, c).result == Success(Receipt(b.sequence, false)) {
          PublishFolds(Clocked(h.store, wall), b, c, key);
        }
      case Tidy(wall, _) =>
        ClockedSound(h.store, wall);
        if Maintain(h.store, wall, c).result.Success? {
          PassKeepsRow(Clocked(h.store, wall), Clocked(h.store, wall).meta.clock, c.policy, key);
        }
    }
  }

  // ---- deltas that are runs ---------------------------------------------------------------------------------

  /** The delta of each part: what an empty profile learns from its runs. */
  function DeltasOf(parts: seq<seq<Timing.Run>>, steps: nat): (deltas: seq<Timing.Profile>)
    ensures |deltas| == |parts|
    ensures forall i :: 0 <= i < |parts| ==> deltas[i] == Timing.LearnAll(Timing.EmptyProfile(steps), parts[i])
  {
    seq(|parts|, i requires 0 <= i < |parts| => Timing.LearnAll(Timing.EmptyProfile(steps), parts[i]))
  }

  ghost predicate AllValid(parts: seq<seq<Timing.Run>>, steps: nat) {
    forall i :: 0 <= i < |parts| ==> Timing.ValidRuns(parts[i], steps)
  }

  lemma NextPart(steps: nat, before: seq<Timing.Run>, part: seq<Timing.Run>)
    requires Timing.ValidRuns(before, steps) && Timing.ValidRuns(part, steps)
    ensures var empty := Timing.EmptyProfile(steps);
      Merged(Some(Timing.LearnAll(empty, before)), Timing.LearnAll(empty, part)) == Some(Timing.LearnAll(empty, before + part))
  {
    var empty := Timing.EmptyProfile(steps);
    Timing.DeltaIsItsRuns(empty, before);
    Timing.DeltaIsItsRuns(Timing.LearnAll(empty, before), part);
    Timing.LearnAllConcat(empty, before, part);
  }

  lemma {:induction false} FlattenValid(parts: seq<seq<Timing.Run>>, steps: nat)
    requires AllValid(parts, steps)
    ensures Timing.ValidRuns(Timing.Flatten(parts), steps)
  {
    if parts != [] {
      FlattenValid(parts[..|parts| - 1], steps);
    }
  }

  /** However the runs of a key were cut into deltas, folding the deltas learns the runs. */
  lemma {:induction false} FoldLearns(parts: seq<seq<Timing.Run>>, steps: nat)
    requires AllValid(parts, steps)
    ensures Fold(None, DeltasOf(parts, steps))
         == if parts == [] then None else Some(Timing.LearnAll(Timing.EmptyProfile(steps), Timing.Flatten(parts)))
  {
    if parts != [] {
      var n := |parts| - 1;
      FoldLearns(parts[..n], steps);
      assert DeltasOf(parts, steps)[..n] == DeltasOf(parts[..n], steps);
      if n == 0 {
        assert Timing.Flatten(parts) == Timing.Flatten(parts[..0]) + parts[0] == parts[0];
      } else {
        FlattenValid(parts[..n], steps);
        NextPart(steps, Timing.Flatten(parts[..n]), parts[n]);
      }
    }
  }
}
