/**
  Timing profiles in memory: a cache bounded in profiles, steps and bytes that forgets the least recently used,
  and the deltas that wait for, or are on, their way to the store.
 */
module ProgressHistory {
  import opened Wrappers
  import opened Totals
  import opened Timing
  import opened Lessons
  import Tables

  /** A timing key has a fixed charge and step count; any other scope is charged by its steps. */
  datatype Key = TimingKey(profile: Tables.ProfileKey, charge: nat, stepCount: nat) | Scope(token: int)

  function Charge(k: Key, steps: nat): nat {
    if k.TimingKey? then k.charge else 1024 + 256 * steps
  }

  /** An entry of the recency index, least recently used first. */
  datatype Entry = Entry(key: Key, steps: nat)

  datatype CacheLimits = CacheLimits(profiles: nat, steps: nat, bytes: nat)

  // ---- the recency index -----------------------------------------------------------------------------

  function StepsOf(order: seq<Entry>): nat {
    if order == [] then 0 else order[0].steps + StepsOf(order[1..])
  }

  function BytesOf(order: seq<Entry>): nat {
    if order == [] then 0 else Charge(order[0].key, order[0].steps) + BytesOf(order[1..])
  }

  lemma {:induction false} SumsConcat(a: seq<Entry>, b: seq<Entry>)
    ensures StepsOf(a + b) == StepsOf(a) + StepsOf(b) && BytesOf(a + b) == BytesOf(a) + BytesOf(b)
  {
    if a == [] {
      assert a + b == b;
    } else {
      SumsConcat(a[1..], b);
      assert (a + b)[1..] == a[1..] + b;
    }
  }

  predicate Over(order: seq<Entry>, limits: CacheLimits) {
    |order| > limits.profiles || StepsOf(order) > limits.steps || BytesOf(order) > limits.bytes
  }

  /** Dropping from the least recently used end for as long as a bound is exceeded. */
  function Trimmed(order: seq<Entry>, limits: CacheLimits): seq<Entry> {
    if order != [] && Over(order, limits) then Trimmed(order[1..], limits) else order
  }

  /** What is left is a suffix within all bounds; nothing went that did not have to; the newest stays if it fits at all. */
  lemma {:induction false} TrimmedIs(order: seq<Entry>, limits: CacheLimits) returns (n: nat)
    ensures n <= |order| && Trimmed(order, limits) == order[n..] && !Over(order[n..], limits)
    ensures forall i :: 0 <= i < n ==> Over(order[i..], limits)
    ensures order != [] && !Over([order[|order| - 1]], limits) ==> n < |order|
  {
    if order != [] && Over(order, limits) {
      n := TrimmedIs(order[1..], limits);
      n := n + 1;
      forall i | 0 <= i < n
        ensures Over(order[i..], limits)
      {
        assert i > 0 ==> order[1..][i - 1..] == order[i..];
      }
      if |order| == 1 {
        assert order == [order[|order| - 1]];
      }
    } else {
      n := 0;
    }
  }

  function IndexOf(order: seq<Entry>, k: Key): (r: nat)
    ensures r <= |order| && (r < |order| ==> order[r].key == k) && forall i :: 0 <= i < r ==> order[i].key != k
  {
    if order == [] || order[0].key == k then 0 else 1 + IndexOf(order[1..], k)
  }

  function Without(order: seq<Entry>, k: Key): seq<Entry> {
    var i := IndexOf(order, k);
    if i < |order| then order[..i] + order[i + 1..] else order
  }

  ghost predicate DistinctKeys(order: seq<Entry>) {
    forall i, j :: 0 <= i < j < |order| ==> order[i].key != order[j].key
  }

  ghost predicate Lists(order: seq<Entry>, k: Key) {
    exists i :: 0 <= i < |order| && order[i].key == k
  }

  lemma SumsCut(a: seq<Entry>, e: Entry, b: seq<Entry>)
    ensures StepsOf(a + [e] + b) == StepsOf(a + b) + e.steps
    ensures BytesOf(a + [e] + b) == BytesOf(a + b) + Charge(e.key, e.steps)
  {
    SumsConcat(a + [e], b);
    SumsConcat(a, b);
    RenewedSums(a, e.key, e.steps);
  }

  lemma RenewedSums(order: seq<Entry>, k: Key, steps: nat)
    ensures StepsOf(order + [Entry(k, steps)]) == StepsOf(order) + steps
    ensures BytesOf(order + [Entry(k, steps)]) == BytesOf(order) + Charge(k, steps)
  {
    SumsConcat(order, [Entry(k, steps)]);
    assert [Entry(k, steps)][1..] == [];
  }

  lemma CutAt(order: seq<Entry>, i: nat)
    requires i < |order|
    ensures StepsOf(order) == StepsOf(order[..i] + order[i + 1..]) + order[i].steps
    ensures BytesOf(order) == BytesOf(order[..i] + order[i + 1..]) + Charge(order[i].key, order[i].steps)
  {
    TakenApart(order, i);
    SumsCut(order[..i], order[i], order[i + 1..]);
  }

  lemma TakenApart(order: seq<Entry>, i: nat)
    requires i < |order|
    ensures order == order[..i] + [order[i]] + order[i + 1..]
  {
  }

  lemma WithoutSums(order: seq<Entry>, k: Key)
    ensures var i, rest := IndexOf(order, k), Without(order, k);
      && StepsOf(order) == StepsOf(rest) + (if i < |order| then order[i].steps else 0)
      && BytesOf(order) == BytesOf(rest) + (if i < |order| then Charge(k, order[i].steps) else 0)
  {
    if IndexOf(order, k) < |order| {
      CutAt(order, IndexOf(order, k));
    }
  }

  lemma WithoutAt(order: seq<Entry>, i: nat)
    requires DistinctKeys(order) && i < |order|
    ensures var rest := order[..i] + order[i + 1..];
      DistinctKeys(rest) && !Lists(rest, order[i].key)
      && forall m :: 0 <= m < |rest| ==> rest[m] == order[if m < i then m else m + 1]
  {
  }

  lemma WithoutKeeps(order: seq<Entry>, i: nat, j: Key)
    requires i < |order| && Lists(order, j) && j != order[i].key
    ensures Lists(order[..i] + order[i + 1..], j)
  {
    var m :| 0 <= m < |order| && order[m].key == j;
    assert (order[..i] + order[i + 1..])[if m < i then m else m - 1] == order[m];
  }

  lemma WithoutLists(order: seq<Entry>, k: Key)
    requires DistinctKeys(order)
    ensures DistinctKeys(Without(order, k)) && !Lists(Without(order, k), k)
    ensures forall j :: j != k && Lists(order, j) ==> Lists(Without(order, k), j)
    ensures Lists(order, k) <==> IndexOf(order, k) < |order|
  {
    var i := IndexOf(order, k);
    if i < |order| {
      WithoutAt(order, i);
      forall j | j != k && Lists(order, j)
        ensures Lists(Without(order, k), j)
      {
        WithoutKeeps(order, i, j);
      }
    }
  }

  // ---- the cache --------------------------------------------------------------------------------------

  predicate Mismatched(profiles: map<Key, Profile>, k: Key, steps: nat) {
    k in profiles && |profiles[k].steps| != steps
  }

  function Prior(profiles: map<Key, Profile>, k: Key, steps: nat): Profile {
    if k in profiles then profiles[k] else EmptyProfile(steps)
  }

  /** The index lists exactly the stored profiles with their lengths. */
  ghost predicate Indexed(order: seq<Entry>, profiles: map<Key, Profile>) {
    DistinctKeys(order) && Describes(order, profiles) && forall k :: k in profiles ==> Lists(order, k)
  }

  /** Every stored profile began empty and is everything learned since it was admitted. */
  ghost predicate Explained(profiles: map<Key, Profile>, base: map<Key, Profile>, since: map<Key, seq<Run>>) {
    && base.Keys == profiles.Keys && since.Keys == profiles.Keys
    && (forall k :: k in profiles ==> profiles[k] == LearnAll(base[k], since[k]))
    && forall k :: k in base ==> base[k] == EmptyProfile(|base[k].steps|)
  }

  lemma ExplainedLess(profiles: map<Key, Profile>, base: map<Key, Profile>, since: map<Key, seq<Run>>, k: Key)
    requires Explained(profiles, base, since)
    ensures Explained(profiles - {k}, base - {k}, since - {k})
  {
  }

  lemma ExplainedMore(profiles: map<Key, Profile>, base: map<Key, Profile>, since: map<Key, seq<Run>>, k: Key, run: Run, steps: nat)
    requires Explained(profiles, base, since)
    ensures Explained(profiles[k := Learn(Prior(profiles, k, steps), run)],
                      base[k := if k in profiles then base[k] else EmptyProfile(steps)],
                      since[k := (if k in profiles then since[k] else []) + [run]])
  {
    var runs := if k in profiles then since[k] else [];
    var start := if k in profiles then base[k] else EmptyProfile(steps);
    assert (runs + [run])[..|runs|] == runs;
    assert LearnAll(start, runs) == Prior(profiles, k, steps);
  }

  lemma DroppedIndexed(order: seq<Entry>, profiles: map<Key, Profile>)
    requires Indexed(order, profiles) && order != []
    ensures Indexed(order[1..], profiles - {order[0].key})
  {
    var rest := order[1..];
    forall k | k in profiles && k != order[0].key
      ensures Lists(rest, k)
    {
      var i :| 0 <= i < |order| && order[i].key == k;
      assert rest[i - 1].key == k;
    }
  }

  /** Every entry describes its stored profile. */
  ghost predicate Describes(order: seq<Entry>, profiles: map<Key, Profile>) {
    forall i :: 0 <= i < |order| ==> order[i].key in profiles && |profiles[order[i].key].steps| == order[i].steps
  }

  lemma WithoutDescribes(order: seq<Entry>, profiles: map<Key, Profile>, k: Key)
    requires Describes(order, profiles)
    ensures Describes(Without(order, k), profiles)
  {
  }

  lemma ListsAppend(order: seq<Entry>, e: Entry, j: Key)
    ensures Lists(order, j) ==> Lists(order + [e], j)
    ensures Lists(order + [e], e.key)
  {
    if Lists(order, j) {
      var m :| 0 <= m < |order| && order[m].key == j;
      assert (order + [e])[m].key == j;
    }
    assert (order + [e])[|order|].key == e.key;
  }

  lemma DistinctAppend(order: seq<Entry>, e: Entry)
    requires DistinctKeys(order) && !Lists(order, e.key)
    ensures DistinctKeys(order + [e])
  {
  }

  lemma DescribesAppend(order: seq<Entry>, profiles: map<Key, Profile>, k: Key, p: Profile)
    requires Describes(order, profiles) && !Lists(order, k)
    ensures Describes(order + [Entry(k, |p.steps|)], profiles[k := p])
  {
  }

  /** Moving a key to the recent end with a new profile keeps the index exact. */
  lemma RenewedIndexed(order: seq<Entry>, profiles: map<Key, Profile>, k: Key, p: Profile)
    requires Indexed(order, profiles)
    ensures Indexed(Without(order, k) + [Entry(k, |p.steps|)], profiles[k := p])
  {
    var rest, e := Without(order, k), Entry(k, |p.steps|);
    WithoutLists(order, k);
    WithoutDescribes(order, profiles, k);
    DistinctAppend(rest, e);
    DescribesAppend(rest, profiles, k, p);
    forall j | j in profiles[k := p]
      ensures Lists(rest + [e], j)
    {
      ListsAppend(rest, e, j);
    }
  }

  /** The cache with its totals; `base` and `since` say where each profile came from. */
  datatype Cache = Cache(order: seq<Entry>, profiles: map<Key, Profile>, steps: int, bytes: int,
                         base: map<Key, Profile>, since: map<Key, seq<Run>>)

  ghost predicate ExactParts(c: Cache) {
    && Indexed(c.order, c.profiles) && Explained(c.profiles, c.base, c.since)
    && c.steps == StepsOf(c.order) && c.bytes == BytesOf(c.order)
  }

  ghost predicate LookAt(c: Cache) {
    true
  }

  ghost predicate Exact(c: Cache) {
    forall d {:trigger LookAt(d)} :: d == c ==> ExactParts(d)
  }

  function Touched(c: Cache, k: Key): Cache
    requires k in c.profiles
  {
    c.(order := Without(c.order, k) + [Entry(k, |c.profiles[k].steps|)])
  }

  function Remembered(c: Cache, k: Key, run: Run, steps: nat): Cache
    requires k in c.profiles ==> k in c.base && k in c.since
  {
    var i, p := IndexOf(c.order, k), Learn(Prior(c.profiles, k, steps), run);
    var previous := if i < |c.order| then c.order[i].steps else 0;
    var charged := if i < |c.order| then Charge(k, c.order[i].steps) else 0;
    Cache(Without(c.order, k) + [Entry(k, |p.steps|)], c.profiles[k := p],
          c.steps - previous + |p.steps|, c.bytes - charged + Charge(k, |p.steps|),
          c.base[k := if k in c.profiles then c.base[k] else EmptyProfile(steps)],
          c.since[k := (if k in c.profiles then c.since[k] else []) + [run]])
  }

  function Dropped(c: Cache): Cache
    requires c.order != []
  {
    var oldest := c.order[0];
    Cache(c.order[1..], c.profiles - {oldest.key}, c.steps - oldest.steps, c.bytes - Charge(oldest.key, oldest.steps),
          c.base - {oldest.key}, c.since - {oldest.key})
  }

  function TrimmedCache(c: Cache, limits: CacheLimits): Cache
    decreases |c.order|
  {
    if c.order != [] && Over(c.order, limits) then TrimmedCache(Dropped(c), limits) else c
  }

  lemma ExactFacts(c: Cache)
    requires Exact(c)
    ensures c.steps == StepsOf(c.order) && c.bytes == BytesOf(c.order) && Explained(c.profiles, c.base, c.since)
    ensures forall k :: k in c.profiles ==> IndexOf(c.order, k) < |c.order| && |c.profiles[k].steps| == c.order[IndexOf(c.order, k)].steps
  {
    assert LookAt(c);
    WithoutListsAll(c.order);
  }

  lemma WithoutListsAll(order: seq<Entry>)
    ensures forall k :: Lists(order, k) ==> IndexOf(order, k) < |order|
  {
  }

  lemma TouchedSums(order: seq<Entry>, k: Key)
    requires IndexOf(order, k) < |order|
    ensures var after := Without(order, k) + [Entry(k, order[IndexOf(order, k)].steps)];
      StepsOf(after) == StepsOf(order) && BytesOf(after) == BytesOf(order) && |after| == |order|
  {
    WithoutSums(order, k);
    RenewedSums(Without(order, k), k, order[IndexOf(order, k)].steps);
  }

  lemma TouchedIndexed(order: seq<Entry>, profiles: map<Key, Profile>, k: Key)
    requires Indexed(order, profiles) && k in profiles
    ensures Indexed(Without(order, k) + [Entry(k, |profiles[k].steps|)], profiles)
  {
    RenewedIndexed(order, profiles, k, profiles[k]);
    assert profiles[k := profiles[k]] == profiles;
  }

  lemma TouchedExact(c: Cache, k: Key)
    requires Exact(c) && k in c.profiles
    ensures Exact(Touched(c, k))
    ensures StepsOf(Touched(c, k).order) == c.steps && BytesOf(Touched(c, k).order) == c.bytes && |Touched(c, k).order| == |c.order|
  {
    ExactFacts(c);
    TouchedSums(c.order, k);
    assert Indexed(Touched(c, k).order, c.profiles) by {
      assert LookAt(c);
      TouchedIndexed(c.order, c.profiles, k);
    }
    assert ExactParts(Touched(c, k));
  }

  lemma RememberedSums(c: Cache, k: Key, run: Run, steps: nat)
    requires c.steps == StepsOf(c.order) && c.bytes == BytesOf(c.order) && (k in c.profiles ==> k in c.base && k in c.since)
    ensures var r := Remembered(c, k, run, steps); r.steps == StepsOf(r.order) && r.bytes == BytesOf(r.order)
  {
    var p := Learn(Prior(c.profiles, k, steps), run);
    WithoutSums(c.order, k);
    RenewedSums(Without(c.order, k), k, |p.steps|);
  }

  lemma RememberedExact(c: Cache, k: Key, run: Run, steps: nat)
    requires Exact(c) && (k in c.profiles ==> k in c.base && k in c.since)
    ensures Exact(Remembered(c, k, run, steps))
  {
    assert LookAt(c);
    RememberedSums(c, k, run, steps);
    RenewedIndexed(c.order, c.profiles, k, Learn(Prior(c.profiles, k, steps), run));
    ExplainedMore(c.profiles, c.base, c.since, k, run, steps);
    assert ExactParts(Remembered(c, k, run, steps));
  }

  lemma DroppedExact(c: Cache)
    requires Exact(c) && c.order != []
    ensures Exact(Dropped(c))
  {
    assert LookAt(c);
    DroppedIndexed(c.order, c.profiles);
    ExplainedLess(c.profiles, c.base, c.since, c.order[0].key);
    assert ExactParts(Dropped(c));
  }

  ghost predicate Survive<V>(after: map<Key, V>, before: map<Key, V>) {
    forall k :: k in after ==> k in before && after[k] == before[k]
  }

  /** Eviction takes the least recently used first, no more than it must, and keeps what it keeps as it was. */
  lemma {:induction false} TrimmedExact(c: Cache, limits: CacheLimits)
    requires Exact(c)
    ensures var t := TrimmedCache(c, limits);
      && Exact(t) && t.order == Trimmed(c.order, limits) && !Over(t.order, limits)
      && Survive(t.profiles, c.profiles) && Survive(t.base, c.base) && Survive(t.since, c.since) && t.profiles.Keys == t.base.Keys == t.since.Keys
    decreases |c.order|
  {
    if c.order != [] && Over(c.order, limits) {
      DroppedExact(c);
      TrimmedExact(Dropped(c), limits);
    } else {
      ExactFacts(c);
    }
  }

  /** The profile just committed is in the trimmed cache, as long as it fits alone. */
  lemma NewestStays(c: Cache, k: Key, limits: CacheLimits)
    requires Exact(c) && c.order != [] && c.order[|c.order| - 1].key == k && !Over([c.order[|c.order| - 1]], limits)
    ensures k in TrimmedCache(c, limits).profiles
  {
    TrimmedExact(c, limits);
    var t := TrimmedCache(c, limits);
    var n := TrimmedIs(c.order, limits);
    assert t.order[|t.order| - 1].key == k;
    ListedIsKept(t, |t.order| - 1);
  }

  lemma ListedIsKept(c: Cache, i: nat)
    requires Exact(c) && i < |c.order|
    ensures c.order[i].key in c.profiles
  {
    assert LookAt(c);
  }

  // ---- contributions -----------------------------------------------------------------------------------

  /** Runs of one key on their way to the store, with the capacity the lane reserved for them. */
  datatype Delta = Delta(key: Key, profile: Profile, reservation: nat)

  function ChargeOf(): Delta -> nat { (d: Delta) => Charge(d.key, |d.profile.steps|) }
  function RunsOf(): Delta -> nat { (d: Delta) => d.profile.runs }

  datatype PendingLimits = PendingLimits(profiles: nat, bytes: nat, batchBytes: nat)

  /** Deltas that wait in memory and counters of what became of all runs; `contributed` counts every run offered. */
  datatype Ledger = Ledger(pending: map<Key, Delta>, bytes: int, inflight: int, acknowledged: nat, lost: nat, contributed: nat)

  /** `out` are the deltas handed to the lane whose callbacks were not called yet, by the number of their handoff. */
  datatype Account = Account(ledger: Ledger, out: map<nat, Delta>)

  /** Contributions are pending, in flight, acknowledged or lost; bytes and counts are exact and within the limits. */
  ghost predicate ConservedParts(a: Account, limits: PendingLimits) {
    var l := a.ledger;
    && l.contributed == Total(l.pending, RunsOf()) + Total(a.out, RunsOf()) + l.acknowledged + l.lost
    && l.bytes == Total(l.pending, ChargeOf()) + Total(a.out, ChargeOf()) <= limits.bytes
    && l.inflight == |a.out.Keys| && |l.pending.Keys| + |a.out.Keys| <= limits.profiles
    && forall k :: k in l.pending ==> l.pending[k].key == k && k.TimingKey? && |l.pending[k].profile.steps| == k.stepCount
  }

  ghost predicate Look(a: Account) {
    true
  }

  ghost predicate Conserved(a: Account, limits: PendingLimits) {
    forall b {:trigger Look(b)} :: b == a ==> ConservedParts(b, limits)
  }

  const NOTHING := Account(Ledger(map[], 0, 0, 0, 0, 0), map[])

  lemma NothingConserved(limits: PendingLimits)
    ensures Conserved(NOTHING, limits)
  {
    TotalZero(NOTHING.ledger.pending, ChargeOf());
    TotalZero(NOTHING.ledger.pending, RunsOf());
    TotalZero(NOTHING.out, ChargeOf());
    TotalZero(NOTHING.out, RunsOf());
    assert ConservedParts(NOTHING, limits);
  }

  predicate HasRoom(l: Ledger, k: Key, limits: PendingLimits)
    requires k.TimingKey?
  {
    |l.pending.Keys| + l.inflight < limits.profiles && l.bytes + k.charge <= limits.bytes && k.charge <= limits.batchBytes
  }

  /** A new empty delta, charged. */
  function Opened(l: Ledger, k: Key, reservation: nat): Ledger
    requires k.TimingKey?
  {
    l.(pending := l.pending[k := Delta(k, EmptyProfile(k.stepCount), reservation)], bytes := l.bytes + k.charge)
  }

  function Learned(l: Ledger, k: Key, run: Run): Ledger
    requires k in l.pending
  {
    l.(pending := l.pending[k := l.pending[k].(profile := Learn(l.pending[k].profile, run))], contributed := l.contributed + 1)
  }

  /** A run nobody could take. */
  function Missed(l: Ledger): Ledger {
    l.(lost := l.lost + 1, contributed := l.contributed + 1)
  }

  /** `_contribute` while a database is attached; `granted` is its answer to the cache reservation, if one is asked for. */
  function Contributed(l: Ledger, k: Key, run: Run, granted: Option<nat>, limits: PendingLimits): Ledger
    requires k.TimingKey?
  {
    if k in l.pending then Learned(l, k, run)
    else if HasRoom(l, k, limits) && granted.Some? then Learned(Opened(l, k, granted.value), k, run)
    else Missed(l)
  }

  /** The account after a contribution. */
  function Took(a: Account, k: Key, run: Run, granted: Option<nat>, limits: PendingLimits): Account
    requires k.TimingKey?
  {
    a.(ledger := Contributed(a.ledger, k, run, granted, limits))
  }

  /** The delta leaves memory; its charge stays until its callback is called. */
  function HandedOff(l: Ledger, k: Key): Ledger
    requires k in l.pending
  {
    l.(pending := l.pending - {k}, inflight := l.inflight + 1)
  }

  /** The acknowledgement callback: all it knows is the charge and the number of runs of its delta. */
  function Acknowledged(l: Ledger, charge: nat, count: nat, committed: bool): Ledger {
    l.(inflight := l.inflight - 1, bytes := l.bytes - charge,
       acknowledged := l.acknowledged + (if committed then count else 0),
       lost := l.lost + (if committed then 0 else count))
  }

  lemma OpenedConserved(a: Account, k: Key, reservation: nat, limits: PendingLimits)
    requires Conserved(a, limits) && k.TimingKey? && k !in a.ledger.pending && HasRoom(a.ledger, k, limits)
    ensures Conserved(a.(ledger := Opened(a.ledger, k, reservation)), limits)
  {
    assert Look(a);
    var l, d := a.ledger, Delta(k, EmptyProfile(k.stepCount), reservation);
    TotalPut(l.pending, ChargeOf(), k, d);
    TotalPut(l.pending, RunsOf(), k, d);
    RowsPut(l.pending, k, d);
    assert ConservedParts(a.(ledger := Opened(l, k, reservation)), limits);
  }

  lemma LearnedConserved(a: Account, k: Key, run: Run, limits: PendingLimits)
    requires Conserved(a, limits) && k in a.ledger.pending
    ensures Conserved(a.(ledger := Learned(a.ledger, k, run)), limits)
  {
    assert Look(a);
    var l := a.ledger;
    var d := l.pending[k].(profile := Learn(l.pending[k].profile, run));
    TotalPut(l.pending, ChargeOf(), k, d);
    TotalPut(l.pending, RunsOf(), k, d);
    RowsPut(l.pending, k, d);
    assert ConservedParts(a.(ledger := Learned(l, k, run)), limits);
  }

  lemma MissedConserved(a: Account, limits: PendingLimits)
    requires Conserved(a, limits)
    ensures Conserved(a.(ledger := Missed(a.ledger)), limits)
  {
    assert Look(a);
    assert ConservedParts(a.(ledger := Missed(a.ledger)), limits);
  }

  /** Whether a run is taken into a delta, opens one, or is lost, it is counted once. */
  lemma ContributedConserved(a: Account, k: Key, run: Run, granted: Option<nat>, limits: PendingLimits)
    requires Conserved(a, limits) && k.TimingKey?
    ensures Conserved(a.(ledger := Contributed(a.ledger, k, run, granted, limits)), limits)
    ensures Contributed(a.ledger, k, run, granted, limits).contributed == a.ledger.contributed + 1
  {
    if k in a.ledger.pending {
      LearnedConserved(a, k, run, limits);
    } else if HasRoom(a.ledger, k, limits) && granted.Some? {
      OpenedConserved(a, k, granted.value, limits);
      LearnedConserved(a.(ledger := Opened(a.ledger, k, granted.value)), k, run, limits);
    } else {
      MissedConserved(a, limits);
    }
  }

  lemma HandedOffConserved(a: Account, k: Key, n: nat, limits: PendingLimits)
    requires Conserved(a, limits) && k in a.ledger.pending && n !in a.out
    ensures Conserved(Account(HandedOff(a.ledger, k), a.out[n := a.ledger.pending[k]]), limits)
  {
    assert Look(a);
    var l, d := a.ledger, a.ledger.pending[k];
    TotalRemove(l.pending, ChargeOf(), k);
    TotalRemove(l.pending, RunsOf(), k);
    RowsRemove(l.pending, k);
    TotalPut(a.out, ChargeOf(), n, d);
    TotalPut(a.out, RunsOf(), n, d);
    RowsPut(a.out, n, d);
    assert ConservedParts(Account(HandedOff(l, k), a.out[n := d]), limits);
  }

  /** The callback of an outstanding handoff settles exactly its charge and its runs. */
  lemma AcknowledgedConserved(a: Account, n: nat, committed: bool, limits: PendingLimits)
    requires Conserved(a, limits) && n in a.out
    ensures Conserved(Account(Acknowledged(a.ledger, ChargeOf()(a.out[n]), RunsOf()(a.out[n]), committed), a.out - {n}), limits)
  {
    assert Look(a);
    TotalRemove(a.out, ChargeOf(), n);
    TotalRemove(a.out, RunsOf(), n);
    RowsRemove(a.out, n);
    assert ConservedParts(Account(Acknowledged(a.ledger, ChargeOf()(a.out[n]), RunsOf()(a.out[n]), committed), a.out - {n}), limits);
  }

  /** One pending delta is handed to the lane under the number it answers, or acknowledged as lost when the handoff raises. */
  function Drained1(a: Account, k: Key, answer: Option<nat>): Account
    requires k in a.ledger.pending
  {
    var l, d := HandedOff(a.ledger, k), a.ledger.pending[k];
    if answer.Some? then Account(l, a.out[answer.value := d])
    else Account(Acknowledged(l, ChargeOf()(d), RunsOf()(d), false), a.out)
  }

  lemma Drained1Conserved(a: Account, k: Key, answer: Option<nat>, limits: PendingLimits)
    requires Conserved(a, limits) && k in a.ledger.pending && (answer.Some? ==> answer.value !in a.out)
    ensures Conserved(Drained1(a, k, answer), limits)
    ensures Drained1(a, k, answer).ledger.pending == a.ledger.pending - {k}
    ensures Drained1(a, k, answer).ledger.contributed == a.ledger.contributed
  {
    if answer.Some? {
      HandedOffConserved(a, k, answer.value, limits);
    } else {
      assert Look(a);
      TotalRemove(a.ledger.pending, ChargeOf(), k);
      TotalRemove(a.ledger.pending, RunsOf(), k);
      RowsRemove(a.ledger.pending, k);
      assert ConservedParts(Drained1(a, k, answer), limits);
    }
  }

  function Drained(a: Account, order: seq<Key>, answers: Key -> Option<nat>): Account {
    if order == [] then a
    else
      var k, before := order[|order| - 1], Drained(a, order[..|order| - 1], answers);
      if k in before.ledger.pending then Drained1(before, k, answers(k)) else before
  }

  /** The numbers the lane answers are new and differ from key to key. */
  ghost predicate NewNumbers(a: Account, answers: Key -> Option<nat>) {
    && (forall k :: k in a.ledger.pending && answers(k).Some? ==> answers(k).value !in a.out)
    && forall j, k :: j in a.ledger.pending && k in a.ledger.pending && answers(j).Some? && answers(j) == answers(k) ==> j == k
  }

  ghost predicate Submap(t: map<Key, Delta>, s: map<Key, Delta>) {
    forall k :: k in t ==> k in s && t[k] == s[k]
  }

  /** Every delta the lane took is out under the number the lane gave it, and nothing else came. */
  ghost predicate HandedOver(drained: map<Key, Delta>, before: map<nat, Delta>, after: map<nat, Delta>, answers: Key -> Option<nat>) {
    && (forall n :: n in before ==> n in after && after[n] == before[n])
    && (forall k :: k in drained && answers(k).Some? ==> answers(k).value in after && after[answers(k).value] == drained[k])
    && forall n :: n in after && n !in before ==> exists k :: k in drained && answers(k) == Some(n)
  }

  lemma HandedOne(whole: map<Key, Delta>, pending: map<Key, Delta>, before: map<nat, Delta>, out: map<nat, Delta>,
                  answers: Key -> Option<nat>, k: Key)
    requires HandedOver(whole - pending.Keys, before, out, answers) && Submap(pending, whole) && k in pending
    requires answers(k).Some? ==> answers(k).value !in out
    ensures HandedOver(whole - (pending - {k}).Keys, before, if answers(k).Some? then out[answers(k).value := pending[k]] else out, answers)
  {
    var drained, more := whole - pending.Keys, whole - (pending - {k}).Keys;
    var after := if answers(k).Some? then out[answers(k).value := pending[k]] else out;
    assert more.Keys == drained.Keys + {k};
    forall n | n in after && n !in before
      ensures exists j :: j in more && answers(j) == Some(n)
    {
      if n in out {
        var j :| j in drained && answers(j) == Some(n);
        assert j in more;
      } else {
        assert k in more;
      }
    }
  }

  /** Where a drain is after the deltas of `order`. */
  ghost predicate Draining(before: Account, a: Account, order: seq<Key>, answers: Key -> Option<nat>, limits: PendingLimits) {
    && a == Drained(before, order, answers) && Conserved(a, limits) && NewNumbers(a, answers)
    && a.ledger.acknowledged == before.ledger.acknowledged && a.ledger.contributed == before.ledger.contributed
    && Submap(a.ledger.pending, before.ledger.pending)
    && HandedOver(before.ledger.pending - a.ledger.pending.Keys, before.out, a.out, answers)
  }

  lemma DrainStarts(a: Account, answers: Key -> Option<nat>, limits: PendingLimits)
    requires Conserved(a, limits) && NewNumbers(a, answers)
    ensures Draining(a, a, [], answers, limits) && Drained(a, [], answers) == a
  {
  }

  lemma DrainRound(before: Account, a: Account, order: seq<Key>, answers: Key -> Option<nat>, k: Key, limits: PendingLimits)
    requires Draining(before, a, order, answers, limits) && k in a.ledger.pending
    ensures Draining(before, Drained1(a, k, answers(k)), order + [k], answers, limits)
    ensures |Drained1(a, k, answers(k)).ledger.pending.Keys| < |a.ledger.pending.Keys|
  {
    hide Conserved, HandedOver;
    HandedOne(before.ledger.pending, a.ledger.pending, before.out, a.out, answers, k);
    Drained1Conserved(a, k, answers(k), limits);
    Drained1NewNumbers(a, k, answers);
    RowsRemove(a.ledger.pending, k);
    assert (order + [k])[..|order|] == order;
  }

  lemma DrainEnds(before: Account, a: Account, order: seq<Key>, answers: Key -> Option<nat>, limits: PendingLimits)
    requires Draining(before, a, order, answers, limits) && a.ledger.pending == map[]
    ensures a == Drained(before, order, answers) && Conserved(a, limits)
    ensures a.ledger.acknowledged == before.ledger.acknowledged && a.ledger.contributed == before.ledger.contributed
    ensures HandedOver(before.ledger.pending, before.out, a.out, answers)
  {
    assert before.ledger.pending - a.ledger.pending.Keys == before.ledger.pending;
  }

  lemma Drained1NewNumbers(a: Account, k: Key, answers: Key -> Option<nat>)
    requires k in a.ledger.pending && NewNumbers(a, answers)
    ensures NewNumbers(Drained1(a, k, answers(k)), answers)
  {
  }

  /** A drain moves every run from pending to in flight or lost, and forgets none. */
  lemma {:induction false} DrainedConserved(a: Account, order: seq<Key>, answers: Key -> Option<nat>, limits: PendingLimits)
    requires Conserved(a, limits) && NewNumbers(a, answers)
    ensures var b := Drained(a, order, answers);
      && Conserved(b, limits) && NewNumbers(b, answers) && b.ledger.contributed == a.ledger.contributed
      && b.ledger.pending == a.ledger.pending - set i | 0 <= i < |order| :: order[i]
  {
    hide Conserved, Drained1;
    if order != [] {
      var n := |order| - 1;
      DrainedConserved(a, order[..n], answers, limits);
      OneMoreOf(order, order[..n]);
      var before := Drained(a, order[..n], answers);
      if order[n] in before.ledger.pending {
        Drained1Conserved(before, order[n], answers(order[n]), limits);
        Drained1NewNumbers(before, order[n], answers);
      }
      assert Drained(a, order, answers).ledger.pending == before.ledger.pending - {order[n]};
    }
  }

  lemma OneMoreOf(order: seq<Key>, init: seq<Key>)
    requires order != [] && init == order[..|order| - 1]
    ensures (set i | 0 <= i < |order| :: order[i]) == (set i | 0 <= i < |init| :: init[i]) + {order[|order| - 1]}
  {
  }

  // ---- reports ---------------------------------------------------------------------------------------------

  datatype Report = Report(context: int, step: int, iteration: int, state: StepState, duration: real)

  /** One context, known steps, no step twice in an iteration, no negative duration. */
  ghost predicate SaneReports(reports: seq<Report>, steps: nat, iteration: Option<int>) {
    && (forall i :: 0 <= i < |reports| ==>
          var r := reports[i];
          && r.context >= 0 && 0 <= r.step < steps && r.iteration >= 1 && (iteration.Some? ==> r.iteration == iteration.value)
          && r.duration >= 0.0 && r.context == reports[0].context)
    && (forall i, j :: 0 <= i < j < |reports| ==>
          reports[i].step != reports[j].step || reports[i].iteration != reports[j].iteration)
  }

  function ObservationOf(r: Report): Observation
    requires r.step >= 0
  {
    Observation(r.step, r.state, r.duration)
  }

  /** A report is sane by itself and belongs to the context of the first. */
  ghost predicate SaneAt(reports: seq<Report>, i: nat, steps: nat, iteration: Option<int>)
    requires i < |reports|
  {
    var r := reports[i];
    && r.context >= 0 && 0 <= r.step < steps && r.iteration >= 1 && (iteration.Some? ==> r.iteration == iteration.value)
    && r.duration >= 0.0 && r.context == reports[0].context
  }

  ghost predicate Repeats(reports: seq<Report>, i: nat)
    requires i < |reports|
  {
    exists j :: 0 <= j < i && reports[j].step == reports[i].step && reports[j].iteration == reports[i].iteration
  }

  lemma SaneMore(reports: seq<Report>, i: nat, steps: nat, iteration: Option<int>)
    requires i < |reports|
    ensures SaneReports(reports[..i + 1], steps, iteration) <==>
              SaneReports(reports[..i], steps, iteration) && SaneAt(reports, i, steps, iteration) && !Repeats(reports, i)
  {
    assert reports[..i + 1][i] == reports[i];
    assert forall j :: 0 <= j < i ==> reports[..i + 1][j] == reports[..i][j] == reports[j];
  }

  lemma SanePrefix(reports: seq<Report>, i: nat, steps: nat, iteration: Option<int>)
    requires i <= |reports| && SaneReports(reports, steps, iteration)
    ensures SaneReports(reports[..i], steps, iteration)
  {
  }

  /** `_observations`: the whole batch is validated before anything is learned from it. */
  method Observations(reports: seq<Report>, steps: nat, iteration: Option<int>) returns (r: Result<seq<Observation>>)
    ensures r.Success? <==> SaneReports(reports, steps, iteration)
    ensures r.Success? ==> |r.value| == |reports| && forall i :: 0 <= i < |reports| ==> reports[i].step >= 0 && r.value[i] == ObservationOf(reports[i])
    ensures r.Success? ==> forall i :: 0 <= i < |r.value| ==> r.value[i].step < steps && r.value[i].duration >= 0.0
  {
    hide SaneReports;
    var observations: seq<Observation> := [];
    var identities: set<(int, int)> := {};
    assert SaneReports(reports[..0], steps, iteration) by { NoneIsSane(steps, iteration); }
    for i := 0 to |reports|
      invariant |observations| == i && SaneReports(reports[..i], steps, iteration)
      invariant forall j :: 0 <= j < i ==> 0 <= reports[j].step < steps && reports[j].duration >= 0.0
      invariant forall j :: 0 <= j < i ==> observations[j] == ObservationOf(reports[j])
      invariant forall id :: id in identities <==> exists j :: 0 <= j < i && (reports[j].iteration, reports[j].step) == id
    {
      var report := reports[i];
      var identity := (report.iteration, report.step);
      SaneMore(reports, i, steps, iteration);
      if report.context < 0 || report.context != reports[0].context || report.step < 0 || report.step >= steps
         || report.iteration < 1 || (iteration.Some? && report.iteration != iteration.value) || report.duration < 0.0
         || identity in identities {
        Unsane(reports, i + 1, steps, iteration);
        return Failure(Contract);
      }
      identities := identities + {identity};
      observations := observations + [ObservationOf(report)];
    }
    assert reports[..|reports|] == reports;
    r := Success(observations);
  }

  lemma NoneIsSane(steps: nat, iteration: Option<int>)
    ensures SaneReports([], steps, iteration)
  {
  }

  lemma Unsane(reports: seq<Report>, i: nat, steps: nat, iteration: Option<int>)
    requires i <= |reports| && !SaneReports(reports[..i], steps, iteration)
    ensures !SaneReports(reports, steps, iteration)
  {
    hide SaneReports;
    if SaneReports(reports, steps, iteration) {
      SanePrefix(reports, i, steps, iteration);
    }
  }

  /** After a commit the profile is the newest in the index and equals the fold of all it learned since admission. */
  ghost predicate Kept(before: Cache, after: Cache, k: Key, steps: nat, run: Run, profile: Profile, limits: CacheLimits) {
    && after.order == Trimmed(Without(before.order, k) + [Entry(k, steps)], limits)
    && k in after.profiles && after.profiles[k] == profile
    && k in after.since && k in after.base && profile == LearnAll(after.base[k], after.since[k])
    && (k in before.profiles ==>
          && k in before.since && after.since[k] == before.since[k] + [run]
          && k in before.base && after.base[k] == before.base[k])
    && (k !in before.profiles ==> after.since[k] == [run] && after.base[k] == EmptyProfile(steps))
    && forall j :: j in after.profiles && j != k ==>
         && j in before.profiles && after.profiles[j] == before.profiles[j]
         && j in after.since && j in before.since && after.since[j] == before.since[j]
  }

  /** All the runs the cached profiles learned since they were admitted were valid. */
  ghost predicate AllTaught(c: Cache) {
    forall k :: k in c.profiles && k in c.since ==> ValidRuns(c.since[k], |c.profiles[k].steps|)
  }

  /** A cached profile is the profile of the runs it learned since it was admitted. */
  lemma CachedProfile(c: Cache, k: Key)
    requires Exact(c) && AllTaught(c) && k in c.profiles
    ensures k in c.since && ProfileOf(c.profiles[k], c.since[k]) && ValidProfile(c.profiles[k])
  {
    ExactFacts(c);
    assert c.base[k] == EmptyProfile(|c.profiles[k].steps|);
    LearnedProfile(|c.profiles[k].steps|, c.since[k]);
    OfIsValid(c.profiles[k], c.since[k]);
  }

  lemma OfIsValid(p: Profile, runs: seq<Run>)
    requires ProfileOf(p, runs)
    ensures ValidProfile(p)
  {
  }

  /** A commit learns exactly its run, and what is cached afterwards was taught by valid runs again. */
  lemma CommitTeaches(before: Cache, after: Cache, k: Key, steps: nat, run: Run, limits: CacheLimits)
    requires Exact(before) && Exact(after) && AllTaught(before) && ValidRun(run, steps) && !Mismatched(before.profiles, k, steps)
    requires after == before || Kept(before, after, k, steps, run, Learn(Prior(before.profiles, k, steps), run), limits)
    ensures AllTaught(after)
    ensures HasLearned(Prior(before.profiles, k, steps), Learn(Prior(before.profiles, k, steps), run), [run])
  {
    hide Exact, HasLearned, ProfileOf;
    if k in before.profiles {
      CachedProfile(before, k);
    }
    RunAdds(Prior(before.profiles, k, steps), run);
    if after != before {
      KeptTaught(before, after, k, steps, run, limits);
    }
  }

  lemma KeptTaught(before: Cache, after: Cache, k: Key, steps: nat, run: Run, limits: CacheLimits)
    requires AllTaught(before) && ValidRun(run, steps) && !Mismatched(before.profiles, k, steps)
    requires Kept(before, after, k, steps, run, Learn(Prior(before.profiles, k, steps), run), limits)
    ensures AllTaught(after)
  {
    hide ValidRun, Learn;
    forall j | j in after.profiles && j in after.since
      ensures ValidRuns(after.since[j], |after.profiles[j].steps|)
    {
      if j != k {
        assert after.since[j] == before.since[j];
      }
    }
  }

  /** The reports on one step. */
  function ReportSamples(reports: seq<Report>, step: int): seq<Sample> {
    if reports == [] then []
    else
      var last := reports[|reports| - 1];
      ReportSamples(reports[..|reports| - 1], step) + if last.step == step then [Sample(last.state, last.duration)] else []
  }

  /** `after` is `before` and one more run: the reports of each step, and the wall time if there is one. */
  ghost predicate LearnsReports(before: Profile, after: Profile, reports: seq<Report>, graphSeconds: Option<real>) {
    && |after.steps| == |before.steps| && after.runs == before.runs + 1
    && (forall i :: 0 <= i < |after.steps| ==> Adds(before.steps[i], after.steps[i], ReportSamples(reports, i)))
    && Adds(before.graph, after.graph, if graphSeconds.Some? then [Sample(Completed, graphSeconds.value)] else [])
  }

  lemma {:induction false} SamplesOfReports(reports: seq<Report>, observations: seq<Observation>, step: nat)
    requires |observations| == |reports|
    requires forall i :: 0 <= i < |reports| ==> reports[i].step >= 0 && observations[i] == ObservationOf(reports[i])
    ensures StepSamples(observations, step) == ReportSamples(reports, step)
  {
    if reports != [] {
      SamplesOfReports(reports[..|reports| - 1], observations[..|reports| - 1], step);
    }
  }

  lemma ReportsLearned(c: Cache, k: Key, steps: nat, reports: seq<Report>, observations: seq<Observation>, graphSeconds: Option<real>)
    requires |observations| == |reports|
    requires forall i :: 0 <= i < |reports| ==> reports[i].step >= 0 && observations[i] == ObservationOf(reports[i])
    ensures var before, run := Prior(c.profiles, k, steps), Run(observations, graphSeconds);
      HasLearned(before, Learn(before, run), [run]) ==> LearnsReports(before, Learn(before, run), reports, graphSeconds)
  {
    hide Adds, Learn;
    var run := Run(observations, graphSeconds);
    assert [run][..0] == [];
    forall i: nat
      ensures RunSamples([run], i) == ReportSamples(reports, i)
    {
      SamplesOfReports(reports, observations, i);
      assert RunSamples([run], i) == [] + StepSamples(observations, i);
    }
    assert GraphSamples([run]) == if graphSeconds.Some? then [Sample(Completed, graphSeconds.value)] else [];
  }

  ghost predicate Reported(reports: seq<Report>, step: int) {
    exists i :: 0 <= i < |reports| && reports[i].step == step
  }

  /** Every step is reported. */
  ghost predicate Covers(reports: seq<Report>, steps: nat) {
    forall step: nat :: step < steps ==> Reported(reports, step)
  }

  /** The steps below `n`. */
  function StepSet(n: nat): (steps: set<nat>)
    ensures forall i: nat :: i in steps <==> i < n
  {
    if n == 0 then {} else StepSet(n - 1) + {n - 1}
  }

  lemma SeenSteps(reports: seq<Report>, observations: seq<Observation>, steps: nat)
    requires |observations| == |reports|
    requires forall i :: 0 <= i < |reports| ==> 0 <= reports[i].step < steps && observations[i] == ObservationOf(reports[i])
    ensures (set o | o in observations :: o.step) == StepSet(steps) <==> Covers(reports, steps)
  {
    var seen := set o | o in observations :: o.step;
    forall step: nat
      ensures step in seen <==> Reported(reports, step)
    {
      if Reported(reports, step) {
        var i :| 0 <= i < |reports| && reports[i].step == step;
        assert observations[i] in observations;
      }
    }
  }

  lemma {:induction false} NoneReported(reports: seq<Report>, step: int)
    requires forall i :: 0 <= i < |reports| ==> reports[i].step != step
    ensures ReportSamples(reports, step) == []
  {
    if reports != [] {
      NoneReported(reports[..|reports| - 1], step);
    }
  }

  lemma {:induction false} ReportedOnce(reports: seq<Report>, step: int, j: nat)
    requires j < |reports| && reports[j].step == step && forall i :: 0 <= i < |reports| && i != j ==> reports[i].step != step
    ensures |ReportSamples(reports, step)| == 1
  {
    if j == |reports| - 1 {
      NoneReported(reports[..j], step);
    } else {
      ReportedOnce(reports[..|reports| - 1], step, j);
    }
  }

  lemma OncePerStep(reports: seq<Report>, steps: nat, iteration: int)
    requires SaneReports(reports, steps, Some(iteration)) && Covers(reports, steps)
    ensures forall step: nat :: step < steps ==> |ReportSamples(reports, step)| == 1
  {
    forall step: nat | step < steps
      ensures |ReportSamples(reports, step)| == 1
    {
      assert Reported(reports, step);
      var j :| 0 <= j < |reports| && reports[j].step == step;
      ReportedOnce(reports, step, j);
    }
  }

  /** The profile is kept as the newest one; others are as they were, or evicted. */
  lemma StoredKept(before: Cache, k: Key, run: Run, steps: nat, limits: CacheLimits)
    requires Exact(before) && (k in before.profiles ==> k in before.base && k in before.since) && !Mismatched(before.profiles, k, steps)
    requires steps <= limits.steps && Charge(k, steps) <= limits.bytes && limits.profiles >= 1
    ensures var after := TrimmedCache(Remembered(before, k, run, steps), limits);
      && Exact(after) && !Over(after.order, limits)
      && Kept(before, after, k, steps, run, Learn(Prior(before.profiles, k, steps), run), limits)
  {
    hide Exact, TrimmedCache, Over, Kept, Explained, Survive, Without, IndexOf, Trimmed, Charge;
    var c := Remembered(before, k, run, steps);
    RememberedExact(before, k, run, steps);
    FitsAlone(k, steps, limits);
    NewestStays(c, k, limits);
    TrimmedExact(c, limits);
    ExactFacts(TrimmedCache(c, limits));
    SurvivorsKept(before, c, TrimmedCache(c, limits), k, run, steps, limits);
  }

  lemma SurvivorsKept(before: Cache, c: Cache, after: Cache, k: Key, run: Run, steps: nat, limits: CacheLimits)
    requires k in before.profiles ==> k in before.base && k in before.since
    requires c.order == Without(before.order, k) + [Entry(k, steps)] && after.order == Trimmed(c.order, limits)
    requires c.profiles == before.profiles[k := Learn(Prior(before.profiles, k, steps), run)]
    requires c.base == before.base[k := if k in before.profiles then before.base[k] else EmptyProfile(steps)]
    requires c.since == before.since[k := (if k in before.profiles then before.since[k] else []) + [run]]
    requires Survive(after.profiles, c.profiles) && Survive(after.base, c.base) && Survive(after.since, c.since)
    requires after.profiles.Keys == after.base.Keys == after.since.Keys && k in after.profiles && Explained(after.profiles, after.base, after.since)
    ensures Kept(before, after, k, steps, run, Learn(Prior(before.profiles, k, steps), run), limits)
  {
    hide Without, Trimmed, LearnAll, Learn;
  }

  lemma FitsAlone(k: Key, steps: nat, limits: CacheLimits)
    requires steps <= limits.steps && Charge(k, steps) <= limits.bytes && limits.profiles >= 1
    ensures !Over([Entry(k, steps)], limits)
  {
    RenewedSums([], k, steps);
    assert [] + [Entry(k, steps)] == [Entry(k, steps)];
  }

  class History {
    const enabled: bool
    const limits: CacheLimits
    const bounds: PendingLimits
    var recency: seq<Entry>
    var profiles: map<Key, Profile>
    var retainedSteps: int
    var retainedBytes: int
    var attached: bool
    var pending: map<Key, Delta>
    var pendingBytes: int
    var inflight: int
    var acknowledged: nat
    var lost: nat
    /** What each cached profile started from and has learned since; for the contracts only. */
    ghost var base: map<Key, Profile>
    ghost var since: map<Key, seq<Run>>
    ghost var contributed: nat
    /** The handoffs whose callbacks the lane still owes; for the contracts only. */
    ghost var out: map<nat, Delta>

    ghost function View(): Cache
      reads this
    {
      Cache(recency, profiles, retainedSteps, retainedBytes, base, since)
    }

    ghost function Books(): Account
      reads this
    {
      Account(Ledger(pending, pendingBytes, inflight, acknowledged, lost, contributed), out)
    }

    ghost predicate Valid()
      reads this
    {
      && limits.profiles >= 1 && Exact(View()) && Conserved(Books(), bounds)
      && |recency| <= limits.profiles && StepsOf(recency) <= limits.steps && BytesOf(recency) <= limits.bytes
    }

    /** Every run that is still remembered was a valid one; then every profile is that of its runs by `CachedProfile`. */
    ghost predicate Taught()
      reads this
    {
      AllTaught(View())
    }

    constructor (enabled: bool, limits: CacheLimits, bounds: PendingLimits)
      requires limits.profiles >= 1 && limits.steps >= 1 && limits.bytes >= 1
      ensures Valid() && recency == [] && !attached && Taught()
      ensures this.enabled == enabled && this.limits == limits && this.bounds == bounds
    {
      this.enabled, this.limits, this.bounds := enabled, limits, bounds;
      recency, profiles, retainedSteps, retainedBytes := [], map[], 0, 0;
      attached, pending, pendingBytes, inflight, out := false, map[], 0, 0, map[];
      acknowledged, lost, contributed, base, since := 0, 0, 0, map[], map[];
      new;
      assert ExactParts(View());
      NothingConserved(bounds);
    }

    // ---- the cache -------------------------------------------------------------------------------

    /** `_touch`: a profile that was read is the most recently used. */
    method Touch(k: Key)
      requires Exact(View()) && k in profiles
      modifies this`recency
      ensures View() == Touched(old(View()), k) && Exact(View())
    {
      TouchedExact(View(), k);
      ExactFacts(View());
      recency := Without(recency, k) + [recency[IndexOf(recency, k)]];
    }

    /** `_remember`: store the profile as the most recently used one. */
    method Remember(k: Key, p: Profile, ghost run: Run, steps: nat)
      requires Exact(View()) && p == Learn(Prior(profiles, k, steps), run) && (k in profiles ==> k in base && k in since)
      modifies this`recency, this`retainedSteps, this`retainedBytes, this`profiles, this`base, this`since
      ensures View() == Remembered(old(View()), k, run, steps) && Exact(View())
    {
      hide Exact, Explained, Without;
      ghost var c := View();
      RememberedExact(c, k, run, steps);
      Set(k, p, run, steps);
      var i := IndexOf(recency, k);
      if i < |recency| {
        retainedSteps, retainedBytes := retainedSteps - recency[i].steps, retainedBytes - Charge(k, recency[i].steps);
      }
      recency := Without(recency, k) + [Entry(k, |p.steps|)];
      retainedSteps, retainedBytes := retainedSteps + |p.steps|, retainedBytes + Charge(k, |p.steps|);
      assert View() == Remembered(c, k, run, steps);
    }

    method Set(k: Key, p: Profile, ghost run: Run, steps: nat)
      requires k in profiles ==> k in base && k in since
      modifies this`profiles, this`base, this`since
      ensures profiles == old(profiles)[k := p]
      ensures base == old(base)[k := if k in old(profiles) then old(base)[k] else EmptyProfile(steps)]
      ensures since == old(since)[k := (if k in old(profiles) then old(since)[k] else []) + [run]]
    {
      base := base[k := if k in profiles then base[k] else EmptyProfile(steps)];
      since := since[k := (if k in profiles then since[k] else []) + [run]];
      profiles := profiles[k := p];
    }

    /** `_trim`: evict the least recently used profiles until every bound holds. */
    method Trim()
      requires Exact(View())
      modifies this`recency, this`retainedSteps, this`retainedBytes, this`profiles, this`base, this`since
      ensures View() == TrimmedCache(old(View()), limits)
    {
      ghost var c := View();
      ExactFacts(c);
      while |recency| > limits.profiles || retainedSteps > limits.steps || retainedBytes > limits.bytes
        invariant c == View() && Exact(c) && TrimmedCache(c, limits) == TrimmedCache(old(View()), limits)
        invariant retainedSteps == StepsOf(recency) && retainedBytes == BytesOf(recency)
        decreases |recency|
      {
        DroppedExact(c);
        DropOldest();
        c := View();
        ExactFacts(c);
      }
    }

    method DropOldest()
      requires recency != []
      modifies this`recency, this`retainedSteps, this`retainedBytes, this`profiles, this`base, this`since
      ensures View() == Dropped(old(View()))
    {
      var oldest := recency[0];
      recency := recency[1..];
      retainedSteps, retainedBytes := retainedSteps - oldest.steps, retainedBytes - Charge(oldest.key, oldest.steps);
      profiles := profiles - {oldest.key};
      base, since := base - {oldest.key}, since - {oldest.key};
    }

    /** `profile_for`: the stored profile, marked as used, or empty estimates. */
    method ProfileFor(scope: Option<Key>, steps: nat) returns (r: Result<Profile>)
      requires Valid()
      modifies this`recency
      ensures Valid()
      ensures enabled && scope.Some? && scope.value in profiles ==>
                if |profiles[scope.value].steps| == steps
                then r == Success(profiles[scope.value]) && recency == Without(old(recency), scope.value) + [Entry(scope.value, steps)]
                else r == Failure(Contract) && recency == old(recency)
      ensures !(enabled && scope.Some? && scope.value in profiles) ==> r == Success(EmptyProfile(steps)) && recency == old(recency)
    {
      if !enabled || scope.None? || scope.value !in profiles {
        return Success(EmptyProfile(steps));
      }
      var p := profiles[scope.value];
      if |p.steps| != steps {
        return Failure(Contract);
      }
      TouchedExact(View(), scope.value);
      ExactFacts(View());
      Touch(scope.value);
      r := Success(p);
    }

    /**
      `commit_context`: reports are validated in full before anything is learned, whether or not learning is enabled. What
      is returned is the stored profile and the reports.
     */
    method CommitContext(scope: Option<Key>, reports: seq<Report>, steps: nat, graphSeconds: Option<real>, granted: Option<nat>)
      returns (r: Result<Profile>)
      requires Valid()
      requires scope.Some? && scope.value.TimingKey? ==> scope.value.stepCount == steps
      modifies this
      ensures Valid() && (old(Taught()) ==> Taught())
      ensures r.Success? <==>
                && SaneReports(reports, steps, None) && (graphSeconds.Some? ==> graphSeconds.value >= 0.0)
                && !(enabled && scope.Some? && scope.value in old(profiles) && |old(profiles)[scope.value].steps| != steps)
      ensures r.Failure? ==> r == Failure(Contract) && View() == old(View()) && Books() == old(Books())
      ensures r.Success? && enabled && scope.Some? && old(Taught()) ==>
                LearnsReports(Prior(old(profiles), scope.value, steps), r.value, reports, graphSeconds)
    {
      if graphSeconds.Some? && graphSeconds.value < 0.0 {
        return Failure(Contract);
      }
      var observations := Observations(reports, steps, None);
      if observations.Failure? {
        return Failure(Contract);
      }
      r := Commit(scope, steps, Run(observations.value, graphSeconds), granted);
      if old(Taught()) && scope.Some? && r.Success? {
        ReportsLearned(old(View()), scope.value, steps, reports, observations.value, graphSeconds);
      }
    }

    /** `commit_iteration`: the reports of one iteration cover every step, so each step is observed exactly once. */
    method CommitIteration(scope: Option<Key>, reports: seq<Report>, steps: nat, iteration: int, granted: Option<nat>)
      returns (r: Result<Profile>)
      requires Valid()
      requires scope.Some? && scope.value.TimingKey? ==> scope.value.stepCount == steps
      modifies this
      ensures Valid() && (old(Taught()) ==> Taught())
      ensures r.Success? <==>
                && iteration >= 1 && SaneReports(reports, steps, Some(iteration)) && Covers(reports, steps)
                && !(enabled && scope.Some? && scope.value in old(profiles) && |old(profiles)[scope.value].steps| != steps)
      ensures r.Failure? ==> r == Failure(Contract) && View() == old(View()) && Books() == old(Books())
      ensures r.Success? && enabled && scope.Some? && old(Taught()) ==>
                var before := Prior(old(profiles), scope.value, steps);
                && LearnsReports(before, r.value, reports, None)
                && forall i :: 0 <= i < steps ==> r.value.steps[i].observations == before.steps[i].observations + 1
    {
      if iteration < 1 {
        return Failure(Contract);
      }
      var observations := Observations(reports, steps, Some(iteration));
      if observations.Failure? {
        return Failure(Contract);
      }
      SeenSteps(reports, observations.value, steps);
      if (set o | o in observations.value :: o.step) != StepSet(steps) {
        return Failure(Contract);
      }
      r := Commit(scope, steps, Run(observations.value, None), granted);
      if old(Taught()) && scope.Some? && r.Success? {
        ReportsLearned(old(View()), scope.value, steps, reports, observations.value, None);
        OncePerStep(reports, steps, iteration);
      }
    }

    /** `_commit`: learn from one finalized run; `granted` is the answer to a cache reservation, if one is asked for. */
    method Commit(scope: Option<Key>, steps: nat, run: Run, granted: Option<nat>) returns (r: Result<Profile>)
      requires Valid()
      requires scope.Some? && scope.value.TimingKey? ==> scope.value.stepCount == steps
      modifies this
      ensures Valid() && attached == old(attached)
      ensures old(Taught()) && ValidRun(run, steps) ==> Taught()
      ensures !enabled || scope.None? ==>
                r == Success(EmptyProfile(steps)) && Books() == old(Books()) && View() == old(View())
      ensures enabled && scope.Some? && Mismatched(old(profiles), scope.value, steps) ==>
                r == Failure(Contract) && Books() == old(Books()) && View() == old(View())
      ensures enabled && scope.Some? && !Mismatched(old(profiles), scope.value, steps) ==>
                && r == Success(Learn(Prior(old(profiles), scope.value, steps), run))
                && (old(Taught()) && ValidRun(run, steps) ==> HasLearned(Prior(old(profiles), scope.value, steps), r.value, [run]))
                && Books() == (if attached && scope.value.TimingKey? then Took(old(Books()), scope.value, run, granted, bounds)
                               else old(Books()))
                && (if steps > limits.steps || Charge(scope.value, steps) > limits.bytes then View() == old(View())
                    else Kept(old(View()), View(), scope.value, steps, run, r.value, limits))
    {
      hide Kept, Exact, Conserved, AllTaught, HasLearned;
      if !enabled || scope.None? {
        return Success(EmptyProfile(steps));
      }
      var k := scope.value;
      if k in profiles && |profiles[k].steps| != steps {
        return Failure(Contract);
      }
      ghost var before := View();
      var profile := Admit(k, steps, run, granted);
      if AllTaught(before) && ValidRun(run, steps) {
        CommitTeaches(before, View(), k, steps, run, limits);
      }
      r := Success(profile);
    }

    /** Contribute the run, then keep the profile unless it cannot fit at all. */
    method Admit(k: Key, steps: nat, run: Run, granted: Option<nat>) returns (profile: Profile)
      requires Valid() && (k.TimingKey? ==> k.stepCount == steps) && !Mismatched(profiles, k, steps)
      modifies this`recency, this`retainedSteps, this`retainedBytes, this`profiles, this`base, this`since,
               this`pending, this`pendingBytes, this`lost, this`contributed
      ensures Valid() && profile == Learn(Prior(old(profiles), k, steps), run)
      ensures Books() == if attached && k.TimingKey? then Took(old(Books()), k, run, granted, bounds) else old(Books())
      ensures if steps > limits.steps || Charge(k, steps) > limits.bytes then View() == old(View())
              else Kept(old(View()), View(), k, steps, run, profile, limits)
    {
      profile := Learn(Prior(profiles, k, steps), run);
      if attached && k.TimingKey? {
        Contribute(k, run, granted);
      }
      if steps > limits.steps || Charge(k, steps) > limits.bytes {
        return;
      }
      Store(k, profile, run, steps);
    }

    /** Keep the profile as the most recently used one, evicting others as needed but never this one. */
    method Store(k: Key, profile: Profile, ghost run: Run, steps: nat)
      requires Exact(View()) && profile == Learn(Prior(profiles, k, steps), run) && |profile.steps| == steps
      requires steps <= limits.steps && Charge(k, steps) <= limits.bytes && limits.profiles >= 1 && !Mismatched(profiles, k, steps)
      modifies this`recency, this`retainedSteps, this`retainedBytes, this`profiles, this`base, this`since
      ensures Exact(View()) && !Over(recency, limits) && Kept(old(View()), View(), k, steps, run, profile, limits)
    {
      hide Kept, Over, Exact, Remembered, TrimmedCache;
      ghost var before := View();
      ExactFacts(before);
      StoredKept(before, k, run, steps, limits);
      Remember(k, profile, run, steps);
      Trim();
    }

    /**
      `_contribute`: the run is lost exactly when no delta of its key waits and there is no room or no reservation for one.
      Otherwise the delta of its key, and no other, learns it.
     */
    method Contribute(k: Key, run: Run, granted: Option<nat>)
      requires k.TimingKey? && Conserved(Books(), bounds)
      modifies this`pending, this`pendingBytes, this`lost, this`contributed
      ensures Books() == Took(old(Books()), k, run, granted, bounds) && Conserved(Books(), bounds)
      ensures var room := |old(pending).Keys| + inflight < bounds.profiles && old(pendingBytes) + k.charge <= bounds.bytes
                          && k.charge <= bounds.batchBytes;
              if k in old(pending) || (room && granted.Some?) then
                && lost == old(lost) && k in pending && pending - {k} == old(pending) - {k}
                && pending[k].profile == Learn(if k in old(pending) then old(pending)[k].profile else EmptyProfile(k.stepCount), run)
                && pending[k].reservation == (if k in old(pending) then old(pending)[k].reservation else granted.value)
                && pendingBytes == old(pendingBytes) + (if k in old(pending) then 0 else k.charge)
              else lost == old(lost) + 1 && pending == old(pending) && pendingBytes == old(pendingBytes)
    {
      ContributedConserved(Books(), k, run, granted, bounds);
      contributed := contributed + 1;
      if k !in pending {
        if |pending.Keys| + inflight >= bounds.profiles || pendingBytes + k.charge > bounds.bytes || k.charge > bounds.batchBytes
           || granted.None? {
          lost := lost + 1;
          return;
        }
        pending := pending[k := Delta(k, EmptyProfile(k.stepCount), granted.value)];
        pendingBytes := pendingBytes + k.charge;
      }
      pending := pending[k := pending[k].(profile := Learn(pending[k].profile, run))];
    }

    /** `_drain_profiles`: `order` is the order in which the pending deltas were visited, `answers` the lane's to each. */
    method Drain(answers: Key -> Option<nat>) returns (ghost order: seq<Key>)
      requires Valid() && NewNumbers(Books(), answers)
      modifies this`pending, this`inflight, this`pendingBytes, this`acknowledged, this`lost, this`out
      ensures Valid() && Books() == Drained(old(Books()), order, answers) && contributed == old(contributed)
      ensures attached ==> pending == map[]
      ensures !attached ==> order == [] && Books() == old(Books())
      ensures attached ==> acknowledged == old(acknowledged) && HandedOver(old(pending), old(out), out, answers)
    {
      hide Conserved, NewNumbers, Drained, Draining, HandedOver;
      order := [];
      ghost var before := Books();
      DrainStarts(before, answers, bounds);
      if !attached { return; }
      while pending != map[]
        invariant Draining(before, Books(), order, answers, bounds)
        decreases |pending.Keys|
      {
        var k :| k in pending;
        DrainRound(before, Books(), order, answers, k, bounds);
        order := order + [k];
        HandOff(k, answers(k));
      }
      DrainEnds(before, Books(), order, answers, bounds);
    }

    method HandOff(k: Key, answer: Option<nat>)
      requires k in pending
      modifies this`pending, this`inflight, this`pendingBytes, this`acknowledged, this`lost, this`out
      ensures Books() == Drained1(old(Books()), k, answer)
    {
      var delta := pending[k];
      pending := pending - {k};
      inflight := inflight + 1;
      if answer.Some? {
        out := out[answer.value := delta];
      } else {
        Settle(Charge(delta.key, |delta.profile.steps|), delta.profile.runs, false);
      }
    }

    method Settle(charge: nat, count: nat, committed: bool)
      modifies this`inflight, this`pendingBytes, this`acknowledged, this`lost
      ensures Books() == old(Books()).(ledger := Acknowledged(old(Books()).ledger, charge, count, committed))
    {
      inflight := inflight - 1;
      pendingBytes := pendingBytes - charge;
      if committed {
        acknowledged := acknowledged + count;
      } else {
        lost := lost + count;
      }
    }

    /** The callback of handoff `n`: it settles the charge and the count it was made with, whenever it is called. */
    method Acknowledge(charge: nat, count: nat, committed: bool, ghost n: nat)
      modifies this`inflight, this`pendingBytes, this`acknowledged, this`lost, this`out
      ensures Books() == Account(Acknowledged(old(Books()).ledger, charge, count, committed), old(out) - {n})
      ensures acknowledged == old(acknowledged) + (if committed then count else 0)
      ensures lost == old(lost) + (if committed then 0 else count)
      ensures pendingBytes == old(pendingBytes) - charge && inflight == old(inflight) - 1 && out == old(out) - {n}
      ensures old(Valid() && n in out && charge == ChargeOf()(out[n]) && count == RunsOf()(out[n])) ==> Valid()
    {
      if Valid() && n in out && charge == ChargeOf()(out[n]) && count == RunsOf()(out[n]) {
        AcknowledgedConserved(Books(), n, committed, bounds);
      }
      Settle(charge, count, committed);
      out := out - {n};
    }

    method Attach()
      modifies this`attached
      ensures attached && View() == old(View()) && Books() == old(Books()) && (old(Valid()) ==> Valid())
    {
      attached := true;
    }
  }
}
