/** A bounded window over finalized summaries. */
module TerminalHistory {
  // It is read by cursors that report whether anything was missed.

  import opened Wrappers

  /** `body` stands for the immutable metadata of one finalized context. */
  datatype Summary = Summary(sequence: nat, body: int)

  datatype Entry = Entry(summary: Summary, size: nat)

  datatype Cursor = Cursor(engine: int, sequence: int)

  datatype Page = Page(entries: seq<Summary>, next: Cursor, oldest: nat, latest: nat, gap: bool, hasMore: bool)

  const MAX_ENTRY_BYTES: nat := 8192
  const MAX_PAGE: nat := 256

  function Bytes(entries: seq<Entry>): nat {
    if entries == [] then 0 else entries[0].size + Bytes(entries[1..])
  }

  lemma {:induction false} BytesAppend(entries: seq<Entry>, e: Entry)
    ensures Bytes(entries + [e]) == Bytes(entries) + e.size
  {
    if entries == [] {
      assert [] + [e] == [e] && [e][1..] == [];
    } else {
      BytesAppend(entries[1..], e);
      assert (entries + [e])[1..] == entries[1..] + [e];
    }
  }

  /** Entries are in order, numbered up to `sequence`, and are what was published under their numbers. */
  ghost predicate Ordered(entries: seq<Entry>, log: seq<int>) {
    && (forall i :: 0 <= i < |entries| ==> 1 <= entries[i].summary.sequence <= |log| && entries[i].summary.body == log[entries[i].summary.sequence - 1])
    && forall i, j :: 0 <= i < j < |entries| ==> entries[i].summary.sequence < entries[j].summary.sequence
  }

  lemma OrderedAppend(entries: seq<Entry>, log: seq<int>, body: int, size: nat)
    requires Ordered(entries, log)
    ensures Ordered(entries, log + [body])
    ensures Ordered(entries + [Entry(Summary(|log| + 1, body), size)], log + [body])
  {
  }

  lemma OrderedTail(entries: seq<Entry>, log: seq<int>)
    requires Ordered(entries, log) && entries != []
    ensures Ordered(entries[1..], log)
  {
  }

  // ---- what a page is ------------------------------------------------------------------------------

  /** The retained summaries numbered above `start`. */
  function Beyond(entries: seq<Entry>, start: int): seq<Summary> {
    if entries == [] then []
    else
      var last := entries[|entries| - 1].summary;
      Beyond(entries[..|entries| - 1], start) + if last.sequence > start then [last] else []
  }

  lemma {:induction false} BeyondPrefix(entries: seq<Entry>, i: nat, start: int)
    requires i <= |entries|
    ensures Beyond(entries[..i], start) <= Beyond(entries, start)
    decreases |entries|
  {
    if i < |entries| {
      BeyondPrefix(entries[..|entries| - 1], i, start);
      assert entries[..|entries| - 1][..i] == entries[..i];
    } else {
      assert entries[..i] == entries;
    }
  }

  lemma BeyondMore(entries: seq<Entry>, i: nat, start: int)
    requires i < |entries|
    ensures Beyond(entries[..i + 1], start)
         == Beyond(entries[..i], start) + if entries[i].summary.sequence > start then [entries[i].summary] else []
  {
    assert entries[..i + 1][..i] == entries[..i];
  }

  lemma ShownPrefix(selected: seq<Summary>, beyond: seq<Summary>, count: nat)
    requires selected <= beyond && |selected| == count
    ensures Shown(beyond, count) == selected
  {
  }

  ghost predicate Rising(summaries: seq<Summary>, low: int, high: int) {
    && (forall i :: 0 <= i < |summaries| ==> low < summaries[i].sequence <= high)
    && forall i, j :: 0 <= i < j < |summaries| ==> summaries[i].sequence < summaries[j].sequence
  }

  ghost predicate Genuine(summaries: seq<Summary>, log: seq<int>) {
    forall i :: 0 <= i < |summaries| ==>
      1 <= summaries[i].sequence <= |log| && summaries[i].body == log[summaries[i].sequence - 1]
  }

  lemma {:induction false} BeyondRising(entries: seq<Entry>, log: seq<int>, start: int, high: int)
    requires Ordered(entries, log) && (entries != [] ==> entries[|entries| - 1].summary.sequence <= high)
    ensures Rising(Beyond(entries, start), start, high)
  {
    if entries != [] {
      var n := |entries| - 1;
      BeyondRising(entries[..n], log, start, entries[n].summary.sequence - 1);
    }
  }

  lemma {:induction false} BeyondGenuine(entries: seq<Entry>, log: seq<int>, start: int)
    requires Ordered(entries, log)
    ensures Genuine(Beyond(entries, start), log)
  {
    if entries != [] {
      BeyondGenuine(entries[..|entries| - 1], log, start);
    }
  }

  /** `limit` summaries at most; a page that ran out of them moves on to the end of the window. */
  function Shown(beyond: seq<Summary>, limit: nat): seq<Summary> {
    if |beyond| < limit then beyond else beyond[..limit]
  }

  function Position(beyond: seq<Summary>, limit: nat, latest: nat): nat
    requires limit > 0
  {
    if |beyond| < limit then latest else beyond[limit - 1].sequence
  }

  /** A strictly rising run in (low, high] has room for high - low numbers, and none is left out when it has as many. */
  lemma {:induction false} RoomFor(summaries: seq<Summary>, low: int, high: int)
    requires Rising(summaries, low, high) && low <= high
    ensures |summaries| <= high - low
    ensures |summaries| == high - low ==> forall i :: 0 <= i < |summaries| ==> summaries[i].sequence == low + 1 + i
    decreases |summaries|
  {
    if summaries != [] {
      var n := |summaries| - 1;
      RoomFor(summaries[..n], low, summaries[n].sequence - 1);
    }
  }

  // ---- the window -------------------------------------------------------------------------------------

  class TerminalHistory {
    const engine: int
    const limit: nat
    const maxBytes: nat
    var entries: seq<Entry>
    var bytes: int
    var sequence: nat
    var closed: bool
    /** Everything ever published, retained or not; for the contracts only. */
    ghost var log: seq<int>

    ghost predicate Valid()
      reads this
    {
      && Ordered(entries, log) && sequence == |log|
      && bytes == Bytes(entries) && |entries| <= limit && bytes <= maxBytes
      && (closed ==> entries == [])
    }

    constructor (engine: int, limit: nat, maxBytes: nat)
      ensures Valid() && !closed && sequence == 0 && log == []
      ensures this.engine == engine && this.limit == limit && this.maxBytes == maxBytes
    {
      this.engine, this.limit, this.maxBytes := engine, limit, maxBytes;
      entries, bytes, sequence, closed, log := [], 0, 0, false, [];
    }

    /**
      Every publication takes the next number, even one that is not retained. An eligible summary that fits by itself
      becomes the last entry, and older ones are kept for as long as they fit together with it; otherwise the window stays.
     */
    method Publish(body: int, size: nat, eligible: bool) returns (r: Result<()>)
      requires Valid()
      modifies this`entries, this`bytes, this`sequence, this`log
      ensures Valid()
      ensures closed ==> r.Failure? && log == old(log) && entries == old(entries)
      ensures !closed ==> r.Success? && log == old(log) + [body]
      ensures !closed && !(eligible && limit > 0 && size <= 8192 && size <= maxBytes) ==> entries == old(entries)
      ensures !closed && eligible && limit > 0 && size <= 8192 && size <= maxBytes ==>
                KeptWith(old(entries), entries, Entry(Summary(sequence, body), size), limit, maxBytes)
    {
      hide Bytes, Ordered, Evicted, KeptWith, Exceeds, Grown;
      if closed {
        return Failure(Contract);
      }
      ghost var before := entries;
      ValidWindow();
      Append(body, size, eligible);
      Evict();
      WindowAfter(before, entries, sequence, body, size, eligible, limit, maxBytes);
      WithinMeans(entries, limit, maxBytes);
      r := Success(());
    }

    lemma ValidWindow()
      requires Valid()
      ensures !Exceeds(entries, limit, maxBytes)
    {
    }

    method Append(body: int, size: nat, eligible: bool)
      requires Valid()
      modifies this`entries, this`bytes, this`sequence, this`log
      ensures sequence == old(sequence) + 1 && log == old(log) + [body]
      ensures bytes == Bytes(entries) && Ordered(entries, log)
      ensures entries == Grown(old(entries), sequence, body, size, eligible, limit, maxBytes)
    {
      OrderedAppend(entries, log, body, size);
      BytesAppend(entries, Entry(Summary(sequence + 1, body), size));
      sequence := sequence + 1;
      log := log + [body];
      if eligible && limit > 0 && size <= Smaller(MAX_ENTRY_BYTES, maxBytes) {
        entries := entries + [Entry(Summary(sequence, body), size)];
        bytes := bytes + size;
      }
    }

    /** Drop the oldest summaries until both bounds hold. */
    method Evict()
      requires bytes == Bytes(entries) && Ordered(entries, log)
      modifies this`entries, this`bytes
      ensures bytes == Bytes(entries) && Ordered(entries, log) && !Exceeds(entries, limit, maxBytes)
      ensures Evicted(old(entries), entries, limit, maxBytes)
    {
      hide Ordered, Evicted;
      ghost var grown, n: nat := entries, 0;
      assert grown[0..] == grown;
      while |entries| > limit || bytes > maxBytes
        invariant n <= |grown| && entries == grown[n..] && bytes == Bytes(entries) && Ordered(entries, log)
        invariant forall i :: 0 <= i < n ==> Exceeds(grown[i..], limit, maxBytes)
        decreases |entries|
      {
        OrderedTail(entries, log);
        bytes := bytes - entries[0].size;
        assert grown[n..][1..] == grown[n + 1..];
        entries := entries[1..];
        n := n + 1;
      }
      assert entries == grown[n..];
      EvictedAt(grown, n, limit, maxBytes);
    }

    /**
      A page of summaries after a cursor. `gap` is exact: it says that the page holds fewer summaries than the numbers
      it moves past. Whenever there was more to read the cursor moved.
     */
    method Read(after: Option<Cursor>, count: int) returns (r: Result<Page>)
      requires Valid()
      ensures r.Success? <==>
        && 1 <= count <= MAX_PAGE && !closed
        && (after.Some? ==> after.value.engine == engine && 0 <= after.value.sequence <= sequence)
      ensures r.Success? ==>
        var start, page := if after.Some? then after.value.sequence else 0, r.value;
        && page.next.engine == engine && |page.entries| <= count
        && (forall x :: x in page.entries <==> Retained(entries, x) && start < x.sequence <= page.next.sequence)
        && (|page.entries| < count ==> page.next.sequence == sequence)
        && (|page.entries| == count ==> page.next.sequence == page.entries[count - 1].sequence)
        && Rising(page.entries, start, page.next.sequence) && Genuine(page.entries, log)
        && start <= page.next.sequence <= sequence == page.latest
        && (page.gap <==> |page.entries| < page.next.sequence - start)
        && (page.hasMore <==> page.next.sequence < sequence)
        && (start < sequence ==> page.next.sequence > start)
        && page.oldest == (if entries != [] then entries[0].summary.sequence else sequence + 1)
    {
      hide Beyond, Shown, Position, Retained, Rising, Genuine, Ordered;
      if !(1 <= count <= MAX_PAGE) || closed {
        return Failure(Contract);
      }
      if after.Some? && (after.value.engine != engine || after.value.sequence < 0 || after.value.sequence > sequence) {
        return Failure(Contract);
      }
      var start: nat := if after.Some? then after.value.sequence else 0;
      var selected, position, gap := Select(start, count);
      PageRises(entries, log, start, count);
      PageHolds(entries, log, start, count);
      PageEnds(Beyond(entries, start), count, sequence);
      if |selected| < count {
        gap := gap || position < sequence;
        position := sequence;
      }
      RoomFor(selected, start, position);
      var oldest := if entries != [] then entries[0].summary.sequence else sequence + 1;
      r := Success(Page(selected, Cursor(engine, position), oldest, sequence, gap, position < sequence));
    }

    /** The scan of the window: what it selects, the number it got to, and whether it jumped over a number. */
    method Select(start: nat, count: nat) returns (selected: seq<Summary>, position: nat, gap: bool)
      requires Valid() && count > 0
      ensures selected == Shown(Beyond(entries, start), count)
      ensures position == if selected == [] then start else selected[|selected| - 1].sequence
      ensures gap <==> |selected| < position - start
    {
      selected, position, gap := [], start, false;
      for i := 0 to |entries|
        invariant |selected| < count && selected == Beyond(entries[..i], start)
        invariant selected != [] ==> i > 0 && selected[|selected| - 1] == entries[i - 1].summary
        invariant position == if selected == [] then start else selected[|selected| - 1].sequence
        invariant start + |selected| <= position && (gap <==> |selected| < position - start)
      {
        var entry := entries[i].summary;
        BeyondMore(entries, i, start);
        assert selected != [] ==> position < entry.sequence;
        if entry.sequence <= start {
          continue;
        }
        gap := gap || entry.sequence != position + 1;
        selected := selected + [entry];
        position := entry.sequence;
        if |selected| == count {
          BeyondPrefix(entries, i + 1, start);
          ShownPrefix(selected, Beyond(entries, start), count);
          return;
        }
      }
      assert entries[..|entries|] == entries;
    }

    method Close()
      requires Valid()
      modifies this`entries, this`bytes, this`closed
      ensures Valid() && closed && entries == [] && log == old(log)
    {
      entries, bytes, closed := [], 0, true;
    }
  }

  /** The shown summaries rise from the start to the page's position. */
  lemma PageRises(entries: seq<Entry>, log: seq<int>, start: nat, count: nat)
    requires Ordered(entries, log) && count > 0 && start <= |log|
    ensures var beyond := Beyond(entries, start);
      && Rising(Shown(beyond, count), start, Position(beyond, count, |log|)) && Genuine(Shown(beyond, count), log)
      && start <= Position(beyond, count, |log|) <= |log|
  {
    BeyondRising(entries, log, start, |log|);
    BeyondGenuine(entries, log, start);
    ShownRises(Beyond(entries, start), log, start, count);
  }

  /** A page that is not full moves on to the end of the window, a full one stops at its last summary. */
  lemma PageEnds(beyond: seq<Summary>, count: nat, latest: nat)
    requires count > 0
    ensures var shown := Shown(beyond, count);
      && |shown| <= count
      && Position(beyond, count, latest) == if |shown| < count then latest else shown[count - 1].sequence
  {
  }

  ghost predicate Retained(entries: seq<Entry>, x: Summary) {
    exists i :: 0 <= i < |entries| && entries[i].summary == x
  }

  lemma {:induction false} BeyondIs(entries: seq<Entry>, start: int)
    ensures forall x :: x in Beyond(entries, start) <==> Retained(entries, x) && x.sequence > start
  {
    if entries != [] {
      var n := |entries| - 1;
      BeyondIs(entries[..n], start);
      forall x
        ensures Retained(entries, x) <==> Retained(entries[..n], x) || x == entries[n].summary
      {
        if Retained(entries, x) {
          var i :| 0 <= i < |entries| && entries[i].summary == x;
          assert i < n ==> entries[..n][i].summary == x;
        }
      }
    }
  }

  /** The page holds exactly the retained summaries between its start and its position. */
  lemma PageHolds(entries: seq<Entry>, log: seq<int>, start: nat, count: nat)
    requires Ordered(entries, log) && count > 0 && start <= |log|
    ensures var beyond := Beyond(entries, start);
      forall x :: x in Shown(beyond, count) <==> Retained(entries, x) && start < x.sequence <= Position(beyond, count, |log|)
  {
    hide Retained, Beyond;
    var beyond := Beyond(entries, start);
    BeyondIs(entries, start);
    BeyondRising(entries, log, start, |log|);
    FirstShown(beyond, start, |log|, count);
  }

  lemma FirstShown(beyond: seq<Summary>, start: nat, latest: nat, count: nat)
    requires Rising(beyond, start, latest) && count > 0
    ensures forall x :: x in Shown(beyond, count) <==> x in beyond && x.sequence <= Position(beyond, count, latest)
  {
    if count <= |beyond| {
      forall x | x in beyond && x.sequence <= beyond[count - 1].sequence
        ensures x in beyond[..count]
      {
        var i :| 0 <= i < |beyond| && beyond[i] == x;
        assert beyond[..count][i] == x;
      }
    }
  }

  lemma RisingCut(beyond: seq<Summary>, start: nat, high: nat, count: nat)
    requires Rising(beyond, start, high) && 0 < count <= |beyond|
    ensures Rising(beyond[..count], start, beyond[count - 1].sequence) && start <= beyond[count - 1].sequence <= high
  {
    var shown := beyond[..count];
    forall i | 0 <= i < count
      ensures start < shown[i].sequence <= beyond[count - 1].sequence
    {
      assert shown[i] == beyond[i];
    }
  }

  lemma GenuineCut(beyond: seq<Summary>, log: seq<int>, count: nat)
    requires Genuine(beyond, log) && count <= |beyond|
    ensures Genuine(beyond[..count], log)
  {
  }

  lemma ShownRises(beyond: seq<Summary>, log: seq<int>, start: nat, count: nat)
    requires Rising(beyond, start, |log|) && Genuine(beyond, log) && count > 0 && start <= |log|
    ensures Rising(Shown(beyond, count), start, Position(beyond, count, |log|)) && Genuine(Shown(beyond, count), log)
    ensures start <= Position(beyond, count, |log|) <= |log|
  {
    hide Rising, Genuine;
    if count <= |beyond| {
      RisingCut(beyond, start, |log|, count);
      GenuineCut(beyond, log, count);
    }
  }

  /** `kept` is a suffix of `grown`, and every longer suffix exceeded a bound. */
  ghost predicate Evicted(grown: seq<Entry>, kept: seq<Entry>, limit: nat, maxBytes: nat) {
    exists n: nat :: n <= |grown| && kept == grown[n..] && forall i :: 0 <= i < n ==> Exceeds(grown[i..], limit, maxBytes)
  }

  lemma EvictedAt(grown: seq<Entry>, n: nat, limit: nat, maxBytes: nat)
    requires n <= |grown| && forall i :: 0 <= i < n ==> Exceeds(grown[i..], limit, maxBytes)
    ensures Evicted(grown, grown[n..], limit, maxBytes)
  {
  }

  /** The window is the new entry after the longest tail of the old window that fits both bounds with it. */
  ghost predicate KeptWith(before: seq<Entry>, after: seq<Entry>, e: Entry, limit: nat, maxBytes: nat) {
    exists n: nat :: n <= |before| && KeptFrom(before, after, e, n, limit, maxBytes)
  }

  ghost predicate KeptFrom(before: seq<Entry>, after: seq<Entry>, e: Entry, n: nat, limit: nat, maxBytes: nat)
    requires n <= |before|
  {
    && after == before[n..] + [e] && |after| <= limit && Bytes(after) <= maxBytes
    && forall i :: 0 <= i < n ==> |before[i..]| + 1 > limit || Bytes(before[i..]) + e.size > maxBytes
  }

  /** Where nothing exceeds the bounds nothing is evicted. */
  lemma NothingEvicted(before: seq<Entry>, after: seq<Entry>, limit: nat, maxBytes: nat)
    requires Evicted(before, after, limit, maxBytes) && !Exceeds(before, limit, maxBytes)
    ensures after == before
  {
    hide Exceeds;
    assert before[0..] == before;
  }

  /** A tail with the new entry exceeds a bound exactly if it has no room for it. */
  lemma TailWith(before: seq<Entry>, e: Entry, i: nat, limit: nat, maxBytes: nat)
    requires i <= |before|
    ensures (before + [e])[i..] == before[i..] + [e]
    ensures Exceeds((before + [e])[i..], limit, maxBytes) <==> |before[i..]| + 1 > limit || Bytes(before[i..]) + e.size > maxBytes
  {
    hide Bytes;
    assert (before + [e])[i..] == before[i..] + [e];
    BytesAppend(before[i..], e);
  }

  /** Eviction after the new entry went in keeps as many older ones as there is room for. */
  lemma WindowKept(before: seq<Entry>, after: seq<Entry>, e: Entry, limit: nat, maxBytes: nat)
    requires Evicted(before + [e], after, limit, maxBytes) && !Exceeds(after, limit, maxBytes) && limit > 0 && e.size <= maxBytes
    ensures KeptWith(before, after, e, limit, maxBytes)
  {
    hide Bytes, Exceeds;
    var grown := before + [e];
    var n: nat :| n <= |grown| && after == grown[n..] && forall i :: 0 <= i < n ==> Exceeds(grown[i..], limit, maxBytes);
    NewestFits(before, e, n, limit, maxBytes);
    TailWith(before, e, n, limit, maxBytes);
    forall i | 0 <= i < n
      ensures |before[i..]| + 1 > limit || Bytes(before[i..]) + e.size > maxBytes
    {
      TailWith(before, e, i, limit, maxBytes);
    }
    WithinMeans(after, limit, maxBytes);
    assert KeptFrom(before, after, e, n, limit, maxBytes);
  }

  lemma WindowAfter(before: seq<Entry>, after: seq<Entry>, sequence: nat, body: int, size: nat, eligible: bool, limit: nat, maxBytes: nat)
    requires Evicted(Grown(before, sequence, body, size, eligible, limit, maxBytes), after, limit, maxBytes)
    requires !Exceeds(before, limit, maxBytes) && !Exceeds(after, limit, maxBytes)
    ensures if eligible && limit > 0 && size <= 8192 && size <= maxBytes
            then KeptWith(before, after, Entry(Summary(sequence, body), size), limit, maxBytes)
            else after == before
  {
    hide Evicted, Exceeds, KeptWith;
    if eligible && limit > 0 && size <= 8192 && size <= maxBytes {
      WindowKept(before, after, Entry(Summary(sequence, body), size), limit, maxBytes);
    } else {
      NothingEvicted(before, after, limit, maxBytes);
    }
  }

  lemma WithinMeans(entries: seq<Entry>, limit: nat, maxBytes: nat)
    requires !Exceeds(entries, limit, maxBytes)
    ensures |entries| <= limit && Bytes(entries) <= maxBytes
  {
  }

  lemma NewestFits(before: seq<Entry>, e: Entry, n: nat, limit: nat, maxBytes: nat)
    requires n <= |before + [e]| && limit > 0 && e.size <= maxBytes
    requires forall i :: 0 <= i < n ==> Exceeds((before + [e])[i..], limit, maxBytes)
    ensures n <= |before|
  {
    TailWith(before, e, |before|, limit, maxBytes);
    assert before[|before|..] == [];
  }

  function Smaller(a: nat, b: nat): nat {
    if a < b then a else b
  }

  predicate Exceeds(entries: seq<Entry>, limit: nat, maxBytes: nat) {
    |entries| > limit || Bytes(entries) > maxBytes
  }

  function Grown(entries: seq<Entry>, sequence: nat, body: int, size: nat, eligible: bool, limit: nat, maxBytes: nat): seq<Entry> {
    if eligible && limit > 0 && size <= Smaller(MAX_ENTRY_BYTES, maxBytes) then entries + [Entry(Summary(sequence, body), size)] else entries
  }

  // ---- chained reads --------------------------------------------------------------------------------------

  /** What `Read` promises about one page read from `start`, when `log` had been published. */
  ghost predicate PageFrom(page: Page, start: int, log: seq<int>) {
    && Rising(page.entries, start, page.next.sequence) && Genuine(page.entries, log)
    && start <= page.next.sequence <= |log| && (page.gap <==> |page.entries| < page.next.sequence - start)
  }

  ghost function NextOf(pages: seq<Page>): int {
    if pages == [] then 0 else pages[|pages| - 1].next.sequence
  }

  /** Pages read one after another from the cursor of the page before, while `logs` grew. */
  ghost predicate Chain(pages: seq<Page>, logs: seq<seq<int>>) {
    && |pages| == |logs|
    && (pages != [] ==>
          var n := |pages| - 1;
          Chain(pages[..n], logs[..n]) && PageFrom(pages[n], NextOf(pages[..n]), logs[n]) && (n > 0 ==> logs[n - 1] <= logs[n]))
  }

  ghost function Entries(pages: seq<Page>): seq<Summary> {
    if pages == [] then [] else Entries(pages[..|pages| - 1]) + pages[|pages| - 1].entries
  }

  ghost predicate NoGap(pages: seq<Page>) {
    pages != [] ==> NoGap(pages[..|pages| - 1]) && !pages[|pages| - 1].gap
  }

  /** The summaries seen so far, read while `log` was published. */
  ghost predicate Collected(all: seq<Summary>, next: int, log: seq<int>, complete: bool) {
    && 0 <= next <= |log| && Rising(all, 0, next) && Genuine(all, log) && |all| <= next && (complete <==> |all| == next)
  }

  lemma CollectedMore(all: seq<Summary>, next: int, before: seq<int>, complete: bool, page: Page, log: seq<int>)
    requires Collected(all, next, before, complete) && before <= log && PageFrom(page, next, log)
    ensures Collected(all + page.entries, page.next.sequence, log, complete && !page.gap)
  {
    RoomFor(page.entries, next, page.next.sequence);
  }

  lemma {:induction false} ChainCollects(pages: seq<Page>, logs: seq<seq<int>>)
    requires Chain(pages, logs) && pages != []
    ensures Collected(Entries(pages), NextOf(pages), logs[|logs| - 1], NoGap(pages))
  {
    var n := |pages| - 1;
    if n > 0 {
      ChainCollects(pages[..n], logs[..n]);
      CollectedMore(Entries(pages[..n]), NextOf(pages[..n]), logs[n - 1], NoGap(pages[..n]), pages[n], logs[n]);
    } else {
      assert pages[..n] == [];
      CollectedMore([], 0, logs[n], true, pages[n], logs[n]);
    }
  }

  /**
    Chained reads, with any publications in between: strictly increasing numbers without repeats, each summary the one
    published under its number; and no page reported a gap exactly when they are all of the first `next` publications.
   */
  lemma ChainedReads(pages: seq<Page>, logs: seq<seq<int>>)
    requires Chain(pages, logs) && pages != []
    ensures var all, next, log := Entries(pages), NextOf(pages), logs[|logs| - 1];
      && 0 <= next <= |log| && Rising(all, 0, next) && Genuine(all, log)
      && (NoGap(pages) <==> |all| == next)
      && (NoGap(pages) ==> forall i :: 0 <= i < next ==> all[i] == Summary(i + 1, log[i]))
  {
    ChainCollects(pages, logs);
    CompleteWhenFull(Entries(pages), NextOf(pages), logs[|logs| - 1]);
  }

  lemma CompleteWhenFull(all: seq<Summary>, next: int, log: seq<int>)
    requires 0 <= next <= |log| && Rising(all, 0, next) && Genuine(all, log)
    ensures |all| == next ==> forall i :: 0 <= i < next ==> all[i] == Summary(i + 1, log[i])
  {
    RoomFor(all, 0, next);
    if |all| == next {
      forall i | 0 <= i < next
        ensures all[i] == Summary(i + 1, log[i])
      {
        assert all[i].sequence == 0 + 1 + i;
      }
    }
  }
}
