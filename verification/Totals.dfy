/** Exact sums over the rows of a table, and the row a SELECT ... ORDER BY ... LIMIT 1 returns. */
module Totals {
  import opened Wrappers

  /** Each row `k` contributes `weight(table[k])` numbered units; the total is how many there are. */
  ghost function Units<K, V>(table: map<K, V>, weight: V -> nat): set<(K, nat)> {
    set k, j: nat | k in table && 0 <= j < weight(table[k]) :: (k, j)
  }

  ghost function Total<K, V>(table: map<K, V>, weight: V -> nat): nat {
    |Units(table, weight)|
  }

  lemma {:induction false} RowUnits<K>(k: K, n: nat)
    ensures |set j: nat | 0 <= j < n :: (k, j)| == n
  {
    var units := set j: nat | 0 <= j < n :: (k, j);
    if n != 0 {
      RowUnits(k, n - 1);
      assert units == (set j: nat | 0 <= j < n - 1 :: (k, j)) + {(k, n - 1)};
    }
  }

  lemma TotalRemove<K, V>(table: map<K, V>, weight: V -> nat, k: K)
    requires k in table
    ensures Total(table, weight) == weight(table[k]) + Total(table - {k}, weight)
  {
    var own := set j: nat | 0 <= j < weight(table[k]) :: (k, j);
    var rest := Units(table - {k}, weight);
    RowUnits(k, weight(table[k]));
    assert Units(table, weight) == own + rest;
    assert own !! rest;
  }

  lemma TotalPut<K, V>(table: map<K, V>, weight: V -> nat, k: K, v: V)
    ensures Total(table[k := v], weight)
         == Total(table, weight) + weight(v) - (if k in table then weight(table[k]) else 0)
  {
    TotalRemove(table[k := v], weight, k);
    assert table[k := v] - {k} == table - {k};
    if k in table {
      TotalRemove(table, weight, k);
    } else {
      assert table - {k} == table;
    }
  }

  lemma TotalAtLeast<K, V>(table: map<K, V>, weight: V -> nat, k: K)
    requires k in table
    ensures Total(table, weight) >= weight(table[k])
  {
    TotalRemove(table, weight, k);
  }

  lemma TotalZero<K, V>(table: map<K, V>, weight: V -> nat)
    requires forall j :: j in table ==> weight(table[j]) == 0
    ensures Total(table, weight) == 0
  {
    assert Units(table, weight) == {};
  }

  lemma RowsPut<K, V>(table: map<K, V>, k: K, v: V)
    ensures |table[k := v].Keys| == |table.Keys| + (if k in table then 0 else 1)
  {
    assert table[k := v].Keys == table.Keys + {k};
  }

  lemma RowsRemove<K, V>(table: map<K, V>, k: K)
    requires k in table
    ensures |(table - {k}).Keys| == |table.Keys| - 1
  {
    assert (table - {k}).Keys == table.Keys - {k};
  }

  // ---- sums of a signed column -------------------------------------------------------------------

  function Above<V>(weight: V -> int): V -> nat {
    (v: V) => if weight(v) > 0 then weight(v) else 0
  }

  function Below<V>(weight: V -> int): V -> nat {
    (v: V) => if weight(v) < 0 then -weight(v) else 0
  }

  ghost function Sum<K, V>(table: map<K, V>, weight: V -> int): int {
    Total(table, Above(weight)) - Total(table, Below(weight))
  }

  lemma SumPut<K, V>(table: map<K, V>, weight: V -> int, k: K, v: V)
    ensures Sum(table[k := v], weight) == Sum(table, weight) + weight(v) - (if k in table then weight(table[k]) else 0)
  {
    TotalPut(table, Above(weight), k, v);
    TotalPut(table, Below(weight), k, v);
  }

  lemma SumRemove<K, V>(table: map<K, V>, weight: V -> int, k: K)
    requires k in table
    ensures Sum(table - {k}, weight) == Sum(table, weight) - weight(table[k])
  {
    TotalRemove(table, Above(weight), k);
    TotalRemove(table, Below(weight), k);
  }

  lemma SumEmpty<K, V>(table: map<K, V>, weight: V -> int)
    requires table == map[]
    ensures Sum(table, weight) == 0
  {
    TotalZero(table, Above(weight));
    TotalZero(table, Below(weight));
  }

  /** A sort key: up to two nullable columns, NULL first, then a unique number. */
  datatype Rank = Rank(known1: bool, value1: int, known2: bool, value2: int, last: int)

  predicate NullFirst(aKnown: bool, a: int, bKnown: bool, b: int) {
    (!aKnown && bKnown) || (aKnown && bKnown && a < b)
  }

  predicate SameColumn(aKnown: bool, a: int, bKnown: bool, b: int) {
    aKnown == bKnown && (aKnown ==> a == b)
  }

  predicate Before(a: Rank, b: Rank) {
    || NullFirst(a.known1, a.value1, b.known1, b.value1)
    || (SameColumn(a.known1, a.value1, b.known1, b.value1)
        && (|| NullFirst(a.known2, a.value2, b.known2, b.value2)
            || (SameColumn(a.known2, a.value2, b.known2, b.value2) && a.last < b.last)))
  }

  lemma BeforeTransitive(a: Rank, b: Rank, c: Rank)
    requires Before(a, b) && Before(b, c)
    ensures Before(a, c)
  {
  }

  lemma BeforeAsymmetric(a: Rank, b: Rank)
    ensures !(Before(a, b) && Before(b, a))
  {
  }

  /** `k` is the row ORDER BY rank LIMIT 1 picks from the table. */
  predicate IsFirst<K(==), V>(table: map<K, V>, k: K, rank: V -> Rank) {
    k in table && forall j :: j in table && j != k ==> Before(rank(table[k]), rank(table[j]))
  }

  ghost predicate Distinct<K, V>(table: map<K, V>, rank: V -> Rank) {
    forall j, k :: j in table && k in table && j != k ==> rank(table[j]).last != rank(table[k]).last
  }

  lemma {:induction false} FirstExists<K, V>(table: map<K, V>, rank: V -> Rank) returns (k: K)
    requires table != map[] && Distinct(table, rank)
    ensures IsFirst(table, k, rank)
    decreases |table.Keys|
  {
    var one :| one in table;
    var rest := table - {one};
    assert forall i :: i in table ==> i == one || i in rest;
    k := one;
    if rest != map[] {
      var j := FirstExists(rest, rank);
      if Before(rank(table[j]), rank(table[one])) {
        k := j;
      }
      forall i | i in table && i != k
        ensures Before(rank(table[k]), rank(table[i]))
      {
        assert i == one || (i in rest && rest[i] == table[i]);
        if k == one && i != j {
          assert Before(rank(rest[j]), rank(rest[i]));
          BeforeTransitive(rank(table[one]), rank(table[j]), rank(table[i]));
        }
      }
    }
  }

  ghost function First<K, V>(table: map<K, V>, rank: V -> Rank): Option<K> {
    if exists k :: k in table && IsFirst(table, k, rank) then
      var k :| k in table && IsFirst(table, k, rank);
      Some(k)
    else None
  }

  /** With distinct last columns the choice is determined, and only an empty table has none. */
  lemma FirstIs<K, V>(table: map<K, V>, rank: V -> Rank)
    requires Distinct(table, rank)
    ensures First(table, rank).None? <==> table == map[]
    ensures First(table, rank).Some? ==> IsFirst(table, First(table, rank).value, rank)
    ensures forall k :: k in table && IsFirst(table, k, rank) ==> First(table, rank) == Some(k)
  {
    if table != map[] {
      var k := FirstExists(table, rank);
      assert exists k :: k in table && IsFirst(table, k, rank);
    }
    forall j, k | j in table && k in table && IsFirst(table, j, rank) && IsFirst(table, k, rank)
      ensures j == k
    {
      BeforeAsymmetric(rank(table[j]), rank(table[k]));
    }
  }
}
