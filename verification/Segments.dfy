/** Connected path segments of one artifact's edges, by union-find with path halving. */
module Segments {
  datatype Edge = Edge(artifact: int, source: int, target: int)

  // ---- connection by paths ------------------------------------------------------------------------

  predicate Joins(e: Edge, a: int, b: int) {
    (e.source == a && e.target == b) || (e.source == b && e.target == a)
  }

  ghost predicate Linked(edges: seq<Edge>, a: int, b: int) {
    exists i :: 0 <= i < |edges| && Joins(edges[i], a, b)
  }

  ghost predicate IsPath(edges: seq<Edge>, nodes: seq<int>) {
    forall i :: 0 <= i < |nodes| - 1 ==> Linked(edges, nodes[i], nodes[i + 1])
  }

  ghost predicate PathBetween(edges: seq<Edge>, nodes: seq<int>, a: int, b: int) {
    nodes != [] && nodes[0] == a && nodes[|nodes| - 1] == b && IsPath(edges, nodes)
  }

  /** The two nodes are joined by a path of the edges, taken in either direction. */
  ghost predicate Connected(edges: seq<Edge>, a: int, b: int) {
    exists nodes: seq<int> :: PathBetween(edges, nodes, a, b)
  }

  lemma ConnectedSelf(edges: seq<Edge>, a: int)
    ensures Connected(edges, a, a)
  {
    assert PathBetween(edges, [a], a, a);
  }

  lemma ConnectedEdge(edges: seq<Edge>, i: nat)
    requires i < |edges|
    ensures Connected(edges, edges[i].source, edges[i].target)
  {
    assert Joins(edges[i], edges[i].source, edges[i].target);
    assert PathBetween(edges, [edges[i].source, edges[i].target], edges[i].source, edges[i].target);
  }

  lemma ConnectedTransitive(edges: seq<Edge>, a: int, b: int, c: int)
    requires Connected(edges, a, b) && Connected(edges, b, c)
    ensures Connected(edges, a, c)
  {
    var p :| PathBetween(edges, p, a, b);
    var q :| PathBetween(edges, q, b, c);
    var nodes := p + q[1..];
    forall i | 0 <= i < |nodes| - 1
      ensures Linked(edges, nodes[i], nodes[i + 1])
    {
      if i >= |p| - 1 {
        assert nodes[i] == q[i - (|p| - 1)] && nodes[i + 1] == q[i - (|p| - 1) + 1];
      }
    }
    assert PathBetween(edges, nodes, a, c);
  }

  lemma LinkedSymmetric(edges: seq<Edge>, a: int, b: int)
    requires Linked(edges, a, b)
    ensures Linked(edges, b, a)
  {
    var i :| 0 <= i < |edges| && Joins(edges[i], a, b);
    assert Joins(edges[i], b, a);
  }

  lemma ConnectedSymmetric(edges: seq<Edge>, a: int, b: int)
    requires Connected(edges, a, b)
    ensures Connected(edges, b, a)
  {
    var p :| PathBetween(edges, p, a, b);
    var nodes := seq(|p|, i requires 0 <= i < |p| => p[|p| - 1 - i]);
    forall i | 0 <= i < |nodes| - 1
      ensures Linked(edges, nodes[i], nodes[i + 1])
    {
      var j := |p| - 2 - i;
      assert nodes[i + 1] == p[j] && nodes[i] == p[j + 1];
      LinkedSymmetric(edges, p[j], p[j + 1]);
    }
    assert PathBetween(edges, nodes, b, a);
  }

  lemma ConnectedMore(edges: seq<Edge>, e: Edge, a: int, b: int)
    requires Connected(edges, a, b)
    ensures Connected(edges + [e], a, b)
  {
    var p :| PathBetween(edges, p, a, b);
    forall i | 0 <= i < |p| - 1
      ensures Linked(edges + [e], p[i], p[i + 1])
    {
      var j :| 0 <= j < |edges| && Joins(edges[j], p[i], p[i + 1]);
      assert Joins((edges + [e])[j], p[i], p[i + 1]);
    }
    assert PathBetween(edges + [e], p, a, b);
  }

  /** Whatever color both ends of every edge share is constant along a path. */
  lemma {:induction false} PathConstant(edges: seq<Edge>, nodes: seq<int>, color: map<int, int>)
    requires nodes != [] && IsPath(edges, nodes) && nodes[0] in color
    requires forall i :: 0 <= i < |edges| ==>
      edges[i].source in color && edges[i].target in color && color[edges[i].source] == color[edges[i].target]
    ensures nodes[|nodes| - 1] in color && color[nodes[|nodes| - 1]] == color[nodes[0]]
    decreases |nodes|
  {
    if |nodes| > 1 {
      var n := |nodes| - 1;
      assert IsPath(edges, nodes[..n]) by {
        assert forall i :: 0 <= i < n - 1 ==> Linked(edges, nodes[i], nodes[i + 1]);
      }
      PathConstant(edges, nodes[..n], color);
      assert Linked(edges, nodes[n - 1], nodes[n]);
    }
  }

  // ---- the forest ------------------------------------------------------------------------------------

  /** Following parents from `x` ends at its root, in at most its height steps. */
  ghost predicate Placed(parents: map<int, int>, root: map<int, int>, height: map<int, nat>, x: int)
    requires root.Keys == parents.Keys && height.Keys == parents.Keys && x in parents
  {
    && parents[x] in parents && root[x] in parents && root[parents[x]] == root[x] && root[root[x]] == root[x]
    && parents[root[x]] == root[x] && (parents[x] == x ==> root[x] == x)
    && (parents[x] != x ==> height[parents[x]] < height[x])
  }

  ghost predicate Forest(parents: map<int, int>, root: map<int, int>, height: map<int, nat>) {
    && root.Keys == parents.Keys && height.Keys == parents.Keys
    && forall x :: x in parents ==> Placed(parents, root, height, x)
  }

  /** The roots are exactly the connected components of the edges seen so far. */
  ghost predicate Components(edges: seq<Edge>, root: map<int, int>) {
    && (forall i :: 0 <= i < |edges| ==>
          edges[i].source in root && edges[i].target in root && root[edges[i].source] == root[edges[i].target])
    && forall x :: x in root ==> Connected(edges, x, root[x])
  }

  lemma SameRootIsConnected(edges: seq<Edge>, root: map<int, int>, a: int, b: int)
    requires Components(edges, root) && a in root && b in root
    ensures root[a] == root[b] <==> Connected(edges, a, b)
  {
    if root[a] == root[b] {
      ConnectedSymmetric(edges, b, root[b]);
      ConnectedTransitive(edges, a, root[a], b);
    }
    if Connected(edges, a, b) {
      var p :| PathBetween(edges, p, a, b);
      PathConstant(edges, p, root);
    }
  }

  /** Hanging the root `b` under the root `a`. */
  ghost function Reroot(root: map<int, int>, a: int, b: int): map<int, int> {
    map x | x in root :: if root[x] == b then a else root[x]
  }

  ghost function Raise(root: map<int, int>, height: map<int, nat>, a: int, b: int): map<int, nat>
    requires height.Keys == root.Keys && a in root
  {
    map x | x in root :: if root[x] == b && a != b then height[x] + height[a] + 1 else height[x]
  }

  lemma UnionForest(parents: map<int, int>, root: map<int, int>, height: map<int, nat>, a: int, b: int)
    requires Forest(parents, root, height) && a in parents && b in parents && root[a] == a && root[b] == b
    ensures Forest(parents[b := a], Reroot(root, a, b), Raise(root, height, a, b))
  {
    var more, roots, heights := parents[b := a], Reroot(root, a, b), Raise(root, height, a, b);
    assert more.Keys == parents.Keys;
    forall x | x in more
      ensures Placed(more, roots, heights, x)
    {
      UnionPlaces(parents, root, height, a, b, x);
    }
  }

  lemma UnionPlaces(parents: map<int, int>, root: map<int, int>, height: map<int, nat>, a: int, b: int, x: int)
    requires Forest(parents, root, height) && a in parents && b in parents && root[a] == a && root[b] == b && x in parents
    ensures Reroot(root, a, b).Keys == Raise(root, height, a, b).Keys == parents[b := a].Keys
    ensures Placed(parents[b := a], Reroot(root, a, b), Raise(root, height, a, b), x)
  {
    ForestAt(parents, root, height, x);
    ForestAt(parents, root, height, a);
    ForestAt(parents, root, height, b);
    assert parents[b := a].Keys == parents.Keys;
  }

  lemma UnionComponents(edges: seq<Edge>, root: map<int, int>, e: Edge)
    requires Components(edges, root) && e.source in root && e.target in root
    requires forall x :: x in root ==> root[x] in root && root[root[x]] == root[x]
    ensures Components(edges + [e], Reroot(root, root[e.source], root[e.target]))
  {
    var a, b, more := root[e.source], root[e.target], edges + [e];
    forall x | x in root
      ensures Connected(more, x, if root[x] == b then a else root[x])
    {
      ConnectedMore(edges, e, x, root[x]);
      if root[x] == b {
        ConnectedMore(edges, e, e.target, b);
        ConnectedMore(edges, e, e.source, a);
        ConnectedEdge(more, |edges|);
        ConnectedSymmetric(more, e.target, b);
        ConnectedTransitive(more, x, b, e.target);
        ConnectedSymmetric(more, e.source, e.target);
        ConnectedTransitive(more, x, e.target, e.source);
        ConnectedTransitive(more, x, e.source, a);
      }
    }
  }

  class Union {
    var parents: map<int, int>
    ghost var root: map<int, int>
    ghost var height: map<int, nat>

    ghost predicate Valid()
      reads this
    {
      Forest(parents, root, height)
    }

    constructor ()
      ensures Valid() && parents == map[] && root == map[]
    {
      parents, root, height := map[], map[], map[];
    }

    /** `find`: path halving shortens paths and changes no root; an unknown node becomes its own root. */
    method Find(start: int) returns (r: int)
      requires Valid()
      modifies this
      ensures Valid() && root == WithNode(old(root), start) && r == root[start] && root[r] == r
    {
      SetDefault(start);
      var node := start;
      ghost var parent := parents[node];
      ForestAt(parents, root, height, node);
      while parents[node] != node
        invariant Valid() && node in parents && start in root && node in root && root[node] == root[start]
        invariant root == WithNode(old(root), start)
        decreases height[node]
      {
        ForestAt(parents, root, height, node);
        HalveForest(parents, root, height, node);
        parents := parents[node := parents[parents[node]]];
        node := parents[node];
      }
      ForestAt(parents, root, height, node);
      r := node;
    }

    method SetDefault(node: int)
      requires Valid()
      modifies this
      ensures Valid() && node in parents && root == WithNode(old(root), node)
    {
      if node !in parents {
        FreshForest(parents, root, height, node);
        parents, root, height := parents[node := node], root[node := node], height[node := 0];
      }
    }

    /** Join the ends of one more edge. */
    method Add(ghost edges: seq<Edge>, e: Edge)
      requires Valid() && Components(edges, root)
      modifies this
      ensures Valid() && Components(edges + [e], root) && root.Keys == old(root.Keys) + {e.source, e.target}
    {
      hide Forest, Components, Reroot, Raise;
      ghost var before := root;
      var a := Find(e.source);
      var b := Find(e.target);
      JoinComponents(edges, before, e, parents, root, height, a, b);
      parents := parents[b := a];
      root, height := Reroot(root, a, b), Raise(root, height, a, b);
    }
  }

  lemma JoinComponents(edges: seq<Edge>, before: map<int, int>, e: Edge,
                       parents: map<int, int>, root: map<int, int>, height: map<int, nat>, a: int, b: int)
    requires Components(edges, before) && root == WithNode(WithNode(before, e.source), e.target)
    requires Forest(parents, root, height) && a == root[e.source] && b == root[e.target]
    ensures a in root && root.Keys == before.Keys + {e.source, e.target} && height.Keys == root.Keys
    ensures Reroot(root, a, b).Keys == root.Keys
    ensures Forest(parents[b := a], Reroot(root, a, b), Raise(root, height, a, b))
    ensures Components(edges + [e], Reroot(root, a, b))
  {
    hide Forest, Components, Connected;
    NodeComponents(edges, before, e.source);
    NodeComponents(edges, WithNode(before, e.source), e.target);
    ForestKeys(parents, root, height);
    ForestAt(parents, root, height, e.source);
    ForestAt(parents, root, height, e.target);
    UnionForest(parents, root, height, a, b);
    ForestRoots(parents, root, height);
    UnionComponents(edges, root, e);
  }

  function WithNode(root: map<int, int>, node: int): (r: map<int, int>)
    ensures node in r
  {
    if node in root then root else root[node := node]
  }

  lemma ForestAt(parents: map<int, int>, root: map<int, int>, height: map<int, nat>, x: int)
    requires Forest(parents, root, height) && x in parents
    ensures x in root && x in height && parents[x] in parents && root[x] in parents && parents[x] in height
    ensures parents[x] in root && root[x] in root && root[parents[x]] == root[x] && root[root[x]] == root[x]
    ensures (parents[x] == x ==> root[x] == x) && (parents[x] != x ==> height[parents[x]] < height[x])
    ensures parents[parents[x]] in parents && parents[parents[x]] in root && root[parents[parents[x]]] == root[x]
    ensures parents[parents[x]] in height && height[parents[parents[x]]] <= height[parents[x]]
  {
  }

  lemma ForestKeys(parents: map<int, int>, root: map<int, int>, height: map<int, nat>)
    requires Forest(parents, root, height)
    ensures root.Keys == parents.Keys == height.Keys
  {
  }

  lemma ForestRoots(parents: map<int, int>, root: map<int, int>, height: map<int, nat>)
    requires Forest(parents, root, height)
    ensures forall x :: x in root ==> root[x] in root && root[root[x]] == root[x]
  {
  }

  /** Pointing a node at its grandparent keeps the forest, with the same roots and heights. */
  lemma HalveForest(parents: map<int, int>, root: map<int, int>, height: map<int, nat>, node: int)
    requires Forest(parents, root, height) && node in parents && parents[node] != node
    requires parents[node] in parents
    ensures Forest(parents[node := parents[parents[node]]], root, height)
  {
  }

  lemma FreshForest(parents: map<int, int>, root: map<int, int>, height: map<int, nat>, node: int)
    requires Forest(parents, root, height) && node !in parents
    ensures Forest(parents[node := node], root[node := node], height[node := 0])
  {
  }

  lemma NodeComponents(edges: seq<Edge>, root: map<int, int>, node: int)
    requires Components(edges, root)
    ensures Components(edges, WithNode(root, node))
  {
    ConnectedSelf(edges, node);
  }

  // ---- numbering ---------------------------------------------------------------------------------------

  function Highest(numbers: seq<nat>): nat {
    if numbers == [] then 0
    else if numbers[|numbers| - 1] > Highest(numbers[..|numbers| - 1]) then numbers[|numbers| - 1]
    else Highest(numbers[..|numbers| - 1])
  }

  /** Segments are numbered 1, 2, ... in the order of their first edges. */
  ghost predicate ByFirstEdge(numbers: seq<nat>) {
    forall i :: 0 <= i < |numbers| ==> numbers[i] >= 1 && LowerBefore(numbers, i)
  }

  /** Every lower number was met before. */
  ghost predicate LowerBefore(numbers: seq<nat>, i: nat)
    requires i < |numbers|
  {
    forall m: nat :: 1 <= m < numbers[i] ==> Occurs(numbers, i, m)
  }

  ghost predicate Occurs(numbers: seq<nat>, i: nat, m: nat) {
    exists j :: 0 <= j < i && j < |numbers| && numbers[j] == m
  }

  lemma {:induction false} HighestAt(numbers: seq<nat>) returns (k: nat)
    requires numbers != [] && Highest(numbers) > 0
    ensures k < |numbers| && numbers[k] == Highest(numbers)
  {
    k := |numbers| - 1;
    if numbers[k] <= Highest(numbers[..k]) {
      k := HighestAt(numbers[..k]);
    }
  }

  /** Every number up to the highest is used. */
  lemma Reached(numbers: seq<nat>, n: nat) returns (k: nat)
    requires ByFirstEdge(numbers) && 1 <= n <= Highest(numbers)
    ensures k < |numbers| && numbers[k] == n
  {
    k := HighestAt(numbers);
    if numbers[k] != n {
      k := Earlier(numbers, n, k);
    }
  }

  /** A lower number is met before a higher one. */
  lemma Earlier(numbers: seq<nat>, m: nat, k: nat) returns (j: nat)
    requires ByFirstEdge(numbers) && k < |numbers| && 1 <= m < numbers[k]
    ensures j < k && numbers[j] == m
  {
    assert LowerBefore(numbers, k) && Occurs(numbers, k, m);
    j :| 0 <= j < k && numbers[j] == m;
  }

  /** The edges with a given number, in order. */
  function PositionsOf(numbers: seq<nat>, n: nat): (found: seq<nat>)
    ensures forall k :: 0 <= k < |found| ==> found[k] < |numbers| && numbers[found[k]] == n
  {
    if numbers == [] then []
    else
      var last := |numbers| - 1;
      PositionsOf(numbers[..last], n) + if numbers[last] == n then [last] else []
  }

  ghost predicate Grouped(numbers: seq<nat>, groups: seq<seq<nat>>) {
    |groups| == Highest(numbers) && forall g :: 0 <= g < |groups| ==> groups[g] == PositionsOf(numbers, g + 1)
  }

  /** Two edges have the same number exactly when a path of the edges links them. */
  ghost predicate Separated(edges: seq<Edge>, numbers: seq<nat>) {
    |numbers| == |edges| && forall i, j :: 0 <= i < |edges| && 0 <= j < |edges| ==>
      (numbers[i] == numbers[j] <==> Connected(edges, edges[i].source, edges[j].source))
  }

  /** Numbers so far name distinct roots: edge `i` belongs to the root listed under its number. */
  ghost predicate Named(edges: seq<Edge>, numbers: seq<nat>, order: seq<int>, root: map<int, int>) {
    && |numbers| <= |edges| && Different(order)
    && forall i :: 0 <= i < |numbers| ==>
         1 <= numbers[i] <= |order| && edges[i].source in root && order[numbers[i] - 1] == root[edges[i].source]
  }

  ghost predicate Different(order: seq<int>) {
    forall g, h :: 0 <= g < h < |order| ==> order[g] != order[h]
  }

  lemma NamedSeparates(edges: seq<Edge>, numbers: seq<nat>, order: seq<int>, root: map<int, int>)
    requires Named(edges, numbers, order, root) && |numbers| == |edges| && Components(edges, root)
    ensures Separated(edges, numbers)
  {
    forall i, j | 0 <= i < |edges| && 0 <= j < |edges|
      ensures numbers[i] == numbers[j] <==> Connected(edges, edges[i].source, edges[j].source)
    {
      SameRootIsConnected(edges, root, edges[i].source, edges[j].source);
    }
  }

  lemma {:induction false} NoPositions(numbers: seq<nat>, n: nat)
    requires n > Highest(numbers)
    ensures PositionsOf(numbers, n) == []
  {
    if numbers != [] {
      NoPositions(numbers[..|numbers| - 1], n);
    }
  }

  lemma FirstEdgeMore(numbers: seq<nat>, n: nat)
    requires ByFirstEdge(numbers) && 1 <= n <= Highest(numbers) + 1
    ensures ByFirstEdge(numbers + [n]) && Highest(numbers + [n]) == if n > Highest(numbers) then n else Highest(numbers)
  {
    var all := numbers + [n];
    assert all[..|numbers|] == numbers;
    forall i, m: nat | 0 <= i < |all| && 1 <= m < all[i]
      ensures Occurs(all, i, m)
    {
      if i < |numbers| {
        var j := Earlier(numbers, m, i);
        assert all[j] == m;
      } else {
        var j := Reached(numbers, m);
        assert all[j] == m;
      }
    }
  }

  function Listing(order: seq<int>, r: int): seq<int> {
    if IndexOf(order, r) < |order| then order else order + [r]
  }

  lemma DifferentMore(order: seq<int>, r: int)
    requires Different(order)
    ensures Different(Listing(order, r)) && IndexOf(order, r) < |Listing(order, r)| && Listing(order, r)[IndexOf(order, r)] == r
    ensures order <= Listing(order, r)
  {
  }

  /** One more edge, under a known root or as the first of a new one. */
  lemma NamedMore(edges: seq<Edge>, numbers: seq<nat>, order: seq<int>, root: map<int, int>, r: int)
    requires Named(edges, numbers, order, root) && |numbers| < |edges|
    requires edges[|numbers|].source in root && r == root[edges[|numbers|].source]
    ensures Named(edges, numbers + [IndexOf(order, r) + 1], Listing(order, r), root)
  {
    DifferentMore(order, r);
  }

  lemma GroupedMore(numbers: seq<nat>, groups: seq<seq<nat>>, n: nat, more: seq<seq<nat>>)
    requires Grouped(numbers, groups) && 1 <= n <= |groups| + 1
    requires more == if n <= |groups| then groups[n - 1 := groups[n - 1] + [|numbers|]] else groups + [[|numbers|]]
    ensures Grouped(numbers + [n], more)
  {
    var all := numbers + [n];
    assert all[..|numbers|] == numbers;
    if n == |groups| + 1 {
      NoPositions(numbers, n);
    }
  }

  function IndexOf(order: seq<int>, r: int): (i: nat)
    ensures i <= |order| && (i < |order| ==> order[i] == r) && (i == |order| ==> r !in order)
  {
    if order == [] || order[0] == r then 0 else 1 + IndexOf(order[1..], r)
  }

  method JoinAll(edges: seq<Edge>) returns (union: Union)
    ensures fresh(union) && union.Valid() && Components(edges, union.root)
  {
    hide Forest, Connected;
    union := new Union();
    for i := 0 to |edges|
      invariant fresh(union) && union.Valid() && Components(edges[..i], union.root)
    {
      assert edges[..i + 1] == edges[..i] + [edges[i]];
      union.Add(edges[..i], edges[i]);
    }
    assert edges[..|edges|] == edges;
  }

  /**
    The segments of one artifact's edges: connected components, numbered by first edge, and their members. Together
    the groups list every edge exactly once.
   */
  method NumberSegments(edges: seq<Edge>) returns (numbers: seq<nat>, groups: seq<seq<nat>>)
    ensures Separated(edges, numbers) && ByFirstEdge(numbers) && Grouped(numbers, groups)
  {
    hide Forest, Components, Connected, Named, ByFirstEdge, Grouped, Separated, Listing, GroupWith;
    var union := JoinAll(edges);
    ghost var root := union.root;
    var order: seq<int> := [];
    numbers, groups := [], [];
    NothingNumbered(edges, root);
    for i := 0 to |edges|
      invariant fresh(union) && union.Valid() && union.root == root
      invariant |numbers| == i && Named(edges, numbers, order, root)
      invariant ByFirstEdge(numbers) && Grouped(numbers, groups) && |groups| == |order|
    {
      SourceKnown(edges, root, i);
      var r := union.Find(edges[i].source);
      var n := IndexOf(order, r) + 1;
      NumberedMore(edges, numbers, groups, order, root, r, n);
      order, groups, numbers := Listing(order, r), GroupWith(groups, n, i), numbers + [n];
    }
    NamedSeparates(edges, numbers, order, root);
  }

  lemma NothingNumbered(edges: seq<Edge>, root: map<int, int>)
    ensures Named(edges, [], [], root) && ByFirstEdge([]) && Grouped([], [])
  {
  }

  lemma NumberedMore(edges: seq<Edge>, numbers: seq<nat>, groups: seq<seq<nat>>, order: seq<int>, root: map<int, int>, r: int, n: nat)
    requires Named(edges, numbers, order, root) && |numbers| < |edges| && n == IndexOf(order, r) + 1
    requires edges[|numbers|].source in root && r == root[edges[|numbers|].source]
    requires ByFirstEdge(numbers) && Grouped(numbers, groups) && |groups| == |order|
    ensures Named(edges, numbers + [n], Listing(order, r), root) && ByFirstEdge(numbers + [n])
    ensures Grouped(numbers + [n], GroupWith(groups, n, |numbers|)) && |GroupWith(groups, n, |numbers|)| == |Listing(order, r)|
  {
    FirstEdgeMore(numbers, n);
    GroupedMore(numbers, groups, n, GroupWith(groups, n, |numbers|));
    assert |GroupWith(groups, n, |numbers|)| == |Listing(order, r)|;
    NamedMore(edges, numbers, order, root, r);
  }

  /** The edge joins its group, or opens the next one. */
  function GroupWith(groups: seq<seq<nat>>, n: nat, i: nat): seq<seq<nat>>
    requires 1 <= n <= |groups| + 1
  {
    if n <= |groups| then groups[n - 1 := groups[n - 1] + [i]] else groups + [[i]]
  }

  lemma SourceKnown(edges: seq<Edge>, root: map<int, int>, i: nat)
    requires Components(edges, root) && i < |edges|
    ensures edges[i].source in root && WithNode(root, edges[i].source) == root
  {
  }

  // ---- all artifacts of a graph ----------------------------------------------------------------------------

  datatype Mark = Unmarked | Mark(artifact: int, number: nat, count: nat)

  /** The places of one artifact's edges. */
  function Places(edges: seq<Edge>, artifact: int): (places: seq<nat>)
    ensures forall k :: 0 <= k < |places| ==> places[k] < |edges| && edges[places[k]].artifact == artifact
  {
    if edges == [] then []
    else
      var last := |edges| - 1;
      Places(edges[..last], artifact) + if edges[last].artifact == artifact then [last] else []
  }

  lemma {:induction false} PlacesIncrease(edges: seq<Edge>, artifact: int)
    ensures var places := Places(edges, artifact);
      && (forall k, l :: 0 <= k < l < |places| ==> places[k] < places[l])
      && forall i :: 0 <= i < |edges| && edges[i].artifact == artifact ==> i in places
  {
    if edges != [] {
      var last := |edges| - 1;
      PlacesIncrease(edges[..last], artifact);
      var before, places := Places(edges[..last], artifact), Places(edges, artifact);
      forall i | 0 <= i < |edges| && edges[i].artifact == artifact
        ensures i in places
      {
        if i < last {
          assert edges[..last][i].artifact == artifact && i in before;
        }
      }
    }
  }

  /** The edges of one artifact alone. */
  function Own(edges: seq<Edge>, artifact: int): (own: seq<Edge>)
    ensures |own| == |Places(edges, artifact)|
    ensures forall k :: 0 <= k < |own| ==> own[k] == edges[Places(edges, artifact)[k]]
  {
    var places := Places(edges, artifact);
    seq(|places|, k requires 0 <= k < |places| => edges[places[k]])
  }

  /** An artifact's edges carry its segments: the same number exactly when a path of its edges links them. */
  ghost predicate Marked(edges: seq<Edge>, marks: seq<Mark>, artifact: int) {
    && |marks| == |edges|
    && (forall i :: 0 <= i < |edges| && edges[i].artifact == artifact ==>
          marks[i].Mark? && marks[i].artifact == artifact && 1 <= marks[i].number <= marks[i].count)
    && forall i, j :: 0 <= i < |edges| && 0 <= j < |edges| && edges[i].artifact == artifact && edges[j].artifact == artifact ==>
         marks[i].Mark? && marks[j].Mark? && marks[i].count == marks[j].count
         && (marks[i].number == marks[j].number <==> Connected(Own(edges, artifact), edges[i].source, edges[j].source))
  }

  lemma {:induction false} NumberAtMost(numbers: seq<nat>, i: nat)
    requires i < |numbers|
    ensures numbers[i] <= Highest(numbers)
  {
    if i < |numbers| - 1 {
      NumberAtMost(numbers[..|numbers| - 1], i);
    }
  }

  // ---- numbering is determined ---------------------------------------------------------------------------------

  lemma {:induction false} PositionsIs(numbers: seq<nat>, n: nat)
    ensures Ascending(PositionsOf(numbers, n))
    ensures forall k: nat :: k < |numbers| && numbers[k] == n ==> k in PositionsOf(numbers, n)
  {
    if numbers != [] {
      var last := |numbers| - 1;
      PositionsIs(numbers[..last], n);
      forall k: nat | k < |numbers| && numbers[k] == n
        ensures k in PositionsOf(numbers, n)
      {
        if k < last {
          assert numbers[..last][k] == n && k in PositionsOf(numbers[..last], n);
        }
      }
    }
  }

  ghost predicate Ascending(found: seq<nat>) {
    forall k, l :: 0 <= k < l < |found| ==> found[k] < found[l]
  }

  /** Numbers that separate the components and follow the first edges are the only ones that do. */
  lemma {:induction false} NumbersUnique(edges: seq<Edge>, a: seq<nat>, b: seq<nat>, n: nat)
    requires Separated(edges, a) && Separated(edges, b) && ByFirstEdge(a) && ByFirstEdge(b) && n <= |edges|
    ensures forall j :: 0 <= j < n ==> a[j] == b[j]
  {
    if n > 0 {
      NumbersUnique(edges, a, b, n - 1);
      SeparatedAlike(edges, a, b, n - 1);
      SameNext(a, b, n - 1);
    }
  }

  lemma SeparatedAlike(edges: seq<Edge>, a: seq<nat>, b: seq<nat>, k: nat)
    requires Separated(edges, a) && Separated(edges, b) && k < |edges|
    ensures forall j :: 0 <= j < k ==> (a[k] == a[j] <==> b[k] == b[j])
  {
    forall j | 0 <= j < k
      ensures a[k] == a[j] <==> b[k] == b[j]
    {
      assert a[k] == a[j] <==> Connected(edges, edges[k].source, edges[j].source);
      assert b[k] == b[j] <==> Connected(edges, edges[k].source, edges[j].source);
    }
  }

  lemma SameNext(a: seq<nat>, b: seq<nat>, k: nat)
    requires ByFirstEdge(a) && ByFirstEdge(b) && k < |a| && k < |b|
    requires forall j :: 0 <= j < k ==> a[j] == b[j] && (a[k] == a[j] <==> b[k] == b[j])
    ensures a[k] == b[k]
  {
    if a[k] < b[k] {
      var j := Earlier(b, a[k], k);
    } else if b[k] < a[k] {
      var j := Earlier(a, b[k], k);
    }
  }

  // ---- the segments of the whole graph ---------------------------------------------------------------------------

  /** Place `i` is the place of an edge with number `n`. */
  ghost predicate At(places: seq<nat>, numbers: seq<nat>, n: nat, i: nat) {
    exists k :: 0 <= k < |places| && k < |numbers| && places[k] == i && numbers[k] == n
  }

  /** A group of an artifact's own edges as places in the graph. */
  ghost predicate GroupIs(group: seq<nat>, places: seq<nat>, numbers: seq<nat>, n: nat) {
    group != [] && Ascending(group) && forall i: nat :: i in group <==> At(places, numbers, n, i)
  }

  ghost predicate Lifted(segments: seq<seq<nat>>, places: seq<nat>, numbers: seq<nat>) {
    |segments| == Highest(numbers) && forall g :: 0 <= g < |segments| ==> GroupIs(segments[g], places, numbers, g + 1)
  }

  /**
    The segments listed for an artifact: one for each number, with the edges of that number in the order of the graph,
    and ordered by their first edges. Every edge of the artifact says how many there are.
   */
  ghost predicate Segmented(edges: seq<Edge>, marks: seq<Mark>, artifact: int, segments: seq<seq<nat>>) {
    && Counted(edges, marks, artifact, |segments|) && InOrder(segments)
    && forall g :: 0 <= g < |segments| ==> SegmentIs(edges, marks, artifact, segments[g], g + 1)
  }

  ghost predicate Counted(edges: seq<Edge>, marks: seq<Mark>, artifact: int, count: nat) {
    |marks| == |edges| && forall i :: 0 <= i < |edges| && edges[i].artifact == artifact ==>
      marks[i].Mark? && marks[i].artifact == artifact && marks[i].count == count && 1 <= marks[i].number <= count
  }

  ghost predicate InOrder(segments: seq<seq<nat>>) {
    forall g, h :: 0 <= g < h < |segments| ==> StartsBefore(segments[g], segments[h])
  }

  predicate StartsBefore(a: seq<nat>, b: seq<nat>) {
    a != [] && b != [] && a[0] < b[0]
  }

  ghost predicate SegmentIs(edges: seq<Edge>, marks: seq<Mark>, artifact: int, segment: seq<nat>, n: nat) {
    && |marks| == |edges| && segment != [] && Ascending(segment)
    && forall i: nat :: i in segment <==> i < |edges| && edges[i].artifact == artifact && marks[i].Mark? && marks[i].number == n
  }

  /** The marks of an artifact's edges are its numbers. */
  ghost predicate Numbered(edges: seq<Edge>, marks: seq<Mark>, artifact: int, numbers: seq<nat>) {
    && |marks| == |edges| && Separated(Own(edges, artifact), numbers) && ByFirstEdge(numbers)
    && forall k :: 0 <= k < |numbers| ==> marks[Places(edges, artifact)[k]] == Mark(artifact, numbers[k], Highest(numbers))
  }

  /** An edge of the artifact has the number of its place. */
  lemma MarkedPlace(edges: seq<Edge>, marks: seq<Mark>, artifact: int, numbers: seq<nat>, i: nat) returns (k: nat)
    requires Numbered(edges, marks, artifact, numbers) && i < |edges| && edges[i].artifact == artifact
    ensures k < |numbers| == |Places(edges, artifact)| && Places(edges, artifact)[k] == i
    ensures marks[i] == Mark(artifact, numbers[k], Highest(numbers)) && 1 <= numbers[k] <= Highest(numbers)
  {
    PlacesIncrease(edges, artifact);
    var places := Places(edges, artifact);
    assert i in places;
    k :| 0 <= k < |places| && places[k] == i;
    NumberAtMost(numbers, k);
  }

  lemma LiftedSegment(edges: seq<Edge>, marks: seq<Mark>, artifact: int, numbers: seq<nat>, segment: seq<nat>, n: nat)
    requires Numbered(edges, marks, artifact, numbers) && GroupIs(segment, Places(edges, artifact), numbers, n)
    ensures SegmentIs(edges, marks, artifact, segment, n)
  {
    forall i: nat
      ensures At(Places(edges, artifact), numbers, n, i)
         <==> i < |edges| && edges[i].artifact == artifact && marks[i].Mark? && marks[i].number == n
    {
      PlaceHasNumber(edges, marks, artifact, numbers, n, i);
    }
  }

  lemma PlaceHasNumber(edges: seq<Edge>, marks: seq<Mark>, artifact: int, numbers: seq<nat>, n: nat, i: nat)
    requires Numbered(edges, marks, artifact, numbers)
    ensures At(Places(edges, artifact), numbers, n, i)
       <==> i < |edges| && edges[i].artifact == artifact && marks[i].Mark? && marks[i].number == n
  {
    PlacesIncrease(edges, artifact);
    if i < |edges| && edges[i].artifact == artifact {
      var k := MarkedPlace(edges, marks, artifact, numbers, i);
      OnePlace(Places(edges, artifact), i, k);
    }
  }

  lemma OnePlace(places: seq<nat>, i: nat, k: nat)
    requires Ascending(places) && k < |places| && places[k] == i
    ensures forall l :: 0 <= l < |places| && places[l] == i ==> l == k
  {
  }

  /** The group of a lower number starts first. */
  lemma LiftedOrder(places: seq<nat>, numbers: seq<nat>, a: seq<nat>, b: seq<nat>, g: nat, h: nat)
    requires |numbers| == |places| && Ascending(places) && ByFirstEdge(numbers) && 1 <= g < h
    requires GroupIs(a, places, numbers, g) && GroupIs(b, places, numbers, h)
    ensures StartsBefore(a, b)
  {
    assert b[0] in b && At(places, numbers, h, b[0]);
    var k :| 0 <= k < |places| && places[k] == b[0] && numbers[k] == h;
    var j := Earlier(numbers, g, k);
    assert At(places, numbers, g, places[j]);
    assert places[j] in a && places[j] < b[0];
  }

  lemma LiftedInOrder(places: seq<nat>, numbers: seq<nat>, segments: seq<seq<nat>>)
    requires |numbers| == |places| && Ascending(places) && ByFirstEdge(numbers) && Lifted(segments, places, numbers)
    ensures InOrder(segments)
  {
    forall g, h | 0 <= g < h < |segments|
      ensures StartsBefore(segments[g], segments[h])
    {
      LiftedOrder(places, numbers, segments[g], segments[h], g + 1, h + 1);
    }
  }

  lemma CountedFrom(edges: seq<Edge>, marks: seq<Mark>, artifact: int, numbers: seq<nat>)
    requires Numbered(edges, marks, artifact, numbers)
    ensures Counted(edges, marks, artifact, Highest(numbers))
  {
    forall i | 0 <= i < |edges| && edges[i].artifact == artifact
      ensures marks[i].Mark? && marks[i].artifact == artifact && marks[i].count == Highest(numbers) && 1 <= marks[i].number <= Highest(numbers)
    {
      var k := MarkedPlace(edges, marks, artifact, numbers, i);
    }
  }

  lemma SegmentedFrom(edges: seq<Edge>, marks: seq<Mark>, artifact: int, numbers: seq<nat>, segments: seq<seq<nat>>)
    requires Numbered(edges, marks, artifact, numbers) && Lifted(segments, Places(edges, artifact), numbers)
    ensures Segmented(edges, marks, artifact, segments)
  {
    CountedFrom(edges, marks, artifact, numbers);
    PlacesIncrease(edges, artifact);
    LiftedInOrder(Places(edges, artifact), numbers, segments);
    forall g | 0 <= g < |segments|
      ensures SegmentIs(edges, marks, artifact, segments[g], g + 1)
    {
      LiftedSegment(edges, marks, artifact, numbers, segments[g], g + 1);
    }
  }

  lemma MarkedFrom(edges: seq<Edge>, marks: seq<Mark>, artifact: int, numbers: seq<nat>)
    requires Numbered(edges, marks, artifact, numbers)
    ensures Marked(edges, marks, artifact)
  {
    forall i | 0 <= i < |edges| && edges[i].artifact == artifact
      ensures exists k :: 0 <= k < |numbers| && marks[i] == Mark(artifact, numbers[k], Highest(numbers))
                     && 1 <= numbers[k] <= Highest(numbers) && edges[i] == Own(edges, artifact)[k]
    {
      var k := MarkedPlace(edges, marks, artifact, numbers, i);
    }
  }

  /** Marking one artifact again, or another one, leaves the numbers of an artifact as they are. */
  lemma StillNumbered(edges: seq<Edge>, marks: seq<Mark>, next: seq<Mark>, artifact: int, numbers: seq<nat>, other: int, before: seq<nat>)
    requires Numbered(edges, marks, other, before) && Numbered(edges, next, artifact, numbers)
    requires forall i :: 0 <= i < |edges| && edges[i].artifact != artifact ==> next[i] == marks[i]
    ensures Numbered(edges, next, other, before)
  {
    if other == artifact {
      NumbersUnique(Own(edges, artifact), numbers, before, |numbers|);
      assert numbers == before;
    }
  }

  /** The first `n` artifacts are numbered and their segments listed; edges of no listed artifact are unmarked. */
  ghost predicate Annotated(edges: seq<Edge>, marks: seq<Mark>, artifacts: seq<int>, segments: seq<seq<seq<nat>>>, named: seq<seq<nat>>) {
    && |marks| == |edges| && |segments| == |named| <= |artifacts|
    && AllDone(edges, marks, artifacts[..|named|], segments, named)
    && Untouched(edges, marks, artifacts[..|named|])
  }

  ghost predicate AllDone(edges: seq<Edge>, marks: seq<Mark>, artifacts: seq<int>, segments: seq<seq<seq<nat>>>, named: seq<seq<nat>>) {
    && |segments| == |named| == |artifacts|
    && forall m :: 0 <= m < |artifacts| ==> ArtifactDone(edges, marks, artifacts[m], segments[m], named[m])
  }

  ghost predicate Untouched(edges: seq<Edge>, marks: seq<Mark>, artifacts: seq<int>) {
    |marks| == |edges| && forall i :: 0 <= i < |edges| && edges[i].artifact !in artifacts ==> marks[i] == Unmarked
  }

  ghost predicate ArtifactDone(edges: seq<Edge>, marks: seq<Mark>, artifact: int, segments: seq<seq<nat>>, numbers: seq<nat>) {
    && Numbered(edges, marks, artifact, numbers) && |numbers| == |Places(edges, artifact)|
    && Lifted(segments, Places(edges, artifact), numbers)
  }

  lemma StillDone(edges: seq<Edge>, marks: seq<Mark>, next: seq<Mark>, artifact: int, numbers: seq<nat>,
                  other: int, segments: seq<seq<nat>>, before: seq<nat>)
    requires ArtifactDone(edges, marks, other, segments, before) && Numbered(edges, next, artifact, numbers)
    requires forall i :: 0 <= i < |edges| && edges[i].artifact != artifact ==> next[i] == marks[i]
    ensures ArtifactDone(edges, next, other, segments, before)
  {
    StillNumbered(edges, marks, next, artifact, numbers, other, before);
  }

  lemma UntouchedMore(edges: seq<Edge>, marks: seq<Mark>, next: seq<Mark>, artifacts: seq<int>, artifact: int)
    requires Untouched(edges, marks, artifacts) && |next| == |edges|
    requires forall i :: 0 <= i < |edges| && edges[i].artifact != artifact ==> next[i] == marks[i]
    ensures Untouched(edges, next, artifacts + [artifact])
  {
    forall i | 0 <= i < |edges| && edges[i].artifact !in artifacts + [artifact]
      ensures next[i] == Unmarked
    {
      assert (artifacts + [artifact])[|artifacts|] == artifact;
      assert edges[i].artifact !in artifacts;
    }
  }

  /** One more artifact, possibly one that was listed before. */
  lemma AnnotatedMore(edges: seq<Edge>, marks: seq<Mark>, artifacts: seq<int>, segments: seq<seq<seq<nat>>>, named: seq<seq<nat>>,
                      next: seq<Mark>, own: seq<seq<nat>>, numbers: seq<nat>)
    requires Annotated(edges, marks, artifacts, segments, named) && |named| < |artifacts|
    requires ArtifactDone(edges, next, artifacts[|named|], own, numbers)
    requires forall i :: 0 <= i < |edges| && edges[i].artifact != artifacts[|named|] ==> next[i] == marks[i]
    ensures Annotated(edges, next, artifacts, segments + [own], named + [numbers])
  {
    var n := |named|;
    AllDoneMore(edges, marks, next, artifacts[..n], segments, named, artifacts[n], own, numbers);
    UntouchedMore(edges, marks, next, artifacts[..n], artifacts[n]);
    assert artifacts[..n + 1] == artifacts[..n] + [artifacts[n]];
  }

  lemma AllDoneMore(edges: seq<Edge>, marks: seq<Mark>, next: seq<Mark>, artifacts: seq<int>, segments: seq<seq<seq<nat>>>,
                    named: seq<seq<nat>>, artifact: int, own: seq<seq<nat>>, numbers: seq<nat>)
    requires AllDone(edges, marks, artifacts, segments, named) && ArtifactDone(edges, next, artifact, own, numbers) && |marks| == |edges|
    requires forall i :: 0 <= i < |edges| && edges[i].artifact != artifact ==> next[i] == marks[i]
    ensures AllDone(edges, next, artifacts + [artifact], segments + [own], named + [numbers])
  {
    forall m | 0 <= m < |artifacts|
      ensures ArtifactDone(edges, next, artifacts[m], segments[m], named[m])
    {
      StillDone(edges, marks, next, artifact, numbers, artifacts[m], segments[m], named[m]);
    }
  }

  lemma AnnotatedMeans(edges: seq<Edge>, marks: seq<Mark>, artifacts: seq<int>, segments: seq<seq<seq<nat>>>, named: seq<seq<nat>>)
    requires Annotated(edges, marks, artifacts, segments, named)
    ensures forall n :: 0 <= n < |named| ==> Marked(edges, marks, artifacts[n]) && Segmented(edges, marks, artifacts[n], segments[n])
  {
    forall n | 0 <= n < |named|
      ensures Marked(edges, marks, artifacts[n]) && Segmented(edges, marks, artifacts[n], segments[n])
    {
      assert ArtifactDone(edges, marks, artifacts[n], segments[n], named[n]);
      MarkedFrom(edges, marks, artifacts[n], named[n]);
      SegmentedFrom(edges, marks, artifacts[n], named[n], segments[n]);
    }
  }

  /**
    `annotate_segments`: each artifact's edges are marked on their own, others are left as they are, and each artifact
    lists its segments. An artifact that is named twice is treated the same both times.
   */
  method Annotate(artifacts: seq<int>, edges: seq<Edge>) returns (marks: seq<Mark>, segments: seq<seq<seq<nat>>>)
    ensures |marks| == |edges| && |segments| == |artifacts|
    ensures forall n :: 0 <= n < |artifacts| ==> Marked(edges, marks, artifacts[n]) && Segmented(edges, marks, artifacts[n], segments[n])
    ensures forall i :: 0 <= i < |edges| && edges[i].artifact !in artifacts ==> marks[i] == Unmarked
  {
    marks, segments := seq(|edges|, _ => Unmarked), [];
    ghost var named: seq<seq<nat>> := [];
    for n := 0 to |artifacts|
      invariant |named| == n && Annotated(edges, marks, artifacts, segments, named)
    {
      var numbers, groups := NumberSegments(Own(edges, artifacts[n]));
      var next := MarkOwn(edges, marks, artifacts[n], numbers);
      PlacesIncrease(edges, artifacts[n]);
      var own := ListSegments(Places(edges, artifacts[n]), numbers, groups);
      AnnotatedMore(edges, marks, artifacts, segments, named, next, own, numbers);
      marks, segments, named := next, segments + [own], named + [numbers];
    }
    assert artifacts[..|artifacts|] == artifacts;
    AnnotatedMeans(edges, marks, artifacts, segments, named);
  }

  /** The list of an artifact's segments, group by group and edge by edge. */
  method ListSegments(places: seq<nat>, numbers: seq<nat>, groups: seq<seq<nat>>) returns (segments: seq<seq<nat>>)
    requires Grouped(numbers, groups) && |numbers| == |places| && Ascending(places) && ByFirstEdge(numbers)
    ensures Lifted(segments, places, numbers)
  {
    segments := [];
    for g := 0 to |groups|
      invariant |segments| == g && forall h :: 0 <= h < g ==> GroupIs(segments[h], places, numbers, h + 1)
    {
      var group := ListGroup(places, numbers, groups[g], g + 1);
      segments := segments + [group];
    }
  }

  method ListGroup(places: seq<nat>, numbers: seq<nat>, group: seq<nat>, ghost n: nat) returns (listed: seq<nat>)
    requires group == PositionsOf(numbers, n) && |numbers| == |places| && Ascending(places)
    requires ByFirstEdge(numbers) && 1 <= n <= Highest(numbers)
    ensures GroupIs(listed, places, numbers, n)
  {
    listed := [];
    for m := 0 to |group|
      invariant |listed| == m && forall l :: 0 <= l < m ==> listed[l] == places[group[l]]
    {
      listed := listed + [places[group[m]]];
    }
    GroupFrom(listed, places, numbers, group, n);
  }

  lemma GroupFrom(listed: seq<nat>, places: seq<nat>, numbers: seq<nat>, group: seq<nat>, n: nat)
    requires group == PositionsOf(numbers, n) && |numbers| == |places| && Ascending(places)
    requires ByFirstEdge(numbers) && 1 <= n <= Highest(numbers)
    requires |listed| == |group| && forall l :: 0 <= l < |listed| ==> listed[l] == places[group[l]]
    ensures GroupIs(listed, places, numbers, n)
  {
    PositionsIs(numbers, n);
    var first := Reached(numbers, n);
    assert first in group;
    forall i: nat
      ensures i in listed <==> At(places, numbers, n, i)
    {
      if i in listed {
        var l :| 0 <= l < |listed| && listed[l] == i;
        assert places[group[l]] == i && numbers[group[l]] == n;
      }
      if At(places, numbers, n, i) {
        var k :| 0 <= k < |places| && places[k] == i && numbers[k] == n;
        assert k in group;
        var l :| 0 <= l < |group| && group[l] == k;
        assert listed[l] == i;
      }
    }
  }

  method MarkOwn(edges: seq<Edge>, marks: seq<Mark>, artifact: int, numbers: seq<nat>) returns (next: seq<Mark>)
    requires |marks| == |edges| && |numbers| == |Places(edges, artifact)|
    ensures |next| == |edges| && forall i :: 0 <= i < |edges| && edges[i].artifact != artifact ==> next[i] == marks[i]
    ensures forall k :: 0 <= k < |numbers| ==> next[Places(edges, artifact)[k]] == Mark(artifact, numbers[k], Highest(numbers))
  {
    var places := Places(edges, artifact);
    PlacesIncrease(edges, artifact);
    next := marks;
    for k := 0 to |places|
      invariant |next| == |edges| && forall i :: 0 <= i < |edges| && edges[i].artifact != artifact ==> next[i] == marks[i]
      invariant forall l :: 0 <= l < k ==> next[places[l]] == Mark(artifact, numbers[l], Highest(numbers))
    {
      next := next[places[k] := Mark(artifact, numbers[k], Highest(numbers))];
    }
  }
}
