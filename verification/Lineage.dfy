/** The graph algorithms of the lineage engine: closure, depth-bounded search and
    shortest path over a fixed snapshot of edges. */
module Lineage {
  import opened Domain
  import opened Seqs
  import opened Reachability

  type AdjacencyMap = map<Id, seq<Id>>

  function PairsOf(edges: seq<(Id, Id)>): Edges {
    set e | e in edges
  }

  function Reverse(E: Edges): Edges {
    set e | e in E :: (e.1, e.0)
  }

  /** `adjacency.get(node, ())` */
  function Neighbors(adj: AdjacencyMap, n: Id): seq<Id> {
    if n in adj then adj[n] else []
  }

  ghost predicate Represents(adj: AdjacencyMap, E: Edges) {
    forall n, m :: (n, m) in E <==> m in Neighbors(adj, n)
  }

  /** Adjacency lists, targets sorted and without duplicates. */
  method BuildAdjacency(edges: seq<(Id, Id)>, reverse: bool) returns (adj: AdjacencyMap)
    ensures Represents(adj, if reverse then Reverse(PairsOf(edges)) else PairsOf(edges))
    ensures forall n :: Ascending(Neighbors(adj, n))
  {
    var raw: AdjacencyMap := map[];
    for i := 0 to |edges|
      invariant forall n, m :: m in Neighbors(raw, n) <==> (if reverse then (m, n) else (n, m)) in edges[..i]
    {
      var (src, dst) := if reverse then (edges[i].1, edges[i].0) else edges[i];
      assert edges[..i + 1] == edges[..i] + [edges[i]];
      raw := raw[src := Neighbors(raw, src) + [dst]];
    }
    assert edges[..|edges|] == edges;
    adj := map n | n in raw :: SortUnique(raw[n]);
    forall n ensures Ascending(Neighbors(adj, n)) {
      if n in raw {
        SortUniqueAscends(raw[n]);
      }
    }
    forall n, m ensures m in Neighbors(adj, n) <==> m in Neighbors(raw, n) {
    }
    assert reverse ==> forall n, m :: (n, m) in Reverse(PairsOf(edges)) <==> (m, n) in edges;
  }

  function Nodes(t: Trail): seq<Id> {
    seq(|t|, i requires 0 <= i < |t| => t[i].0)
  }

  lemma NodesSeen(t: Trail, n: Id)
    ensures n in Nodes(t) <==> Seen(t, n)
  {
    if n in Nodes(t) {
      var i :| 0 <= i < |t| && Nodes(t)[i] == n;
      assert t[i].0 == n;
    }
    if Seen(t, n) {
      var i :| 0 <= i < |t| && t[i].0 == n;
      assert Nodes(t)[i] == n;
    }
  }

  /** The running state of a search: the trail is layered and `visited` holds
      exactly the nodes on it. */
  ghost predicate Searching(E: Edges, roots: set<Id>, cap: Option<nat>, queue: Trail, visited: set<Id>, head: nat) {
    && Layered(E, roots, cap, queue, head)
    && forall n :: n in visited <==> Seen(queue, n)
  }

  ghost function Universe(E: Edges, roots: set<Id>): set<Id> {
    roots + set e | e in E :: e.1
  }

  /** Depth-bounded closure: a queue of (node, depth) walked by a moving head. The
      answer is, in ascending order, exactly the nodes some path of at most
      `maxDepth` steps reaches; the roots themselves drop out on request. */
  method Bfs(adj: AdjacencyMap, roots: seq<Id>, includeRoots: bool, maxDepth: Option<nat>, ghost E: Edges)
    returns (r: Result<seq<Id>>)
    requires Represents(adj, E)
    ensures r.Err? <==> roots == []
    ensures r.Err? ==> r.fault == NoRoots
    ensures r.Ok? ==> Ascending(r.value)
    ensures r.Ok? ==> forall n :: n in r.value <==>
              Reachable(E, Elements(roots), n, maxDepth) && (includeRoots || n !in Elements(roots))
  {
    var normalized := SortUnique(roots);
    SortUniqueAscends(roots);
    assert roots != [] ==> roots[0] in normalized;
    if normalized == [] {
      return Err(NoRoots);
    }
    assert Elements(normalized) == Elements(roots);
    var queue := Search(adj, normalized, maxDepth, E);
    CollectedIsReachable(E, Elements(roots), maxDepth, queue, includeRoots, normalized);
    return Ok(Collected(queue, includeRoots, normalized));
  }

  method Search(adj: AdjacencyMap, roots: seq<Id>, cap: Option<nat>, ghost E: Edges) returns (queue: seq<(Id, nat)>)
    requires Represents(adj, E) && Distinct(roots)
    ensures Layered(E, Elements(roots), cap, queue, |queue|)
  {
    queue := AtDepthZero(roots);
    var visited: map<Id, nat> := map n | n in roots :: 0;
    ghost var R := Elements(roots);
    SearchBegins(E, roots, cap, visited.Keys);
    var head := 0;
    TrailFits(E, R, cap, queue, visited.Keys, head);
    while head < |queue|
      invariant head <= |queue|
      invariant Searching(E, R, cap, queue, visited.Keys, head)
      invariant |queue| <= |Universe(E, R)|
      decreases |Universe(E, R)| - head
    {
      var (node, depth) := queue[head];
      if cap.None? || depth < cap.value {
        queue, visited := Expand(adj, queue, visited, head, cap, E, R);
      }
      MoveHead(E, R, cap, queue, head);
      head := head + 1;
      TrailFits(E, R, cap, queue, visited.Keys, head);
    }
  }

  /** `sorted(visited)`, less the roots when they are not wanted. */
  function Collected(queue: Trail, includeRoots: bool, roots: seq<Id>): seq<Id> {
    if includeRoots then SortUnique(Nodes(queue)) else Without(SortUnique(Nodes(queue)), roots)
  }

  lemma CollectedIsReachable(E: Edges, R: set<Id>, cap: Option<nat>, queue: Trail, includeRoots: bool, roots: seq<Id>)
    requires Layered(E, R, cap, queue, |queue|)
    requires Elements(roots) == R
    ensures Ascending(Collected(queue, includeRoots, roots))
    ensures forall n :: n in Collected(queue, includeRoots, roots) <==>
              Reachable(E, R, n, cap) && (includeRoots || n !in R)
  {
    Finished(E, R, cap, queue);
    SortUniqueAscends(Nodes(queue));
    WithoutAscends(SortUnique(Nodes(queue)), roots);
    forall n ensures n in Nodes(queue) <==> Reachable(E, R, n, cap) {
      NodesSeen(queue, n);
    }
    assert forall n :: n in roots <==> n in R;
  }

  /** Expanding one node: every neighbour not yet visited is queued one layer on. */
  method Expand(adj: AdjacencyMap, queue: seq<(Id, nat)>, visited: map<Id, nat>, head: nat,
                cap: Option<nat>, ghost E: Edges, ghost roots: set<Id>)
    returns (queue': seq<(Id, nat)>, visited': map<Id, nat>)
    requires Represents(adj, E)
    requires head < |queue| && Searching(E, roots, cap, queue, visited.Keys, head) && !AtCap(queue[head].1, cap)
    ensures Searching(E, roots, cap, queue', visited'.Keys, head)
    ensures head < |queue'| && queue'[head] == queue[head]
    ensures Expanded(E, queue', queue[head].0)
  {
    queue', visited' := queue, visited;
    var (node, depth) := queue[head];
    var neighbors := Neighbors(adj, node);
    for i := 0 to |neighbors|
      invariant head < |queue'| && queue'[head] == queue[head]
      invariant Searching(E, roots, cap, queue', visited'.Keys, head)
      invariant forall j :: 0 <= j < i ==> neighbors[j] in visited'
    {
      var neighbor := neighbors[i];
      if neighbor !in visited' {
        DiscoverKeeps(adj, E, roots, cap, queue', visited'.Keys, head, neighbor);
        assert visited'[neighbor := depth + 1].Keys == visited'.Keys + {neighbor};
        visited' := visited'[neighbor := depth + 1];
        queue' := queue' + [(neighbor, depth + 1)];
      }
    }
    forall m | (node, m) in E ensures Seen(queue', m) {
      assert m in neighbors;
      assert m in visited';
    }
  }

  lemma DiscoverKeeps(adj: AdjacencyMap, E: Edges, roots: set<Id>, cap: Option<nat>,
                      queue: Trail, visited: set<Id>, head: nat, n: Id)
    requires Represents(adj, E)
    requires head < |queue| && Searching(E, roots, cap, queue, visited, head) && !AtCap(queue[head].1, cap)
    requires n in Neighbors(adj, queue[head].0) && n !in visited
    ensures Searching(E, roots, cap, queue + [(n, queue[head].1 + 1)], visited + {n}, head)
  {
    Discover(E, roots, cap, queue, head, n);
    SeenAppend(queue, n, queue[head].1 + 1);
  }

  lemma SeenAppend(t: Trail, n: Id, d: nat)
    ensures forall m :: Seen(t + [(n, d)], m) <==> m == n || Seen(t, m)
  {
    var u := t + [(n, d)];
    forall m ensures Seen(u, m) <==> m == n || Seen(t, m) {
      assert u[|t|].0 == n;
      if Seen(t, m) {
        var i :| 0 <= i < |t| && t[i].0 == m;
        assert u[i].0 == m;
      }
    }
  }

  function AtDepthZero(roots: seq<Id>): Trail {
    seq(|roots|, i requires 0 <= i < |roots| => (roots[i], 0))
  }

  lemma SearchBegins(E: Edges, roots: seq<Id>, cap: Option<nat>, visited: set<Id>)
    requires Distinct(roots)
    requires forall n :: n in visited <==> n in roots
    ensures Searching(E, Elements(roots), cap, AtDepthZero(roots), visited, 0)
  {
    var queue := AtDepthZero(roots);
    Begin(E, roots, cap, queue);
    forall n ensures n in visited <==> Seen(queue, n) {
      if n in roots {
        var i :| 0 <= i < |roots| && roots[i] == n;
        assert queue[i].0 == n;
      }
    }
  }

  /** A trail never repeats a node, so it is no longer than the graph is large. */
  lemma TrailFits(E: Edges, roots: set<Id>, cap: Option<nat>, queue: Trail, visited: set<Id>, head: nat)
    requires Searching(E, roots, cap, queue, visited, head)
    ensures |queue| <= |Universe(E, roots)|
  {
    forall i | 0 <= i < |queue| ensures queue[i].0 in Universe(E, roots) {
      assert Exact(E, roots, queue[i]);
    }
    PigeonHole(Nodes(queue), Universe(E, roots));
  }

  lemma {:induction false} PigeonHole(s: seq<Id>, u: set<Id>)
    requires Distinct(s) && forall i :: 0 <= i < |s| ==> s[i] in u
    ensures |s| <= |u|
  {
    if s != [] {
      var k := |s| - 1;
      PigeonHole(s[..k], u - {s[k]});
    }
  }

  function Without(s: seq<Id>, drop: seq<Id>): (r: seq<Id>)
    ensures forall n :: n in r <==> n in s && n !in drop
  {
    if s == [] then []
    else
      assert s == [s[0]] + s[1..];
      (if s[0] in drop then [] else [s[0]]) + Without(s[1..], drop)
  }

  lemma {:induction false} WithoutAscends(s: seq<Id>, drop: seq<Id>)
    requires Ascending(s)
    ensures Ascending(Without(s, drop))
  {
    if s != [] {
      WithoutAscends(s[1..], drop);
      var rest := Without(s[1..], drop);
      forall i | 0 <= i < |rest| ensures s[0] < rest[i] {
        assert rest[i] in s[1..];
      }
    }
  }

  /** The deque holds the nodes of the trail from `k` on. */
  ghost predicate Waiting(deque: seq<Id>, t: Trail, k: nat) {
    |deque| + k == |t| && forall i :: 0 <= i < |deque| ==> deque[i] == t[k + i].0
  }

  lemma RootsWait(roots: seq<Id>)
    ensures Waiting(roots, AtDepthZero(roots), 0)
  {
  }

  lemma WaitingPop(deque: seq<Id>, t: Trail, k: nat)
    requires Waiting(deque, t, k) && deque != []
    ensures k < |t| && deque[0] == t[k].0 && Waiting(deque[1..], t, k + 1)
  {
  }

  lemma NoneWaiting(t: Trail, k: nat)
    requires Waiting([], t, k)
    ensures k == |t|
  {
  }

  lemma WaitingPush(deque: seq<Id>, t: Trail, k: nat, n: Id, d: nat)
    requires Waiting(deque, t, k)
    ensures Waiting(deque + [n], t + [(n, d)], k)
  {
  }

  // ----- unbounded closure with a double-ended queue

  /** Transitive closure. The deque holds the discovered nodes not yet expanded;
      `order` lists every discovered node, in the order of discovery. */
  method Closure(adj: AdjacencyMap, roots: seq<Id>, includeRoots: bool, ghost E: Edges)
    returns (r: Result<seq<Id>>)
    requires Represents(adj, E)
    ensures r.Err? <==> roots == []
    ensures r.Err? ==> r.fault == NoRoots
    ensures r.Ok? ==> Ascending(r.value)
    ensures r.Ok? ==> forall n :: n in r.value <==>
              Reachable(E, Elements(roots), n, None) && (includeRoots || n !in Elements(roots))
  {
    var normalized := SortUnique(roots);
    SortUniqueAscends(roots);
    assert roots != [] ==> roots[0] in normalized;
    if normalized == [] {
      return Err(NoRoots);
    }
    assert Elements(normalized) == Elements(roots);
    var order, trail := Drain(adj, normalized, E);
    assert order == Nodes(trail);
    CollectedIsReachable(E, Elements(roots), None, trail, includeRoots, normalized);
    return Ok(if includeRoots then SortUnique(order) else Without(SortUnique(order), normalized));
  }

  method Drain(adj: AdjacencyMap, roots: seq<Id>, ghost E: Edges) returns (order: seq<Id>, ghost trail: Trail)
    requires Represents(adj, E) && Distinct(roots)
    ensures Layered(E, Elements(roots), None, trail, |trail|)
    ensures Waiting(order, trail, 0)
  {
    hide Layered, AtDepthZero, Waiting;
    ghost var R := Elements(roots);
    var visited, deque := (set n | n in roots), roots;
    trail := AtDepthZero(roots);
    order := roots;
    RootsWait(roots);
    SearchBegins(E, roots, None, visited);
    ghost var head := 0;
    TrailFits(E, R, None, trail, visited, head);
    while deque != []
      invariant |trail| <= |Universe(E, R)|
      invariant Waiting(order, trail, 0) && Waiting(deque, trail, head)
      invariant Searching(E, R, None, trail, visited, head)
      decreases |Universe(E, R)| - head
    {
      var node := deque[0];
      WaitingPop(deque, trail, head);
      deque, visited, order, trail := PushNeighbors(adj, node, deque[1..], visited, order, trail, head, E, R);
      MoveHead(E, R, None, trail, head);
      head := head + 1;
      TrailFits(E, R, None, trail, visited, head);
    }
    NoneWaiting(trail, head);
  }

  method PushNeighbors(adj: AdjacencyMap, node: Id, deque: seq<Id>, visited: set<Id>, order: seq<Id>, ghost trail: Trail,
                       ghost head: nat, ghost E: Edges, ghost R: set<Id>)
    returns (deque': seq<Id>, visited': set<Id>, order': seq<Id>, ghost trail': Trail)
    requires Represents(adj, E)
    requires head < |trail| && Searching(E, R, None, trail, visited, head)
    requires Waiting(order, trail, 0) && Waiting(deque, trail, head + 1) && node == trail[head].0
    ensures Searching(E, R, None, trail', visited', head)
    ensures head < |trail'| && Expanded(E, trail', trail'[head].0)
    ensures Waiting(order', trail', 0) && Waiting(deque', trail', head + 1)
  {
    hide Layered, Waiting;
    deque', visited', order', trail' := deque, visited, order, trail;
    ghost var next := trail[head].1 + 1;
    var neighbors := Neighbors(adj, node);
    for i := 0 to |neighbors|
      invariant head < |trail'| && trail'[head] == trail[head]
      invariant Searching(E, R, None, trail', visited', head)
      invariant Waiting(order', trail', 0) && Waiting(deque', trail', head + 1)
      invariant forall j :: 0 <= j < i ==> neighbors[j] in visited'
    {
      var neighbor := neighbors[i];
      if neighbor !in visited' {
        DiscoverKeeps(adj, E, R, None, trail', visited', head, neighbor);
        WaitingPush(order', trail', 0, neighbor, next);
        WaitingPush(deque', trail', head + 1, neighbor, next);
        visited' := visited' + {neighbor};
        deque' := deque' + [neighbor];
        order' := order' + [neighbor];
        trail' := trail' + [(neighbor, next)];
      }
    }
    forall m | (node, m) in E ensures Seen(trail', m) {
      assert m in neighbors;
    }
  }

  /** More edges never reach less. */
  lemma ReachableGrows(E: Edges, F: Edges, roots: set<Id>, n: Id, cap: Option<nat>)
    requires E <= F && Reachable(E, roots, n, cap)
    ensures Reachable(F, roots, n, cap)
  {
    var p :| Leads(E, roots, p, n) && WithinCap(|p| - 1, cap);
    assert Leads(F, roots, p, n);
  }

  /** The depth-bounded search without a bound and the closure list the same nodes in
      the same order. */
  method CompareSearches(adj: AdjacencyMap, roots: seq<Id>, includeRoots: bool, ghost E: Edges)
    returns (bounded: Result<seq<Id>>, closed: Result<seq<Id>>)
    requires Represents(adj, E)
    ensures bounded == closed
  {
    bounded := Bfs(adj, roots, includeRoots, None, E);
    closed := Closure(adj, roots, includeRoots, E);
    if roots != [] {
      AscendingDetermined(bounded.value, closed.value);
    }
  }

  /** `has_cycle_through` asks for the node among its own descendants with the roots
      left out, so it never finds one. */
  method HasCycleThrough(adj: AdjacencyMap, node: Id, ghost E: Edges) returns (r: bool)
    requires Represents(adj, E)
    ensures !r
  {
    var below := Bfs(adj, [node], false, None, E);
    r := node in below.value;
  }
}
