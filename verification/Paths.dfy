/** Shortest path by parent pointers, and the three-colour cycle test. */
module Paths {
  import opened Domain
  import opened Seqs
  import opened Reachability
  import opened Lineage

  // ----- shortest path

  /** Every discovered node but the source has a parent discovered before it, one
      layer closer, with an edge between the two. */
  ghost predicate ParentsPoint(E: Edges, t: Trail, parent: map<Id, Id>) {
    forall i :: 0 <= i < |t| && t[i].1 > 0 ==> t[i].0 in parent && HasParent(E, t, i, parent[t[i].0])
  }

  ghost predicate HasParent(E: Edges, t: Trail, i: nat, m: Id)
    requires i < |t|
  {
    (m, t[i].0) in E && exists j :: 0 <= j < i && t[j].0 == m && t[j].1 + 1 == t[i].1
  }

  lemma ParentsExtend(E: Edges, t: Trail, parent: map<Id, Id>, head: nat, n: Id)
    requires head < |t| && (t[head].0, n) in E && !Seen(t, n)
    requires ParentsPoint(E, t, parent)
    ensures ParentsPoint(E, t + [(n, t[head].1 + 1)], parent[n := t[head].0])
  {
    var u, p' := t + [(n, t[head].1 + 1)], parent[n := t[head].0];
    forall i | 0 <= i < |u| && u[i].1 > 0 ensures u[i].0 in p' && HasParent(E, u, i, p'[u[i].0]) {
      if i < |t| {
        assert t[i].0 != n;
        assert HasParent(E, t, i, parent[t[i].0]);
        var j :| 0 <= j < i && t[j].0 == parent[t[i].0] && t[j].1 + 1 == t[i].1;
        assert u[j] == t[j];
      } else {
        assert u[head] == t[head];
      }
    }
  }

  /** Walks the parent pointers back from `target` and turns the walk around. */
  method Reconstruct(source: Id, target: Id, parent: map<Id, Id>, ghost E: Edges, ghost t: Trail, ghost at: nat)
    returns (nodes: seq<Id>)
    requires exists h :: Layered(E, {source}, None, t, h)
    requires ParentsPoint(E, t, parent)
    requires at < |t| && t[at].0 == target
    ensures Leads(E, {source}, nodes, target) && |nodes| == t[at].1 + 1
  {
    hide Layered;
    nodes := [target];
    var cur := target;
    ghost var i: nat := at;
    forall k | 0 <= k < |t| ensures t[k].1 == 0 <==> t[k].0 == source {
      SourceIsDepthZero(E, source, t, k);
    }
    while cur != source
      invariant i < |t| && t[i].0 == cur
      invariant IsPath(E, nodes) && nodes[0] == cur && nodes[|nodes| - 1] == target
      invariant |nodes| + t[i].1 == t[at].1 + 1
      decreases i
    {
      assert HasParent(E, t, i, parent[cur]);
      ghost var j :| 0 <= j < i && t[j].0 == parent[cur] && t[j].1 + 1 == t[i].1;
      nodes := [parent[cur]] + nodes;
      cur := parent[cur];
      i := j;
    }
  }

  lemma SourceIsDepthZero(E: Edges, source: Id, t: Trail, k: nat)
    requires exists h :: Layered(E, {source}, None, t, h)
    requires k < |t|
    ensures t[k].1 == 0 <==> t[k].0 == source
  {
    var h :| Layered(E, {source}, None, t, h);
    assert Exact(E, {source}, t[k]);
    if t[k].1 > 0 && t[k].0 == source {
      BallGrows(E, {source}, 0, t[k].1 - 1);
    }
  }

  /** The state of the search for `target`: not met yet, and every discovered
      node can be traced back to the source. */
  ghost predicate Hunting(E: Edges, source: Id, t: Trail, visited: set<Id>, parent: map<Id, Id>, head: nat) {
    && Searching(E, {source}, None, t, visited, head)
    && ParentsPoint(E, t, parent)
  }

  lemma HuntOn(adj: AdjacencyMap, E: Edges, source: Id, t: Trail, visited: set<Id>, parent: map<Id, Id>, head: nat,
               node: Id, next: nat, n: Id)
    requires Represents(adj, E)
    requires head < |t| && Hunting(E, source, t, visited, parent, head)
    requires t[head].0 == node && t[head].1 + 1 == next
    requires n in Neighbors(adj, node) && n !in visited
    ensures Hunting(E, source, t + [(n, next)], visited + {n}, parent[n := node], head)
    ensures forall m :: Seen(t + [(n, next)], m) <==> m == n || Seen(t, m)
  {
    DiscoverKeeps(adj, E, {source}, None, t, visited, head, n);
    ParentsExtend(E, t, parent, head, n);
    SeenAppend(t, n, t[head].1 + 1);
  }

  lemma HuntBegins(E: Edges, source: Id)
    ensures Hunting(E, source, [(source, 0)], {source}, map[], 0)
  {
    assert Elements([source]) == {source};
    assert AtDepthZero([source]) == [(source, 0)];
    SearchBegins(E, [source], None, {source});
  }

  /** Breadth-first search with an early exit. No path is returned exactly when
      there is none; otherwise it is a path, and no other is shorter. */
  method ShortestPath(adj: AdjacencyMap, source: Id, target: Id, ghost E: Edges) returns (r: Option<seq<Id>>)
    requires Represents(adj, E)
    ensures r.None? <==> !Reachable(E, {source}, target, None)
    ensures r.Some? ==> Leads(E, {source}, r.value, target)
    ensures r.Some? ==> forall p :: Leads(E, {source}, p, target) ==> |r.value| <= |p|
  {
    if source == target {
      assert Leads(E, {source}, [source], target) && WithinCap(0, None);
      return Some([source]);
    }
    var visited, deque, parent := {source}, [source], map[];
    ghost var t: Trail, head: nat := [(source, 0)], 0;
    HuntBegins(E, source);
    TrailFits(E, {source}, None, t, visited, head);
    while deque != []
      invariant Waiting(deque, t, head) && |t| <= |Universe(E, {source})|
      invariant Hunting(E, source, t, visited, parent, head)
      invariant !Seen(t, target)
      decreases |Universe(E, {source})| - head
    {
      var node := deque[0];
      var found;
      deque, visited, parent, found, t := Step(adj, node, deque[1..], visited, parent, target, t, head, E, source);
      if found {
        r := Arrive(source, target, parent, E, t, head);
        return;
      }
      MoveHead(E, {source}, None, t, head);
      head := head + 1;
      TrailFits(E, {source}, None, t, visited, head);
    }
    Finished(E, {source}, None, t);
    return None;
  }

  method Arrive(source: Id, target: Id, parent: map<Id, Id>, ghost E: Edges, ghost t: Trail, ghost head: nat)
    returns (r: Option<seq<Id>>)
    requires Layered(E, {source}, None, t, head) && ParentsPoint(E, t, parent) && Seen(t, target)
    ensures r.Some? && Leads(E, {source}, r.value, target)
    ensures Reachable(E, {source}, target, None)
    ensures forall p :: Leads(E, {source}, p, target) ==> |r.value| <= |p|
  {
    ghost var at: nat :| at < |t| && t[at].0 == target;
    var nodes := Reconstruct(source, target, parent, E, t, at);
    forall p | Leads(E, {source}, p, target) ensures |nodes| <= |p| {
      DepthIsDistance(E, {source}, None, t, head, at, p);
    }
    assert WithinCap(|nodes| - 1, None);
    return Some(nodes);
  }

  method Step(adj: AdjacencyMap, node: Id, deque: seq<Id>, visited: set<Id>, parent: map<Id, Id>, target: Id,
              ghost t: Trail, ghost head: nat, ghost E: Edges, ghost source: Id)
    returns (deque': seq<Id>, visited': set<Id>, parent': map<Id, Id>, found: bool, ghost t': Trail)
    requires Represents(adj, E)
    requires head < |t| && Hunting(E, source, t, visited, parent, head) && !Seen(t, target)
    requires Waiting(deque, t, head + 1) && node == t[head].0
    ensures head < |t'| && Hunting(E, source, t', visited', parent', head)
    ensures found <==> Seen(t', target)
    ensures !found ==> Expanded(E, t', t'[head].0) && Waiting(deque', t', head + 1)
  {
    deque', visited', parent', found, t' := deque, visited, parent, false, t;
    ghost var next := t[head].1 + 1;
    var neighbors := Neighbors(adj, node);
    for i := 0 to |neighbors|
      invariant head < |t'| && t'[head] == t[head]
      invariant Hunting(E, source, t', visited', parent', head)
      invariant Waiting(deque', t', head + 1)
      invariant !found && !Seen(t', target)
      invariant forall j :: 0 <= j < i ==> neighbors[j] in visited'
    {
      var neighbor := neighbors[i];
      if neighbor !in visited' {
        HuntOn(adj, E, source, t', visited', parent', head, node, next, neighbor);
        visited' := visited' + {neighbor};
        parent' := parent'[neighbor := node];
        t' := t' + [(neighbor, next)];
        if neighbor == target {
          found := true;
          return;
        }
        deque' := deque' + [neighbor];
      }
    }
    forall m | (node, m) in E ensures Seen(t', m) {
      assert m in neighbors;
    }
  }
}
