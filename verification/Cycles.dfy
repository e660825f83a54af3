/** The three-colour depth-first cycle test, with one colour map shared by every
    start node. */
module Cycles {
  import opened Domain
  import opened Reachability
  import opened Lineage

  datatype Color = White | Gray | Black

  type Coloring = map<Id, Color>

  predicate Is(color: Coloring, n: Id, c: Color) {
    n in color && color[n] == c
  }

  ghost function Whites(color: Coloring): set<Id> {
    set n | n in color && color[n] == White
  }

  ghost predicate Covers(color: Coloring, E: Edges) {
    forall n, m :: (n, m) in E ==> n in color && m in color
  }

  /** Everything a black node leads to is black, and no black node is on a cycle. */
  ghost predicate Finishes(E: Edges, color: Coloring) {
    && (forall n, m :: (n, m) in E && Is(color, n, Black) ==> Is(color, m, Black))
    && (forall n :: Is(color, n, Black) ==> !OnCycle(E, n))
  }

  /** The gray nodes are the ones on the path the recursion is following. */
  ghost predicate Stack(E: Edges, color: Coloring, stack: seq<Id>) {
    && (forall i :: 0 <= i < |stack| - 1 ==> (stack[i], stack[i + 1]) in E)
    && (forall n :: Is(color, n, Gray) <==> n in stack)
  }

  ghost predicate Ready(E: Edges, color: Coloring, stack: seq<Id>) {
    Covers(color, E) && Finishes(E, color) && Stack(E, color, stack)
  }

  /** A step only ever turns white nodes black. */
  ghost predicate Darkens(before: Coloring, after: Coloring) {
    && before.Keys == after.Keys
    && forall n :: n in before ==> after[n] == before[n] || (before[n] == White && after[n] == Black)
  }

  lemma {:induction false} BlackPath(E: Edges, color: Coloring, p: seq<Id>)
    requires IsPath(E, p) && Finishes(E, color) && Is(color, p[0], Black)
    ensures Is(color, p[|p| - 1], Black)
    decreases |p|
  {
    if |p| > 1 {
      assert (p[0], p[1]) in E;
      BlackPath(E, color, p[1..]);
    }
  }

  lemma Blacken(E: Edges, color: Coloring, stack: seq<Id>, node: Id)
    requires Ready(E, color, stack + [node]) && node !in stack
    requires forall m :: (node, m) in E ==> Is(color, m, Black)
    ensures Ready(E, color[node := Black], stack)
  {
    var after := color[node := Black];
    assert node in stack + [node];
    if OnCycle(E, node) {
      var p :| Leads(E, {node}, p, node) && |p| > 1;
      assert (p[0], p[1]) in E;
      BlackPath(E, color, p[1..]);
      assert false;
    }
    forall i | 0 <= i < |stack| - 1 ensures (stack[i], stack[i + 1]) in E {
      assert (stack + [node])[i] == stack[i] && (stack + [node])[i + 1] == stack[i + 1];
    }
    forall n ensures Is(after, n, Gray) <==> n in stack {
      assert n in stack + [node] <==> n in stack || n == node;
    }
  }

  lemma BackEdge(E: Edges, color: Coloring, stack: seq<Id>, n: Id)
    requires Stack(E, color, stack) && stack != []
    requires Is(color, n, Gray) && (stack[|stack| - 1], n) in E
    ensures OnCycle(E, n)
  {
    var k :| 0 <= k < |stack| && stack[k] == n;
    var p := stack[k..] + [n];
    assert Leads(E, {n}, p, n);
  }

  lemma Enter(E: Edges, color: Coloring, stack: seq<Id>, node: Id)
    requires Ready(E, color, stack) && Is(color, node, White)
    requires stack != [] ==> (stack[|stack| - 1], node) in E
    ensures Ready(E, color[node := Gray], stack + [node])
    ensures node !in stack
  {
    var after := color[node := Gray];
    forall n ensures Is(after, n, Gray) <==> n in stack + [node] {
      assert n in stack + [node] <==> n in stack || n == node;
    }
  }

  lemma FewerWhites(color: Coloring, node: Id, after: Coloring)
    requires Is(color, node, White) && Darkens(color[node := Gray], after)
    ensures Whites(after) < Whites(color)
  {
    assert node in Whites(color) && node !in Whites(after);
    forall n | n in Whites(after) ensures n in Whites(color) {
    }
  }

  /** `visit(node)`: true only if there is a cycle; false leaves `node` black and
      everything else as it was, or blackened. */
  method Visit(adj: AdjacencyMap, node: Id, color: Coloring, ghost E: Edges, ghost stack: seq<Id>)
    returns (cyclic: bool, color': Coloring)
    requires Represents(adj, E)
    requires Ready(E, color, stack) && Is(color, node, White)
    requires stack != [] ==> (stack[|stack| - 1], node) in E
    ensures cyclic ==> exists n :: OnCycle(E, n)
    ensures !cyclic ==> Ready(E, color', stack) && Is(color', node, Black) && Darkens(color, color')
    decreases Whites(color)
  {
    Enter(E, color, stack, node);
    ghost var path := stack + [node];
    color' := color[node := Gray];
    var neighbors := Neighbors(adj, node);
    for i := 0 to |neighbors|
      invariant Ready(E, color', path)
      invariant Darkens(color[node := Gray], color')
      invariant forall j :: 0 <= j < i ==> Is(color', neighbors[j], Black)
    {
      var neighbor := neighbors[i];
      assert neighbor in neighbors && (node, neighbor) in E;
      if color'[neighbor] == Gray {
        BackEdge(E, color', path, neighbor);
        return true, color';
      }
      if color'[neighbor] == White {
        FewerWhites(color, node, color');
        var found, after := Visit(adj, neighbor, color', E, path);
        if found {
          return true, after;
        }
        color' := after;
      }
    }
    forall m | (node, m) in E ensures Is(color', m, Black) {
      assert m in neighbors;
    }
    Blacken(E, color', stack, node);
    color' := color'[node := Black];
    cyclic := false;
  }

  /** The whole test: true exactly when some node lies on a directed cycle. */
  method HasCycle(adj: AdjacencyMap, nodes: seq<Id>, ghost E: Edges) returns (cyclic: bool)
    requires Represents(adj, E)
    requires forall e :: e in E ==> e.0 in nodes && e.1 in nodes
    ensures cyclic <==> exists n :: OnCycle(E, n)
  {
    var color: Coloring := map n | n in nodes :: White;
    for i := 0 to |nodes|
      invariant Ready(E, color, [])
      invariant forall n :: n in nodes ==> n in color
      invariant forall n :: n in nodes[..i] ==> Is(color, n, Black)
    {
      var node := nodes[i];
      assert node in nodes && node !in [];
      assert !Is(color, node, Gray);
      assert nodes[..i + 1] == nodes[..i] + [node];
      if color[node] == White {
        var found, after := Visit(adj, node, color, E, []);
        if found {
          return true;
        }
        color := after;
      }
    }
    assert nodes[..|nodes|] == nodes;
    AllBlackNoCycle(E, color);
    return false;
  }

  lemma AllBlackNoCycle(E: Edges, color: Coloring)
    requires Finishes(E, color)
    requires forall e :: e in E ==> Is(color, e.0, Black)
    ensures forall n :: !OnCycle(E, n)
  {
    forall n, p | Leads(E, {n}, p, n) && |p| > 1 ensures Is(color, n, Black) {
      assert p[0] == n && (p[0], p[1]) in E;
    }
  }
}
