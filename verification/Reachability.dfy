/** What a lineage query means: paths over a finite edge set, and the layers a
    breadth-first search discovers. Nothing here is an algorithm. */
module Reachability {
  import opened Domain
  import opened Seqs

  type Edges = set<(Id, Id)>

  ghost predicate IsPath(E: Edges, p: seq<Id>) {
    |p| > 0 && forall i :: 0 <= i < |p| - 1 ==> (p[i], p[i + 1]) in E
  }

  /** `p` leads from one of `roots` to `n` in `|p| - 1` steps. */
  ghost predicate Leads(E: Edges, roots: set<Id>, p: seq<Id>, n: Id) {
    IsPath(E, p) && p[0] in roots && p[|p| - 1] == n
  }

  ghost predicate WithinCap(steps: int, cap: Option<nat>) {
    cap.Some? ==> steps <= cap.value
  }

  /** `n` can be reached from `roots`, in at most `cap` steps when there is a cap. */
  ghost predicate Reachable(E: Edges, roots: set<Id>, n: Id, cap: Option<nat>) {
    exists p :: Leads(E, roots, p, n) && WithinCap(|p| - 1, cap)
  }

  ghost predicate OnCycle(E: Edges, n: Id) {
    exists p :: Leads(E, {n}, p, n) && |p| > 1
  }

  /** The nodes at most `d` steps from `roots`. */
  ghost function Ball(E: Edges, roots: set<Id>, d: nat): set<Id> {
    if d == 0 then roots
    else Ball(E, roots, d - 1) + set e | e in E && e.0 in Ball(E, roots, d - 1) :: e.1
  }

  lemma BallGrows(E: Edges, roots: set<Id>, d: nat, k: nat)
    requires d <= k
    ensures Ball(E, roots, d) <= Ball(E, roots, k)
    decreases k
  {
    if d < k {
      BallGrows(E, roots, d, k - 1);
    }
  }

  /** A path of `d` steps stays inside the ball of radius `d`. */
  lemma {:induction false} PathInBall(E: Edges, roots: set<Id>, p: seq<Id>, n: Id)
    requires Leads(E, roots, p, n)
    ensures n in Ball(E, roots, |p| - 1)
    decreases |p|
  {
    if |p| > 1 {
      var q := p[..|p| - 1];
      PathInBall(E, roots, q, q[|q| - 1]);
      assert (p[|p| - 2], p[|p| - 1]) in E;
    }
  }

  /** Every member of the ball is reached by a path no longer than its radius. */
  lemma {:induction false} BallHasPath(E: Edges, roots: set<Id>, d: nat, n: Id) returns (p: seq<Id>)
    requires n in Ball(E, roots, d)
    ensures Leads(E, roots, p, n) && |p| - 1 <= d
  {
    if n in roots {
      p := [n];
    } else if n in Ball(E, roots, d - 1) {
      p := BallHasPath(E, roots, d - 1, n);
    } else {
      var e :| e in E && e.0 in Ball(E, roots, d - 1) && e.1 == n;
      var q := BallHasPath(E, roots, d - 1, e.0);
      p := q + [n];
    }
  }

  // ----- the invariant of a breadth-first search

  /** The discovery record of a search: each entry is a node and its depth. The
      entries before `head` have been expanded. */
  type Trail = seq<(Id, nat)>

  ghost predicate Seen(t: Trail, n: Id) {
    exists i :: 0 <= i < |t| && t[i].0 == n
  }

  ghost predicate Expanded(E: Edges, t: Trail, n: Id) {
    forall m :: (n, m) in E ==> Seen(t, m)
  }

  ghost predicate Exact(E: Edges, roots: set<Id>, entry: (Id, nat)) {
    entry.0 in Ball(E, roots, entry.1)
    && (entry.1 > 0 ==> entry.0 !in Ball(E, roots, entry.1 - 1))
  }

  ghost predicate AtCap(depth: nat, cap: Option<nat>) {
    cap.Some? && depth >= cap.value
  }

  ghost predicate Layered(E: Edges, roots: set<Id>, cap: Option<nat>, t: Trail, head: nat) {
    && head <= |t|
    && (forall i, j :: 0 <= i < j < |t| ==> t[i].0 != t[j].0 && t[i].1 <= t[j].1)
    && (head < |t| ==> forall j :: 0 <= j < |t| ==> t[j].1 <= t[head].1 + 1)
    && (forall i :: 0 <= i < |t| ==> Exact(E, roots, t[i]) && WithinCap(t[i].1, cap))
    && (forall i :: 0 <= i < head && !AtCap(t[i].1, cap) ==> Expanded(E, t, t[i].0))
    && (forall r :: r in roots ==> Seen(t, r))
  }

  lemma DepthAtMost(E: Edges, roots: set<Id>, entry: (Id, nat), k: nat)
    requires Exact(E, roots, entry) && entry.0 in Ball(E, roots, k)
    ensures entry.1 <= k
  {
    if entry.1 > k {
      BallGrows(E, roots, k, entry.1 - 1);
    }
  }

  /** While the entry at `head` is expanded, everything up to its depth is known. */
  lemma {:induction false} LayerComplete(E: Edges, roots: set<Id>, cap: Option<nat>, t: Trail, head: nat, k: nat, n: Id)
    requires Layered(E, roots, cap, t, head)
    requires head < |t| ==> k <= t[head].1
    requires WithinCap(k, cap)
    requires n in Ball(E, roots, k)
    ensures Seen(t, n)
    decreases k
  {
    if k > 0 {
      if n in Ball(E, roots, k - 1) {
        LayerComplete(E, roots, cap, t, head, k - 1, n);
      } else {
        var e :| e in E && e.0 in Ball(E, roots, k - 1) && e.1 == n;
        LayerComplete(E, roots, cap, t, head, k - 1, e.0);
        SeenSuccessor(E, roots, cap, t, head, k - 1, e.0, n);
      }
    }
  }

  /** A node closer than the layer under expansion has been expanded itself. */
  lemma SeenSuccessor(E: Edges, roots: set<Id>, cap: Option<nat>, t: Trail, head: nat, k: nat, m: Id, n: Id)
    requires Layered(E, roots, cap, t, head)
    requires head < |t| ==> k < t[head].1
    requires WithinCap(k + 1, cap)
    requires Seen(t, m) && m in Ball(E, roots, k) && (m, n) in E
    ensures Seen(t, n)
  {
    var i :| 0 <= i < |t| && t[i].0 == m;
    DepthAtMost(E, roots, t[i], k);
    assert i < head && Expanded(E, t, t[i].0);
  }

  lemma Begin(E: Edges, roots: seq<Id>, cap: Option<nat>, t: Trail)
    requires Distinct(roots)
    requires |t| == |roots| && forall i :: 0 <= i < |t| ==> t[i] == (roots[i], 0)
    ensures Layered(E, Elements(roots), cap, t, 0)
  {
    forall r | r in Elements(roots) ensures Seen(t, r) {
      var i :| 0 <= i < |roots| && roots[i] == r;
      assert t[i].0 == r;
    }
  }

  lemma NewIsExact(E: Edges, roots: set<Id>, cap: Option<nat>, t: Trail, head: nat, n: Id)
    requires Layered(E, roots, cap, t, head) && head < |t|
    requires (t[head].0, n) in E && !Seen(t, n)
    ensures Exact(E, roots, (n, t[head].1 + 1))
  {
    var d := t[head].1;
    if n in Ball(E, roots, d) {
      LayerComplete(E, roots, cap, t, head, d, n);
    }
    assert Exact(E, roots, t[head]);
  }

  lemma SeenMore(t: Trail, x: (Id, nat))
    ensures forall m :: Seen(t, m) ==> Seen(t + [x], m)
    ensures Seen(t + [x], x.0)
  {
    forall m | Seen(t, m) ensures Seen(t + [x], m) {
      var i :| 0 <= i < |t| && t[i].0 == m;
      assert (t + [x])[i].0 == m;
    }
    assert (t + [x])[|t|].0 == x.0;
  }

  lemma Discover(E: Edges, roots: set<Id>, cap: Option<nat>, t: Trail, head: nat, n: Id)
    requires Layered(E, roots, cap, t, head) && head < |t|
    requires (t[head].0, n) in E && !Seen(t, n) && !AtCap(t[head].1, cap)
    ensures Layered(E, roots, cap, t + [(n, t[head].1 + 1)], head)
  {
    var x := (n, t[head].1 + 1);
    var u := t + [x];
    NewIsExact(E, roots, cap, t, head, n);
    SeenMore(t, x);
    forall i | 0 <= i < |u| ensures Exact(E, roots, u[i]) && WithinCap(u[i].1, cap) {
      assert i < |t| ==> u[i] == t[i] && Exact(E, roots, t[i]);
    }
    forall i | 0 <= i < head && !AtCap(u[i].1, cap) ensures Expanded(E, u, u[i].0) {
      assert u[i] == t[i];
      assert Expanded(E, t, t[i].0);
    }
    forall i, j | 0 <= i < j < |u| ensures u[i].0 != u[j].0 && u[i].1 <= u[j].1 {
      assert u[i] == t[i];
      assert j < |t| ==> u[j] == t[j];
    }
  }

  lemma MoveHead(E: Edges, roots: set<Id>, cap: Option<nat>, t: Trail, head: nat)
    requires Layered(E, roots, cap, t, head) && head < |t|
    requires AtCap(t[head].1, cap) || Expanded(E, t, t[head].0)
    ensures Layered(E, roots, cap, t, head + 1)
  {
  }

  /** A finished search has seen exactly the reachable nodes. */
  lemma Finished(E: Edges, roots: set<Id>, cap: Option<nat>, t: Trail)
    requires Layered(E, roots, cap, t, |t|)
    ensures forall n :: Seen(t, n) <==> Reachable(E, roots, n, cap)
  {
    forall n ensures Seen(t, n) <==> Reachable(E, roots, n, cap) {
      if Seen(t, n) {
        var i :| 0 <= i < |t| && t[i].0 == n;
        assert Exact(E, roots, t[i]);
        var p := BallHasPath(E, roots, t[i].1, n);
      }
      if Reachable(E, roots, n, cap) {
        var p :| Leads(E, roots, p, n) && WithinCap(|p| - 1, cap);
        PathInBall(E, roots, p, n);
        LayerComplete(E, roots, cap, t, |t|, |p| - 1, n);
      }
    }
  }

  /** The depth recorded for a node is its distance from the roots. */
  lemma DepthIsDistance(E: Edges, roots: set<Id>, cap: Option<nat>, t: Trail, head: nat, i: nat, p: seq<Id>)
    requires Layered(E, roots, cap, t, head) && i < |t|
    requires Leads(E, roots, p, t[i].0)
    ensures t[i].1 <= |p| - 1
  {
    PathInBall(E, roots, p, t[i].0);
    DepthAtMost(E, roots, t[i], |p| - 1);
  }
}
