/** Edit distance between tool-call sequences: the two-row table computes the least
    number of single-call edits, which is a metric. */
module EditDistance {

  type Name = string

  function Min(x: nat, y: nat): nat {
    if x < y then x else y
  }

  function Cost(x: Name, y: Name): nat {
    if x == y then 0 else 1
  }

  /** The recursive definition, on the last element of each sequence. */
  function Distance(a: seq<Name>, b: seq<Name>): nat
    decreases |a| + |b|
  {
    if a == [] then |b|
    else if b == [] then |a|
    else
      var a', b' := a[..|a| - 1], b[..|b| - 1];
      Min(Distance(a', b) + 1, Min(Distance(a, b') + 1, Distance(a', b') + Cost(a[|a| - 1], b[|b| - 1])))
  }

  // ----- the loop

  /** One row of the table: distances from the first `i` calls of `a` to every prefix of `b`. */
  ghost predicate Row(r: seq<nat>, a: seq<Name>, b: seq<Name>, i: nat, upTo: nat)
    requires i <= |a| && upTo <= |b|
  {
    |r| == |b| + 1 && forall j :: 0 <= j <= upTo ==> r[j] == Distance(a[..i], b[..j])
  }

  lemma Cell(a: seq<Name>, b: seq<Name>, i: nat, j: nat)
    requires 1 <= i <= |a| && 1 <= j <= |b|
    ensures Distance(a[..i], b[..j]) ==
              Min(Distance(a[..i - 1], b[..j]) + 1,
                  Min(Distance(a[..i], b[..j - 1]) + 1, Distance(a[..i - 1], b[..j - 1]) + Cost(a[i - 1], b[j - 1])))
  {
    assert a[..i][..i - 1] == a[..i - 1] && b[..j][..j - 1] == b[..j - 1];
  }

  /** The inner loop: the next row of the table from the previous one. */
  method NextRow(prev: array<nat>, a: seq<Name>, b: seq<Name>, i: nat) returns (cur: array<nat>)
    requires 1 <= i <= |a| && Row(prev[..], a, b, i - 1, |b|)
    ensures Row(cur[..], a, b, i, |b|)
  {
    hide Distance;
    cur := new nat[|b| + 1](j => 0);
    cur[0] := i;
    FirstCell(a, b, i);
    for j := 1 to |b| + 1
      invariant cur.Length == |b| + 1 && fresh(cur)
      invariant Row(cur[..], a, b, i, j - 1)
    {
      var cost := if a[i - 1] == b[j - 1] then 0 else 1;
      Cell(a, b, i, j);
      assert prev[..][j] == prev[j] && prev[..][j - 1] == prev[j - 1] && cur[..][j - 1] == cur[j - 1];
      ghost var before := cur[..];
      cur[j] := Min(prev[j] + 1, Min(cur[j - 1] + 1, prev[j - 1] + cost));
      assert cur[..] == before[j := cur[j]];
    }
  }

  lemma FirstCell(a: seq<Name>, b: seq<Name>, i: nat)
    requires i <= |a|
    ensures Distance(a[..i], b[..0]) == i
  {
  }

  method SequenceEditDistance(a: seq<Name>, b: seq<Name>) returns (d: nat)
    ensures d == Distance(a, b)
  {
    if |a| == 0 {
      return |b|;
    }
    if |b| == 0 {
      return |a|;
    }
    var prev := new nat[|b| + 1](j => j);
    assert Row(prev[..], a, b, 0, |b|);
    for i := 1 to |a| + 1
      invariant Row(prev[..], a, b, i - 1, |b|)
    {
      prev := NextRow(prev, a, b, i);
    }
    assert a[..|a|] == a && b[..|b|] == b;
    assert prev[..][|b|] == prev[|b|];
    return prev[|b|];
  }

  // ----- a metric

  lemma {:induction false} Symmetric(a: seq<Name>, b: seq<Name>)
    ensures Distance(a, b) == Distance(b, a)
    decreases |a| + |b|
  {
    if a != [] && b != [] {
      var a', b' := a[..|a| - 1], b[..|b| - 1];
      Symmetric(a', b);
      Symmetric(a, b');
      Symmetric(a', b');
    }
  }

  lemma {:induction false} Bounds(a: seq<Name>, b: seq<Name>)
    ensures |a| - |b| <= Distance(a, b) && |b| - |a| <= Distance(a, b)
    ensures Distance(a, b) <= if |a| < |b| then |b| else |a|
    decreases |a| + |b|
  {
    if a != [] && b != [] {
      var a', b' := a[..|a| - 1], b[..|b| - 1];
      Bounds(a', b);
      Bounds(a, b');
      Bounds(a', b');
    }
  }

  lemma LastAndRest(a: seq<Name>, b: seq<Name>)
    requires a != [] && b != []
    ensures a == b <==> a[..|a| - 1] == b[..|b| - 1] && a[|a| - 1] == b[|b| - 1]
  {
    assert a == a[..|a| - 1] + [a[|a| - 1]] && b == b[..|b| - 1] + [b[|b| - 1]];
  }

  lemma {:induction false} ZeroIffEqual(a: seq<Name>, b: seq<Name>)
    ensures Distance(a, b) == 0 <==> a == b
    decreases |a| + |b|
  {
    if a != [] && b != [] {
      var a', b' := a[..|a| - 1], b[..|b| - 1];
      ZeroIffEqual(a', b');
      assert Distance(a, b) == 0 <==> Distance(a', b') + Cost(a[|a| - 1], b[|b| - 1]) == 0;
      LastAndRest(a, b);
    }
  }

  lemma {:induction false} Triangle(a: seq<Name>, b: seq<Name>, c: seq<Name>)
    ensures Distance(a, c) <= Distance(a, b) + Distance(b, c)
    decreases |a| + |b| + |c|
  {
    Bounds(a, b);
    Bounds(b, c);
    Bounds(a, c);
    if a != [] && b != [] && c != [] {
      var a', b', c' := a[..|a| - 1], b[..|b| - 1], c[..|c| - 1];
      Triangle(a', b, c);
      Triangle(a, b, c');
      Triangle(a, b', c);
      Triangle(a, b', c');
      Triangle(a', b', c);
      Triangle(a', b', c');
    }
  }

  // ----- the least number of edits

  /** One call inserted, deleted or replaced. */
  ghost predicate OneEdit(x: seq<Name>, y: seq<Name>) {
    exists p: seq<Name>, s: seq<Name>, u: seq<Name>, v: seq<Name> ::
      |u| <= 1 && |v| <= 1 && x == p + u + s && y == p + v + s
  }

  ghost predicate Edits(path: seq<seq<Name>>, a: seq<Name>, b: seq<Name>) {
    && |path| >= 1 && path[0] == a && path[|path| - 1] == b
    && forall i :: 0 <= i < |path| - 1 ==> OneEdit(path[i], path[i + 1])
  }

  lemma OneEditGrows(x: seq<Name>, y: seq<Name>, z: Name)
    requires OneEdit(x, y)
    ensures OneEdit(x + [z], y + [z])
  {
    var p: seq<Name>, s: seq<Name>, u: seq<Name>, v: seq<Name> :|
      |u| <= 1 && |v| <= 1 && x == p + u + s && y == p + v + s;
    assert x + [z] == p + u + (s + [z]) && y + [z] == p + v + (s + [z]);
  }

  lemma LastEdit(p: seq<Name>, u: seq<Name>, v: seq<Name>)
    requires |u| <= 1 && |v| <= 1
    ensures OneEdit(p + u, p + v)
  {
    assert p + u == p + u + [] && p + v == p + v + [];
  }

  lemma {:induction false} SuffixNoFarther(x: seq<Name>, y: seq<Name>, s: seq<Name>)
    ensures Distance(x + s, y + s) <= Distance(x, y)
  {
    if s == [] {
      assert x + s == x && y + s == y;
    } else {
      var t, z := s[..|s| - 1], s[|s| - 1];
      SuffixNoFarther(x, y, t);
      assert (x + s)[..|x + s| - 1] == x + t && (y + s)[..|y + s| - 1] == y + t;
    }
  }

  lemma OneEditIsNear(x: seq<Name>, y: seq<Name>)
    requires OneEdit(x, y)
    ensures Distance(x, y) <= 1
  {
    var p: seq<Name>, s: seq<Name>, u: seq<Name>, v: seq<Name> :|
      |u| <= 1 && |v| <= 1 && x == p + u + s && y == p + v + s;
    SuffixNoFarther(p + u, p + v, s);
    ZeroIffEqual(p, p);
    EndsNear(p, u, v);
  }

  lemma EndsNear(p: seq<Name>, u: seq<Name>, v: seq<Name>)
    requires |u| <= 1 && |v| <= 1
    ensures Distance(p + u, p + v) <= 1
  {
    ZeroIffEqual(p, p);
    ZeroIffEqual(p + u, p + v);
    if |u| == 1 {
      assert (p + u)[..|p + u| - 1] == p;
    }
    if |v| == 1 {
      assert (p + v)[..|p + v| - 1] == p;
    }
    if u == [] { assert p + u == p; }
    if v == [] { assert p + v == p; }
  }

  /** No sequence of edits is shorter than the distance. */
  lemma {:induction false} EditsReach(path: seq<seq<Name>>, a: seq<Name>, b: seq<Name>)
    requires Edits(path, a, b)
    ensures Distance(a, b) <= |path| - 1
    decreases |path|
  {
    if |path| == 1 {
      ZeroIffEqual(a, b);
    } else {
      EditsReach(path[1..], path[1], b);
      OneEditIsNear(a, path[1]);
      Triangle(a, path[1], b);
    }
  }

  lemma {:induction false} EditsGrow(path: seq<seq<Name>>, a: seq<Name>, b: seq<Name>, z: Name) returns (grown: seq<seq<Name>>)
    requires Edits(path, a, b)
    ensures Edits(grown, a + [z], b + [z]) && |grown| == |path|
  {
    grown := seq(|path|, i requires 0 <= i < |path| => path[i] + [z]);
    forall i | 0 <= i < |grown| - 1 ensures OneEdit(grown[i], grown[i + 1]) {
      OneEditGrows(path[i], path[i + 1], z);
    }
  }

  lemma DeleteFirst(a: seq<Name>, b: seq<Name>, rest: seq<seq<Name>>) returns (path: seq<seq<Name>>)
    requires a != [] && Edits(rest, a[..|a| - 1], b)
    ensures Edits(path, a, b) && |path| == |rest| + 1
  {
    LastEdit(a[..|a| - 1], [a[|a| - 1]], []);
    assert a[..|a| - 1] + [a[|a| - 1]] == a && a[..|a| - 1] + [] == a[..|a| - 1];
    path := [a] + rest;
  }

  lemma InsertLast(a: seq<Name>, b: seq<Name>, rest: seq<seq<Name>>) returns (path: seq<seq<Name>>)
    requires b != [] && Edits(rest, a, b[..|b| - 1])
    ensures Edits(path, a, b) && |path| == |rest| + 1
  {
    LastEdit(b[..|b| - 1], [], [b[|b| - 1]]);
    assert b[..|b| - 1] + [b[|b| - 1]] == b && b[..|b| - 1] + [] == b[..|b| - 1];
    path := rest + [b];
  }

  lemma ReplaceLast(a: seq<Name>, b: seq<Name>, rest: seq<seq<Name>>) returns (path: seq<seq<Name>>)
    requires a != [] && b != [] && Edits(rest, a[..|a| - 1], b[..|b| - 1])
    ensures Edits(path, a, b) && |path| == |rest| + Cost(a[|a| - 1], b[|b| - 1])
  {
    var a', b', x, y := a[..|a| - 1], b[..|b| - 1], a[|a| - 1], b[|b| - 1];
    path := EditsGrow(rest, a', b', x);
    assert a' + [x] == a && b' + [y] == b;
    if x != y {
      LastEdit(b', [x], [y]);
      path := path + [b];
    }
  }

  /** And one is exactly as long. */
  lemma {:induction false} EditsExist(a: seq<Name>, b: seq<Name>) returns (path: seq<seq<Name>>)
    ensures Edits(path, a, b) && |path| - 1 == Distance(a, b)
    decreases |a| + |b|
  {
    hide Edits;
    if a == [] && b == [] {
      path := [[]];
      assert Edits(path, a, b) by { StartOf(a); }
    } else if a != [] && (b == [] || Distance(a, b) == Distance(a[..|a| - 1], b) + 1) {
      var rest := EditsExist(a[..|a| - 1], b);
      path := DeleteFirst(a, b, rest);
    } else if b != [] && (a == [] || Distance(a, b) == Distance(a, b[..|b| - 1]) + 1) {
      var rest := EditsExist(a, b[..|b| - 1]);
      path := InsertLast(a, b, rest);
    } else {
      var rest := EditsExist(a[..|a| - 1], b[..|b| - 1]);
      path := ReplaceLast(a, b, rest);
    }
  }

  lemma StartOf(a: seq<Name>)
    ensures Edits([a], a, a)
  {
  }

  /** The table entry is the length of a shortest edit sequence. */
  lemma DistanceIsLeast(a: seq<Name>, b: seq<Name>)
    ensures exists path :: Edits(path, a, b) && |path| - 1 == Distance(a, b)
    ensures forall path :: Edits(path, a, b) ==> |path| - 1 >= Distance(a, b)
  {
    var shortest := EditsExist(a, b);
    forall path | Edits(path, a, b) ensures |path| - 1 >= Distance(a, b) {
      EditsReach(path, a, b);
    }
  }

  // ----- similarity

  /** `sequence_similarity`, over reals. */
  function SequenceSimilarity(a: seq<Name>, b: seq<Name>): real {
    if a == [] && b == [] then 0.0
    else
      var most := if |a| < |b| then |b| else |a|;
      1.0 - Distance(a, b) as real / most as real
  }

  function Names(a: seq<Name>): set<Name> {
    set x | x in a
  }

  /** `jaccard`, over reals. */
  function Jaccard(a: set<Name>, b: set<Name>): real {
    if a + b == {} then 0.0 else |a * b| as real / |a + b| as real
  }

  datatype Score = Score(sequence: real, names: real, combined: real)

  /** `operational_similarity`, over reals. */
  function Similarity(a: seq<Name>, b: seq<Name>): Score {
    if a == [] && b == [] then Score(0.0, 0.0, 0.0)
    else
      var s, m := SequenceSimilarity(a, b), Jaccard(Names(a), Names(b));
      Score(s, m, 0.6 * s + 0.4 * m)
  }

  lemma JaccardInUnit(a: set<Name>, b: set<Name>)
    ensures 0.0 <= Jaccard(a, b) <= 1.0
    ensures Jaccard(a, b) == Jaccard(b, a)
    ensures Jaccard(a, b) == 1.0 <==> a == b && a != {}
  {
    assert a + b == b + a && a * b == b * a;
    if a + b != {} {
      var rest := (a + b) - (a * b);
      assert a + b == (a * b) + rest;
      assert |a + b| == |a * b| + |rest|;
      Share(|a * b|, |a + b|);
      if rest == {} {
        forall x ensures x in a <==> x in b {
          assert x in a + b <==> x in a * b;
        }
      }
      if a == b {
        assert a + b == a * b;
      }
    }
  }

  lemma SequenceInUnit(a: seq<Name>, b: seq<Name>)
    ensures 0.0 <= SequenceSimilarity(a, b) <= 1.0
    ensures SequenceSimilarity(a, b) == SequenceSimilarity(b, a)
    ensures SequenceSimilarity(a, b) == 1.0 <==> a == b && a != []
  {
    hide Distance;
    Bounds(a, b);
    Symmetric(a, b);
    ZeroIffEqual(a, b);
    if a != [] || b != [] {
      Share(Distance(a, b), if |a| < |b| then |b| else |a|);
    }
  }

  /** Each of the three scores lies between zero and one, is symmetric, and is one exactly
      for equal sequences, or for the multiset score equal name sets, that are not empty.
      The first falls by one part in the longer length for every edit the distance takes,
      the second is the share of common names, and they weigh six to four. */
  lemma SimilarityInUnit(a: seq<Name>, b: seq<Name>)
    ensures a != [] || b != [] ==>
              var s, most := Similarity(a, b), if |a| < |b| then |b| else |a|;
              && s.sequence * most as real == most as real - Distance(a, b) as real
              && s.names * |Names(a) + Names(b)| as real == |Names(a) * Names(b)| as real
              && 10.0 * s.combined == 6.0 * s.sequence + 4.0 * s.names
    ensures var s := Similarity(a, b);
      && 0.0 <= s.sequence <= 1.0 && 0.0 <= s.names <= 1.0 && 0.0 <= s.combined <= 1.0
      && s == Similarity(b, a)
      && (s.sequence == 1.0 <==> a == b && a != []) && (s.combined == 1.0 <==> a == b && a != [])
      && (s.names == 1.0 <==> Names(a) == Names(b) && a != [])
  {
    hide SequenceSimilarity, Jaccard;
    if a != [] || b != [] {
      SimilarityMeans(a, b);
    }
    SequenceInUnit(a, b);
    JaccardInUnit(Names(a), Names(b));
    NamesEmpty(a);
  }

  lemma SimilarityMeans(a: seq<Name>, b: seq<Name>)
    requires a != [] || b != []
    ensures var s, most := Similarity(a, b), if |a| < |b| then |b| else |a|;
      && s.sequence * most as real == most as real - Distance(a, b) as real
      && s.names * |Names(a) + Names(b)| as real == |Names(a) * Names(b)| as real
      && 10.0 * s.combined == 6.0 * s.sequence + 4.0 * s.names
  {
    hide Distance, SequenceSimilarity, Jaccard, Names;
    SequenceMeans(a, b);
    NamesEmpty(a);
    NamesEmpty(b);
    NamesMean(Names(a), Names(b));
  }

  lemma SequenceMeans(a: seq<Name>, b: seq<Name>)
    requires a != [] || b != []
    ensures var most := if |a| < |b| then |b| else |a|;
      SequenceSimilarity(a, b) * most as real == most as real - Distance(a, b) as real
  {
    hide Distance;
  }

  lemma NamesMean(a: set<Name>, b: set<Name>)
    requires a != {} || b != {}
    ensures Jaccard(a, b) * |a + b| as real == |a * b| as real
  {
    assert a + b != {};
  }

  lemma NamesEmpty(a: seq<Name>)
    ensures Names(a) == {} <==> a == []
  {
    if a != [] {
      assert a[0] in Names(a);
    }
  }

  lemma Share(d: nat, most: nat)
    requires d <= most && most > 0
    ensures 0.0 <= d as real / most as real <= 1.0
    ensures d as real / most as real == 0.0 <==> d == 0
    ensures d as real / most as real == 1.0 <==> d == most
  {
    var q := d as real / most as real;
    assert q * most as real == d as real;
  }
}
