/** Sequences of identifiers used as ordered sets. */
module Seqs {
  import opened Domain

  ghost predicate Distinct<T>(s: seq<T>) {
    forall i, j :: 0 <= i < j < |s| ==> s[i] != s[j]
  }

  function Elements<T>(s: seq<T>): set<T> {
    set x | x in s
  }

  ghost predicate Ascending(s: seq<Id>) {
    forall i, j :: 0 <= i < j < |s| ==> s[i] < s[j]
  }

  /** Python's `sorted(set(xs))`, by insertion: the members of `xs` in ascending
      order, each once. */
  function SortUnique(xs: seq<Id>): (r: seq<Id>)
    ensures forall x :: x in r <==> x in xs
  {
    if xs == [] then [] else
      assert xs == [xs[0]] + xs[1..];
      Insert(xs[0], SortUnique(xs[1..]))
  }

  function Insert(x: Id, s: seq<Id>): (r: seq<Id>)
    ensures forall y :: y in r <==> y == x || y in s
  {
    if s == [] then [x]
    else if x < s[0] then [x] + s
    else if x == s[0] then s
    else
      assert s == [s[0]] + s[1..];
      [s[0]] + Insert(x, s[1..])
  }

  lemma {:induction false} InsertKeepsAscending(x: Id, s: seq<Id>)
    requires Ascending(s)
    ensures Ascending(Insert(x, s))
  {
    if s != [] && x > s[0] {
      InsertKeepsAscending(x, s[1..]);
      var rest := Insert(x, s[1..]);
      forall i | 0 <= i < |rest| ensures s[0] < rest[i] {
        assert rest[i] in rest;
      }
    }
  }

  /** Sorting really sorts: the result is strictly ascending, hence duplicate free. */
  lemma {:induction false} SortUniqueAscends(xs: seq<Id>)
    ensures Ascending(SortUnique(xs))
    ensures Distinct(SortUnique(xs))
  {
    if xs != [] {
      SortUniqueAscends(xs[1..]);
      InsertKeepsAscending(xs[0], SortUnique(xs[1..]));
    }
  }

  /** Two ascending sequences with the same members are the same sequence, so a
      contract that fixes order and membership fixes the whole answer. */
  lemma {:induction false} AscendingDetermined(a: seq<Id>, b: seq<Id>)
    requires Ascending(a) && Ascending(b)
    requires forall n :: n in a <==> n in b
    ensures a == b
  {
    if a == [] && b != [] {
      var n := SomeMember(b);
      assert false;
    } else if a != [] && b == [] {
      var n := SomeMember(a);
      assert false;
    } else if a != [] {
      assert a[0] in b && b[0] in a;
      forall n ensures n in a[1..] <==> n in b[1..] {
        HeadIsLeast(a, n);
        HeadIsLeast(b, n);
      }
      AscendingDetermined(a[1..], b[1..]);
    }
  }

  lemma SomeMember(a: seq<Id>) returns (n: Id)
    requires a != []
    ensures n in a
  {
    n := a[0];
  }

  lemma HeadIsLeast(a: seq<Id>, n: Id)
    requires a != [] && Ascending(a)
    ensures n in a[1..] <==> n in a && n > a[0]
    ensures n in a ==> a[0] <= n
  {
    if n in a {
      var i :| 0 <= i < |a| && a[i] == n;
      assert i > 0 ==> a[1..][i - 1] == n;
    }
    if n in a[1..] {
      var i :| 0 <= i < |a[1..]| && a[1..][i] == n;
      assert a[i + 1] == n;
    }
  }
}
