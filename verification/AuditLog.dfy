/** The hash-chained audit log. The hash is a parameter: an injective function that
    never yields the genesis value stands for SHA-256 over canonical JSON. */
module AuditLog {
  import opened Domain

  type Hash = int

  const GENESIS: Hash := 0

  datatype Body = Body(sequence: int, id: int, kind: int, actor: int, payload: int, at: int, prev: Hash)

  datatype Row = Row(body: Body, hash: Hash)

  datatype Failure = SequenceGap | ChainBreak | HashMismatch

  datatype Verification = Verification(checked: nat, failure: Option<Failure>)

  function Head(rows: seq<Row>): Hash {
    if rows == [] then GENESIS else rows[|rows| - 1].hash
  }

  /** What is wrong with row `i`, in the order the checks are made. */
  function FaultAt(h: Body -> Hash, rows: seq<Row>, i: nat): Option<Failure>
    requires i < |rows|
  {
    var r := rows[i];
    if r.body.sequence != i + 1 then Some(SequenceGap)
    else if r.body.prev != Head(rows[..i]) then Some(ChainBreak)
    else if h(r.body) != r.hash then Some(HashMismatch)
    else None
  }

  ghost predicate Chained(h: Body -> Hash, rows: seq<Row>) {
    forall i :: 0 <= i < |rows| ==> FaultAt(h, rows, i).None?
  }

  /** Row `i` has its place in the sequence, continues its predecessor, and matches its hash. */
  ghost predicate Fits(h: Body -> Hash, rows: seq<Row>, i: nat)
    requires i < |rows|
  {
    && rows[i].body.sequence == i + 1
    && rows[i].body.prev == (if i == 0 then GENESIS else rows[i - 1].hash)
    && rows[i].hash == h(rows[i].body)
  }

  /** The first of these that row `i` fails. */
  ghost predicate Misfits(h: Body -> Hash, rows: seq<Row>, i: nat, f: Failure)
    requires i < |rows|
  {
    var r, prev := rows[i], if i == 0 then GENESIS else rows[i - 1].hash;
    match f
    case SequenceGap => r.body.sequence != i + 1
    case ChainBreak => r.body.sequence == i + 1 && r.body.prev != prev
    case HashMismatch => r.body.sequence == i + 1 && r.body.prev == prev && r.hash != h(r.body)
  }

  lemma FaultsMean(h: Body -> Hash, rows: seq<Row>)
    ensures forall i :: 0 <= i < |rows| ==>
              var f := FaultAt(h, rows, i);
              (f.None? <==> Fits(h, rows, i)) && (f.Some? ==> Misfits(h, rows, i, f.value))
  {
    forall i | 0 <= i < |rows|
      ensures var f := FaultAt(h, rows, i);
        (f.None? <==> Fits(h, rows, i)) && (f.Some? ==> Misfits(h, rows, i, f.value))
    {
      assert Head(rows[..i]) == if i == 0 then GENESIS else rows[i - 1].hash;
    }
  }

  class Log {
    const hasher: Body -> Hash
    var rows: seq<Row>

    constructor (hasher: Body -> Hash)
      ensures this.hasher == hasher && rows == []
    {
      this.hasher := hasher;
      rows := [];
    }

    /** Whatever the log holds, the new row continues its last one. */
    method Append(id: int, kind: int, actor: int, payload: int, at: int) returns (row: Row)
      modifies this
      ensures rows == old(rows) + [row]
      ensures row.body == Body(if old(rows) == [] then 1 else old(rows)[|old(rows)| - 1].body.sequence + 1,
                               id, kind, actor, payload, at, Head(old(rows)))
      ensures row.hash == hasher(row.body)
      ensures Chained(hasher, old(rows)) <==> Chained(hasher, rows)
    {
      var sequence, prev := 0, GENESIS;
      if rows != [] {
        sequence, prev := rows[|rows| - 1].body.sequence, rows[|rows| - 1].hash;
      }
      var body := Body(sequence + 1, id, kind, actor, payload, at, prev);
      row := Row(body, hasher(body));
      AppendChains(hasher, rows, row);
      rows := rows + [row];
    }

    /** Stops at the first row that fails a check. */
    method Verify() returns (v: Verification)
      ensures v.failure.None? <==> Chained(hasher, rows)
      ensures v.failure.None? ==> v.checked == |rows|
      ensures v.failure.Some? ==> v.checked < |rows| && FaultAt(hasher, rows, v.checked) == v.failure
      ensures forall i :: 0 <= i < v.checked ==> FaultAt(hasher, rows, i).None?
      ensures v.checked <= |rows|
      ensures forall i :: 0 <= i < v.checked ==> Fits(hasher, rows, i)
      ensures v.failure.Some? ==> Misfits(hasher, rows, v.checked, v.failure.value)
    {
      hide Fits, Misfits;
      FaultsMean(hasher, rows);
      var expectedPrev, checked := GENESIS, 0;
      for i := 0 to |rows|
        invariant checked == i && expectedPrev == Head(rows[..i])
        invariant forall k :: 0 <= k < i ==> FaultAt(hasher, rows, k).None?
      {
        var r := rows[i];
        assert rows[..i + 1][i] == r;
        assert FaultAt(hasher, rows, i).Some? ==> !Chained(hasher, rows);
        if r.body.sequence != i + 1 {
          return Verification(checked, Some(SequenceGap));
        }
        if r.body.prev != expectedPrev {
          return Verification(checked, Some(ChainBreak));
        }
        if hasher(r.body) != r.hash {
          return Verification(checked, Some(HashMismatch));
        }
        expectedPrev := r.hash;
        checked := checked + 1;
      }
      return Verification(checked, None);
    }
  }

  lemma FaultInPrefix(h: Body -> Hash, rows: seq<Row>, n: nat, i: nat)
    requires i < n <= |rows|
    ensures FaultAt(h, rows[..n], i) == FaultAt(h, rows, i)
  {
    assert rows[..n][..i] == rows[..i];
  }

  lemma AppendChains(h: Body -> Hash, rows: seq<Row>, row: Row)
    requires row.body.sequence == if rows == [] then 1 else rows[|rows| - 1].body.sequence + 1
    requires row.body.prev == Head(rows) && row.hash == h(row.body)
    ensures Chained(h, rows) <==> Chained(h, rows + [row])
  {
    var next := rows + [row];
    assert next[..|rows|] == rows;
    forall i | 0 <= i < |rows| ensures FaultAt(h, next, i) == FaultAt(h, rows, i) {
      FaultInPrefix(h, next, |rows|, i);
    }
    if Chained(h, rows) && rows != [] {
      assert FaultAt(h, rows, |rows| - 1).None?;
    }
  }

  // ----- tampering

  ghost predicate Collisionless(h: Body -> Hash) {
    && (forall x, y :: h(x) == h(y) ==> x == y)
    && (forall x :: h(x) != GENESIS)
  }

  /** Dropping rows from the end goes unnoticed by the verification itself. */
  lemma PrefixChained(h: Body -> Hash, rows: seq<Row>, n: nat)
    requires Chained(h, rows) && n <= |rows|
    ensures Chained(h, rows[..n])
  {
    forall i | 0 <= i < n ensures FaultAt(h, rows[..n], i).None? {
      FaultInPrefix(h, rows, n, i);
    }
  }

  /** The head hash fixes the whole log. */
  lemma {:induction false} HeadDetermines(h: Body -> Hash, a: seq<Row>, b: seq<Row>)
    requires Collisionless(h) && Chained(h, a) && Chained(h, b) && Head(a) == Head(b)
    ensures a == b
    decreases |a|
  {
    if a != [] {
      assert FaultAt(h, a, |a| - 1).None?;
    }
    if b != [] {
      assert FaultAt(h, b, |b| - 1).None?;
    }
    if a != [] && b != [] {
      PrefixChained(h, a, |a| - 1);
      PrefixChained(h, b, |b| - 1);
      assert a[|a| - 1] == b[|b| - 1];
      HeadDetermines(h, a[..|a| - 1], b[..|b| - 1]);
      assert a == a[..|a| - 1] + [a[|a| - 1]] && b == b[..|b| - 1] + [b[|b| - 1]];
    }
  }

  /** So any edit, deletion, insertion or reorder of an untampered log either moves the
      head hash or fails verification; and truncation always moves the head. */
  lemma TamperingShows(h: Body -> Hash, log: seq<Row>, tampered: seq<Row>)
    requires Collisionless(h) && Chained(h, log) && tampered != log
    ensures Head(tampered) != Head(log) || !Chained(h, tampered)
    ensures tampered <= log ==> Chained(h, tampered) && Head(tampered) != Head(log)
  {
    if Head(tampered) == Head(log) && Chained(h, tampered) {
      HeadDetermines(h, log, tampered);
    }
    if tampered <= log {
      assert tampered == log[..|tampered|];
      PrefixChained(h, log, |tampered|);
    }
  }
}
