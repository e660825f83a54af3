/** Candidate recovery in service mode: the keyset-paginated pool, and the scoring run
    that can be interrupted between any two commits. */
module CandidateScan {
  import opened Domain
  import opened Seqs

  // ----- keyset pages

  datatype Key = Key(created: int, id: Id)

  datatype Item = Item(key: Key, kind: int, active: bool)

  /** Newest first: the key order of the index, ties broken by identifier. */
  predicate Below(a: Key, b: Key) {
    a.created < b.created || (a.created == b.created && a.id < b.id)
  }

  /** The artifact table as its index lists it. */
  ghost predicate Indexed(rows: seq<Item>) {
    && (forall i, j :: 0 <= i < j < |rows| ==>
          rows[i].key.created > rows[j].key.created
          || (rows[i].key.created == rows[j].key.created && rows[i].key.id > rows[j].key.id))
    && UniqueIds(rows)
  }

  predicate Matches(r: Item, cursor: Option<Key>, kind: Option<int>) {
    && (kind.Some? ==> r.kind == kind.value)
    && (cursor.Some? ==> Below(r.key, cursor.value))
  }

  function Select(rows: seq<Item>, cursor: Option<Key>, kind: Option<int>): (r: seq<Item>)
    ensures forall x :: x in r <==> x in rows && Matches(x, cursor, kind)
  {
    if rows == [] then []
    else
      assert rows == [rows[0]] + rows[1..];
      (if Matches(rows[0], cursor, kind) then [rows[0]] else []) + Select(rows[1..], cursor, kind)
  }

  const PAGE := 500

  /** `list`: the first rows after the cursor, between one and five hundred of them. */
  function Page(rows: seq<Item>, limit: int, cursor: Option<Key>, kind: Option<int>): seq<Item> {
    var most := if limit > PAGE then PAGE else if limit < 1 then 1 else limit;
    var all := Select(rows, cursor, kind);
    if |all| <= most then all else all[..most]
  }

  /** A page holds the first rows after the cursor, as many as asked for but at least one
      and at most five hundred, and all that are left if they are fewer. */
  lemma PageMeans(rows: seq<Item>, limit: int, cursor: Option<Key>, kind: Option<int>)
    ensures var page, all := Page(rows, limit, cursor, kind), Select(rows, cursor, kind);
      && page <= all && |page| <= 500 && (|page| <= limit || |page| <= 1)
      && (page == all || |page| == limit || (|page| == 1 && limit < 1) || (|page| == 500 && limit > 500))
      && forall r ::
           r in all <==> (r in rows && (kind == None || kind == Some(r.kind))
                          && (cursor.None? || r.key.created < cursor.value.created
                              || (r.key.created == cursor.value.created && r.key.id < cursor.value.id)))
  {
  }

  lemma TailIndexed(rows: seq<Item>)
    requires Indexed(rows) && rows != []
    ensures Indexed(rows[1..])
    ensures forall x :: x in rows[1..] ==> Below(x.key, rows[0].key)
  {
    forall x | x in rows[1..] ensures Below(x.key, rows[0].key) {
      var j :| 0 <= j < |rows[1..]| && rows[1..][j] == x;
      assert rows[j + 1] == x;
    }
  }

  /** Selecting below the key of the `n`-th match leaves exactly the matches after it. */
  lemma {:induction false} SelectResumes(rows: seq<Item>, kind: Option<int>, n: nat)
    requires Indexed(rows) && 0 < n <= |Select(rows, None, kind)|
    ensures Select(rows, Some(Select(rows, None, kind)[n - 1].key), kind) == Select(rows, None, kind)[n..]
  {
    hide Indexed, Select, Below;
    SomeRow(rows, kind);
    TailIndexed(rows);
    SelectHead(rows, kind);
    var head, tail := rows[0], rows[1..];
    var rest := Select(tail, None, kind);
    if !Matches(head, None, kind) {
      SelectResumes(tail, kind, n);
      SelectSkips(rows, rest[n - 1].key, kind);
    } else if n == 1 {
      SelectAfterHead(rows, kind);
    } else {
      SelectResumes(tail, kind, n - 1);
      SelectSkips(rows, rest[n - 2].key, kind);
      assert ([head] + rest)[n..] == rest[n - 1..] && rest[n - 2] in rest;
    }
  }

  lemma SomeRow(rows: seq<Item>, kind: Option<int>)
    ensures rows == [] ==> Select(rows, None, kind) == []
  {
  }

  lemma SelectHead(rows: seq<Item>, kind: Option<int>)
    requires rows != []
    ensures Select(rows, None, kind) ==
              (if Matches(rows[0], None, kind) then [rows[0]] else []) + Select(rows[1..], None, kind)
  {
  }

  /** A cursor inside the tail does not select the head. */
  lemma SelectSkips(rows: seq<Item>, at: Key, kind: Option<int>)
    requires rows != [] && (Matches(rows[0], None, kind) ==> Below(at, rows[0].key))
    ensures Select(rows, Some(at), kind) == Select(rows[1..], Some(at), kind)
  {
  }

  lemma SelectAfterHead(rows: seq<Item>, kind: Option<int>)
    requires Indexed(rows) && rows != []
    ensures Select(rows, Some(rows[0].key), kind) == Select(rows[1..], None, kind)
  {
    TailIndexed(rows);
    BelowHead(rows[1..], rows[0].key, kind);
  }

  lemma {:induction false} BelowHead(rows: seq<Item>, k: Key, kind: Option<int>)
    requires forall x :: x in rows ==> Below(x.key, k)
    ensures Select(rows, Some(k), kind) == Select(rows, None, kind)
  {
    if rows != [] {
      assert rows[0] in rows;
      BelowHead(rows[1..], k, kind);
    }
  }

  // ----- the candidate pool

  predicate Eligible(r: Item, known: set<Id>) {
    r.key.id !in known && r.active
  }

  function EligibleIds(rows: seq<Item>, known: set<Id>): (r: seq<Id>)
    ensures forall x :: x in r <==> exists i :: 0 <= i < |rows| && Eligible(rows[i], known) && rows[i].key.id == x
  {
    if rows == [] then []
    else
      var last := rows[|rows| - 1];
      EligibleIds(rows[..|rows| - 1], known) + if Eligible(last, known) then [last.key.id] else []
  }

  lemma {:induction false} EligibleConcat(a: seq<Item>, b: seq<Item>, known: set<Id>)
    ensures EligibleIds(a + b, known) == EligibleIds(a, known) + EligibleIds(b, known)
  {
    if b == [] {
      assert a + b == a;
    } else {
      assert (a + b)[..|a + b| - 1] == a + b[..|b| - 1];
      EligibleConcat(a, b[..|b| - 1], known);
    }
  }

  ghost predicate UniqueIds(rows: seq<Item>) {
    forall i, j :: 0 <= i < j < |rows| ==> rows[i].key.id != rows[j].key.id
  }

  lemma {:induction false} EligibleDistinct(rows: seq<Item>, known: set<Id>)
    requires UniqueIds(rows)
    ensures Distinct(EligibleIds(rows, known))
  {
    if rows != [] {
      var init, last := rows[..|rows| - 1], rows[|rows| - 1];
      EligibleDistinct(init, known);
      forall x | x in EligibleIds(init, known) ensures x != last.key.id {
        var i :| 0 <= i < |init| && Eligible(init[i], known) && init[i].key.id == x;
        assert rows[i] == init[i];
      }
      var ids := EligibleIds(init, known);
      assert forall i :: 0 <= i < |ids| ==> ids[i] in ids;
    }
  }

  lemma {:induction false} SelectUnique(rows: seq<Item>, cursor: Option<Key>, kind: Option<int>)
    requires UniqueIds(rows)
    ensures UniqueIds(Select(rows, cursor, kind))
  {
    if rows != [] {
      SelectUnique(rows[1..], cursor, kind);
      var rest := Select(rows[1..], cursor, kind);
      forall j | 0 <= j < |rest| ensures rest[j].key.id != rows[0].key.id {
        assert rest[j] in rows[1..];
        var k :| 0 <= k < |rows[1..]| && rows[1..][k] == rest[j];
        assert rows[k + 1] == rest[j];
      }
      if Matches(rows[0], cursor, kind) {
        var r := [rows[0]] + rest;
        forall i, j | 0 <= i < j < |r| ensures r[i].key.id != r[j].key.id {
          assert r[j] == rest[j - 1];
        }
      }
    }
  }

  lemma {:induction false} InsertLength(x: Id, s: seq<Id>)
    requires x !in s
    ensures |Insert(x, s)| == |s| + 1
  {
    if s != [] {
      assert s[0] in s;
      InsertLength(x, s[1..]);
    }
  }

  /** Sorting a duplicate-free list loses nothing. */
  lemma {:induction false} SortKeepsLength(xs: seq<Id>)
    requires Distinct(xs)
    ensures |SortUnique(xs)| == |xs|
  {
    if xs != [] {
      SortKeepsLength(xs[1..]);
      InsertLength(xs[0], SortUnique(xs[1..]));
    }
  }

  /** The page loop reads every matching row once, in order, however many share a
      creation time; the pool is the plain filter of the table, sorted. */
  method CandidatePool(rows: seq<Item>, known: set<Id>, kind: Option<int>) returns (pool: seq<Id>)
    requires Indexed(rows)
    ensures Ascending(pool) && Distinct(pool)
    ensures |pool| == |EligibleIds(Select(rows, None, kind), known)|
    ensures forall x :: x in pool <==>
              exists r :: r in rows && (kind == None || kind == Some(r.kind)) && x !in known && r.active && r.key.id == x
  {
    hide Indexed, Select, Page, Eligible, Matches, EligibleIds;
    ghost var all, n := Select(rows, None, kind), 0;
    NothingEligible(all, known);
    var cursor: Option<Key> := None;
    var found: seq<Id> := [];
    while true
      invariant n <= |all| && found == EligibleIds(all[..n], known)
      invariant if n == 0 then cursor.None? else cursor == Some(all[n - 1].key)
      invariant Select(rows, cursor, kind) == all[n..]
      decreases |all| - n
    {
      var page := Page(rows, PAGE, cursor, kind);
      PageIs(rows, cursor, kind, all, n);
      if page == [] {
        break;
      }
      var kept := Keep(page, known);
      found := found + kept;
      EligibleConcat(all[..n], page, known);
      assert all[..n] + page == all[..n + |page|];
      n := n + |page|;
      if |page| < PAGE {
        break;
      }
      cursor := Some(page[|page| - 1].key);
      assert page[|page| - 1] == all[n - 1];
      SelectResumes(rows, kind, n);
    }
    assert all[..n] == all;
    pool := SortUnique(found);
    SortUniqueAscends(found);
    PoolDistinct(rows, known, kind);
    SortKeepsLength(found);
    forall x ensures x in pool <==>
      exists r :: r in rows && (kind == None || kind == Some(r.kind)) && x !in known && r.active && r.key.id == x
    {
      PoolMembers(rows, known, kind, x);
    }
  }

  lemma NothingEligible(all: seq<Item>, known: set<Id>)
    ensures all[0..] == all && EligibleIds(all[..0], known) == []
  {
  }

  lemma PageIs(rows: seq<Item>, cursor: Option<Key>, kind: Option<int>, all: seq<Item>, n: nat)
    requires n <= |all| && Select(rows, cursor, kind) == all[n..]
    ensures var page := Page(rows, PAGE, cursor, kind);
      && n + |page| <= |all| && page == all[n..n + |page|]
      && (|page| < PAGE ==> n + |page| == |all|)
  {
  }

  lemma PoolDistinct(rows: seq<Item>, known: set<Id>, kind: Option<int>)
    requires Indexed(rows)
    ensures Distinct(EligibleIds(Select(rows, None, kind), known))
  {
    SelectUnique(rows, None, kind);
    EligibleDistinct(Select(rows, None, kind), known);
  }

  method Keep(page: seq<Item>, known: set<Id>) returns (kept: seq<Id>)
    ensures kept == EligibleIds(page, known)
  {
    kept := [];
    for i := 0 to |page|
      invariant kept == EligibleIds(page[..i], known)
    {
      assert page[..i + 1][..i] == page[..i];
      if page[i].key.id in known {
        continue;
      }
      if !page[i].active {
        continue;
      }
      kept := kept + [page[i].key.id];
    }
    assert page[..|page|] == page;
  }

  lemma PoolMembers(rows: seq<Item>, known: set<Id>, kind: Option<int>, x: Id)
    ensures x in EligibleIds(Select(rows, None, kind), known) <==>
              exists r :: r in rows && (kind == None || kind == Some(r.kind)) && x !in known && r.active && r.key.id == x
  {
    var all := Select(rows, None, kind);
    if x in EligibleIds(all, known) {
      var i :| 0 <= i < |all| && Eligible(all[i], known) && all[i].key.id == x;
      assert all[i] in all;
    }
    if r :| r in rows && (kind == None || kind == Some(r.kind)) && x !in known && r.active && r.key.id == x {
      assert Matches(r, None, kind) && Eligible(r, known);
      assert r in all;
      var i :| 0 <= i < |all| && all[i] == r;
    }
  }

  // ----- the scoring run

  datatype Score = Score(raw: real, isCandidate: bool)

  /** What one run has persisted: a score row per candidate, and the progress row. */
  class Run {
    var scores: map<Id, Score>
    var checkpoint: nat
    var found: Option<nat>
    var lifetime: Option<nat>

    constructor ()
      ensures scores == map[] && checkpoint == 0 && found.None? && lifetime.None?
    {
      scores, checkpoint, found, lifetime := map[], 0, None, None;
    }

    method Tick() returns (alive: bool)
      modifies this`lifetime
      ensures old(lifetime).None? ==> alive && lifetime.None?
    {
      alive := lifetime != Some(0);
      if lifetime.Some? && lifetime.value > 0 {
        lifetime := Some(lifetime.value - 1);
      }
    }

    /** Idempotent: a candidate already recorded is left as it is. */
    method AddCandidate(id: Id, score: Score) returns (r: Result<bool>)
      modifies this`lifetime, this`scores
      ensures r.Ok? ==> scores == old(scores)[id := if id in old(scores) then old(scores)[id] else score]
      ensures r.Ok? ==> (r.value <==> id !in old(scores))
      ensures r.Err? ==> r.Crashed() && scores == old(scores)
      ensures old(lifetime).None? ==> r.Ok? && lifetime.None?
    {
      if id in scores {
        return Ok(false);
      }
      var alive := Tick();
      if !alive {
        return Err(Crash);
      }
      scores := scores[id := score];
      return Ok(true);
    }

    method UpdateProgress(index: nat) returns (r: Result<()>)
      modifies this`lifetime, this`checkpoint
      ensures r.Ok? ==> checkpoint == index
      ensures r.Err? ==> r.Crashed()
      ensures old(lifetime).None? ==> r.Ok? && lifetime.None?
    {
      var alive := Tick();
      if !alive {
        return Err(Crash);
      }
      checkpoint := index;
      return Ok(());
    }

    /** Counts every score row of the run, whatever its score. */
    method Finish() returns (r: Result<()>)
      modifies this`lifetime, this`found
      ensures r.Ok? ==> found == Some(|scores|)
      ensures r.Err? ==> r.Crashed()
      ensures old(lifetime).None? ==> r.Ok? && lifetime.None?
    {
      var alive := Tick();
      if !alive {
        return Err(Crash);
      }
      found := Some(|scores|);
      return Ok(());
    }
  }

  /** Rows scored so far: only pool members, each with its own score. */
  ghost predicate Partial(scores: map<Id, Score>, pool: seq<Id>, score: Id -> Score) {
    scores.Keys <= Elements(pool) && forall id :: id in scores ==> scores[id] == score(id)
  }

  ghost predicate Full(scores: map<Id, Score>, pool: seq<Id>, score: Id -> Score) {
    Partial(scores, pool, score) && Elements(pool) <= scores.Keys
  }

  /** How many of `ids` are candidates not scored in `done`. */
  function NewCandidates(ids: seq<Id>, done: set<Id>, score: Id -> Score): nat {
    if ids == [] then 0
    else
      var id := ids[|ids| - 1];
      NewCandidates(ids[..|ids| - 1], done, score) + if id !in done && score(id).isCandidate then 1 else 0
  }

  ghost predicate ScoredUpTo(already: set<Id>, now: map<Id, Score>, ids: seq<Id>) {
    now.Keys == already + Elements(ids)
  }

  /** One past the last of `ids` that had no row, or zero. */
  function LastNew(ids: seq<Id>, done: set<Id>): nat {
    if ids == [] then 0 else if ids[|ids| - 1] !in done then |ids| else LastNew(ids[..|ids| - 1], done)
  }

  /** One candidate that has no row yet. */
  method ScoreOne(run: Run, pool: seq<Id>, score: Id -> Score, i: nat, ghost already: set<Id>) returns (r: Result<()>)
    requires Partial(run.scores, pool, score) && Distinct(pool) && i < |pool| && pool[i] !in already
    requires ScoredUpTo(already, run.scores, pool[..i])
    modifies run
    ensures Partial(run.scores, pool, score)
    ensures r.Ok? ==> ScoredUpTo(already, run.scores, pool[..i + 1]) && run.checkpoint == i + 1
    ensures r.Err? ==> r.Crashed()
    ensures old(run.lifetime).None? ==> r.Ok? && run.lifetime.None?
  {
    NotEarlier(pool, i);
    ElementsNext(pool, i);
    var created :- run.AddCandidate(pool[i], score(pool[i]));
    assert created;
    r := run.UpdateProgress(i + 1);
  }

  /** The count and the checkpoint after the first `ids` of the pool. */
  ghost predicate Counted(already: map<Id, Score>, was: nat, ids: seq<Id>, score: Id -> Score, found: nat, checkpoint: nat) {
    && found == |already| + NewCandidates(ids, already.Keys, score)
    && checkpoint == var n := LastNew(ids, already.Keys); if n == 0 then was else n
  }

  lemma CountedNext(already: map<Id, Score>, was: nat, pool: seq<Id>, i: nat, score: Id -> Score, found: nat, checkpoint: nat)
    requires i < |pool| && Counted(already, was, pool[..i], score, found, checkpoint)
    ensures if pool[i] in already then Counted(already, was, pool[..i + 1], score, found, checkpoint)
            else Counted(already, was, pool[..i + 1], score, found + if score(pool[i]).isCandidate then 1 else 0, i + 1)
  {
    assert pool[..i + 1][..i] == pool[..i];
  }

  lemma CountedNone(already: map<Id, Score>, was: nat, pool: seq<Id>, score: Id -> Score)
    ensures Counted(already, was, pool[..0], score, |already|, was) && pool[..|pool|] == pool
  {
  }

  /** Returns the number of candidates it reports, or none when cancelled between two
      candidates, which also closes the run. */
  method RunCandidateRecovery(run: Run, pool: seq<Id>, score: Id -> Score, cancel: nat -> bool)
    returns (r: Result<Option<nat>>)
    requires Partial(run.scores, pool, score) && Distinct(pool)
    modifies run
    ensures Partial(run.scores, pool, score)
    ensures r.Ok? ==> run.found == Some(|run.scores|)
    ensures r.Ok? && r.value.Some? ==> Full(run.scores, pool, score)
    ensures r.Ok? && r.value.Some? ==>
              Counted(old(run.scores), old(run.checkpoint), pool, score, r.value.value, run.checkpoint)
    ensures r.Ok? && r.value.None? ==> run.checkpoint < |pool| && cancel(run.checkpoint)
    ensures r.Err? ==> r.Crashed()
    ensures old(run.lifetime).None? ==> r.Ok? && run.lifetime.None?
  {
    hide ScoredUpTo, Partial, Distinct, Counted;
    var already := run.scores.Keys;
    var found: nat := |run.scores|;
    ghost var start, was := run.scores, run.checkpoint;
    NoneYet(run.scores, pool);
    CountedNone(start, was, pool, score);
    for i := 0 to |pool|
      invariant Partial(run.scores, pool, score)
      invariant ScoredUpTo(already, run.scores, pool[..i])
      invariant Counted(start, was, pool[..i], score, found, run.checkpoint)
      invariant old(run.lifetime).None? ==> run.lifetime.None?
    {
      if cancel(i) {
        var _ :- run.UpdateProgress(i);
        var _ :- run.Finish();
        return Ok(None);
      }
      CountedNext(start, was, pool, i, score, found, run.checkpoint);
      if pool[i] in already {
        OneMore(already, run.scores, pool, i);
        continue;
      }
      var scored := ScoreOne(run, pool, score, i, already);
      var _ :- scored;
      if score(pool[i]).isCandidate {
        found := found + 1;
      }
    }
    AllScored(already, run.scores, pool, score);
    var _ :- run.Finish();
    return Ok(Some(found));
  }

  lemma NoneYet(m: map<Id, Score>, pool: seq<Id>)
    ensures ScoredUpTo(m.Keys, m, pool[..0])
  {
  }

  lemma OneMore(already: set<Id>, now: map<Id, Score>, pool: seq<Id>, i: nat)
    requires i < |pool| && pool[i] in already && ScoredUpTo(already, now, pool[..i])
    ensures ScoredUpTo(already, now, pool[..i + 1])
  {
    ElementsNext(pool, i);
  }

  lemma ElementsNext(pool: seq<Id>, i: nat)
    requires i < |pool|
    ensures Elements(pool[..i + 1]) == Elements(pool[..i]) + {pool[i]}
  {
    assert pool[..i + 1] == pool[..i] + [pool[i]];
  }

  lemma AllScored(already: set<Id>, now: map<Id, Score>, pool: seq<Id>, score: Id -> Score)
    requires ScoredUpTo(already, now, pool) && Partial(now, pool, score)
    ensures Full(now, pool, score)
  {
  }

  lemma NotEarlier(pool: seq<Id>, i: nat)
    requires Distinct(pool) && i < |pool|
    ensures pool[i] !in pool[..i]
  {
  }

  /** Interrupted any number of times and then finished: exactly one row per pool
      member, each as an undisturbed run would have scored it. */
  method ResumeUntilDone(pool: seq<Id>, score: Id -> Score, lifetimes: seq<nat>) returns (run: Run)
    requires Distinct(pool)
    ensures Full(run.scores, pool, score) && run.scores.Keys == Elements(pool)
    ensures run.found == Some(|run.scores|)
  {
    run := new Run();
    for i := 0 to |lifetimes|
      invariant Partial(run.scores, pool, score)
      invariant fresh(run)
    {
      run.lifetime := Some(lifetimes[i]);
      var attempt := RunCandidateRecovery(run, pool, score, (i: nat) => false);
    }
    run.lifetime := None;
    var last := RunCandidateRecovery(run, pool, score, (i: nat) => false);
    assert run.scores.Keys == Elements(pool);
  }

  // ----- the reported count

  function Candidates(ids: seq<Id>, score: Id -> Score): nat {
    NewCandidates(ids, {}, score)
  }

  function Among(ids: seq<Id>, done: set<Id>): nat {
    if ids == [] then 0 else Among(ids[..|ids| - 1], done) + if ids[|ids| - 1] in done then 1 else 0
  }

  lemma {:induction false} AmongIsSize(ids: seq<Id>, done: set<Id>)
    requires Distinct(ids) && done <= Elements(ids)
    ensures Among(ids, done) == |done|
  {
    if ids == [] {
      assert done == {};
    } else {
      var init, last := ids[..|ids| - 1], ids[|ids| - 1];
      NotEarlier(ids, |ids| - 1);
      AmongIgnores(init, done, last);
      WithoutLast(ids, done);
      AmongIsSize(init, done - {last});
    }
  }

  lemma WithoutLast(ids: seq<Id>, done: set<Id>)
    requires ids != [] && done <= Elements(ids)
    ensures var last := ids[|ids| - 1];
      && done - {last} <= Elements(ids[..|ids| - 1])
      && |done| == |done - {last}| + if last in done then 1 else 0
  {
    ElementsNext(ids, |ids| - 1);
    assert ids[..|ids|] == ids;
    var last := ids[|ids| - 1];
    assert last in done ==> done == (done - {last}) + {last};
    assert last !in done ==> done - {last} == done;
  }

  lemma {:induction false} AmongIgnores(ids: seq<Id>, done: set<Id>, x: Id)
    requires x !in ids
    ensures Among(ids, done - {x}) == Among(ids, done)
  {
    if ids != [] {
      assert ids[|ids| - 1] in ids;
      AmongIgnores(ids[..|ids| - 1], done, x);
    }
  }

  lemma {:induction false} CountSplits(ids: seq<Id>, done: set<Id>, score: Id -> Score)
    ensures Candidates(ids, score) <= Among(ids, done) + NewCandidates(ids, done, score)
    ensures Candidates(ids, score) == Among(ids, done) + NewCandidates(ids, done, score) <==>
              forall id :: id in ids && id in done ==> score(id).isCandidate
  {
    if ids != [] {
      CountSplits(ids[..|ids| - 1], done, score);
      assert ids == ids[..|ids| - 1] + [ids[|ids| - 1]];
    }
  }

  /** A resumed run starts its count from every row already scored, so it reports what
      an undisturbed run reports exactly when all of those rows were candidates, and
      more otherwise. */
  lemma ReportedCountIff(pool: seq<Id>, scores: map<Id, Score>, score: Id -> Score)
    requires Distinct(pool) && Partial(scores, pool, score)
    ensures |scores| + NewCandidates(pool, scores.Keys, score) >= Candidates(pool, score)
    ensures |scores| + NewCandidates(pool, scores.Keys, score) == Candidates(pool, score) <==>
              forall id :: id in scores ==> score(id).isCandidate
  {
    AmongIsSize(pool, scores.Keys);
    CountSplits(pool, scores.Keys, score);
  }
}
