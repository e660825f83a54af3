/** Requesting a revocation: the event, and the barrier that takes the closure out
    of service before any analysis begins. */
module Request {
  import opened Domain
  import opened Seqs
  import opened Reachability
  import opened StateMachine
  import opened Store
  import opened RevocationSpec
  import opened RevocationInv
  import opened Pipeline

  // ----- the barrier

  /** One closure member: a root is revoked, a descendant quarantined, row first. */
  function BarOne(db: Db, ev: Event, id: Id): Db {
    if id !in db.artifacts then db
    else if id in ev.roots then db.WithStatus(id, Revoked)
    else db.WithRow(id, ev.key).WithStatus(id, Status.Quarantined)
  }

  function Bar(db: Db, ev: Event, c: seq<Id>): Db {
    if c == [] then db else BarOne(Bar(db, ev, c[..|c| - 1]), ev, c[|c| - 1])
  }

  /** How many members the loop gets through before one is missing. */
  function Stops(db: Db, c: seq<Id>): (k: nat)
    ensures k <= |c| && (k < |c| ==> c[k] !in db.artifacts)
    ensures forall j :: 0 <= j < k ==> c[j] in db.artifacts
  {
    if c == [] || c[0] !in db.artifacts then 0 else 1 + Stops(db, c[1..])
  }

  /** The barrier over `c` as it goes: a missing member ends it, a descendant with its
      row already written. */
  function BarUntil(db: Db, ev: Event, c: seq<Id>): Db {
    var k := Stops(db, c);
    var b := Bar(db, ev, c[..k]);
    if k < |c| && c[k] !in ev.roots then b.WithRow(c[k], ev.key) else b
  }

  lemma StopsAt(db: Db, c: seq<Id>, i: nat)
    requires i <= |c| && (i < |c| ==> c[i] !in db.artifacts)
    requires forall j :: 0 <= j < i ==> c[j] in db.artifacts
    ensures Stops(db, c) == i
  {
  }

  function AfterBarrier(x: Artifact, ev: Event, id: Id, hit: bool): Artifact {
    if !hit then x
    else if id in ev.roots then x.(status := Revoked)
    else x.(status := Status.Quarantined)
  }

  /** What the barrier has done to `id`: revoked a root, quarantined a descendant,
      left anything outside the closure alone. */
  ghost predicate BarredAt(a: Db, b: Db, ev: Event, id: Id, hit: bool) {
    && (id in a.artifacts <==> id in b.artifacts)
    && (id in a.artifacts ==> b.artifacts[id] == AfterBarrier(a.artifacts[id], ev, id, hit))
    && (hit && id !in ev.roots ==> id in b.quarantine && b.quarantine[id] == Row(ev.key, true))
    && (!hit || id in ev.roots ==> RowSame(a, b, id))
  }

  predicate RowSame(a: Db, b: Db, id: Id) {
    (id in a.quarantine <==> id in b.quarantine) && (id in a.quarantine ==> a.quarantine[id] == b.quarantine[id])
  }

  /** Barred, not barred, or caught with the row written and the status still to come. */
  ghost predicate PartlyBarred(a: Db, b: Db, ev: Event, id: Id) {
    || BarredAt(a, b, ev, id, false)
    || BarredAt(a, b, ev, id, true)
    || (id !in ev.roots && b.RowActive(id) && SameArtifact(a, b, id))
  }

  predicate SameArtifact(a: Db, b: Db, id: Id) {
    (id in a.artifacts <==> id in b.artifacts) && (id in a.artifacts ==> a.artifacts[id] == b.artifacts[id])
  }

  ghost predicate Barred(a: Db, b: Db, ev: Event, c: seq<Id>) {
    && b == a.(artifacts := b.artifacts, quarantine := b.quarantine)
    && forall id :: BarredAt(a, b, ev, id, id in c)
  }

  lemma BarOneAt(a: Db, b: Db, ev: Event, id: Id, x: Id, hit: bool)
    requires BarredAt(a, b, ev, id, hit) && x in b.artifacts
    ensures BarredAt(a, BarOne(b, ev, x), ev, id, hit || id == x)
  {
    if id != x {
      BarOneElsewhere(b, ev, id, x);
    }
  }

  lemma BarOneElsewhere(b: Db, ev: Event, id: Id, x: Id)
    requires x in b.artifacts && id != x
    ensures var c := BarOne(b, ev, x);
      && RowSame(b, c, id)
      && (id in b.artifacts <==> id in c.artifacts)
      && (id in b.artifacts ==> c.artifacts[id] == b.artifacts[id])
  {
  }

  lemma BarOneBars(a: Db, b: Db, ev: Event, c: seq<Id>, x: Id)
    requires Barred(a, b, ev, c) && x in a.artifacts
    ensures Barred(a, BarOne(b, ev, x), ev, c + [x])
  {
    hide BarredAt;
    assert x in b.artifacts by {
      assert BarredAt(a, b, ev, x, x in c);
      BarredPresent(a, b, ev, x, x in c);
    }
    forall id ensures BarredAt(a, BarOne(b, ev, x), ev, id, id in c + [x]) {
      BarOneAt(a, b, ev, id, x, id in c);
    }
  }

  lemma BarredPresent(a: Db, b: Db, ev: Event, id: Id, hit: bool)
    requires BarredAt(a, b, ev, id, hit)
    ensures id in a.artifacts <==> id in b.artifacts
  {
  }

  lemma {:induction false} BarBars(a: Db, ev: Event, c: seq<Id>)
    requires forall id :: id in c ==> id in a.artifacts
    ensures Barred(a, Bar(a, ev, c), ev, c)
  {
    if c != [] {
      var init := c[..|c| - 1];
      assert c == init + [c[|c| - 1]];
      BarBars(a, ev, init);
      BarOneBars(a, Bar(a, ev, init), ev, init, c[|c| - 1]);
    }
  }

  /** What any barrier has done, complete or cut short: nothing outside the closure. */
  ghost predicate BarredWithin(a: Db, b: Db, ev: Event) {
    forall id :: BarredAt(a, b, ev, id, false) || (InClosure(a, ev.roots, id) && PartlyBarred(a, b, ev, id))
  }

  lemma WithinSoFar(a: Db, b: Db, ev: Event, c: seq<Id>)
    requires Barred(a, b, ev, c) && forall id :: id in c ==> InClosure(a, ev.roots, id)
    ensures BarredWithin(a, b, ev)
    ensures forall x :: InClosure(a, ev.roots, x) && x !in ev.roots ==> BarredWithin(a, b.WithRow(x, ev.key), ev)
  {
    hide InClosure;
    forall id ensures BarredAt(a, b, ev, id, false) || (InClosure(a, ev.roots, id) && PartlyBarred(a, b, ev, id)) {
      assert BarredAt(a, b, ev, id, id in c);
    }
    forall x | InClosure(a, ev.roots, x) && x !in ev.roots ensures BarredWithin(a, b.WithRow(x, ev.key), ev) {
      RowWithin(a, b, ev, c, x);
    }
  }

  lemma RowWithin(a: Db, b: Db, ev: Event, c: seq<Id>, x: Id)
    requires Barred(a, b, ev, c) && forall id :: id in c ==> InClosure(a, ev.roots, id)
    requires InClosure(a, ev.roots, x) && x !in ev.roots
    ensures BarredWithin(a, b.WithRow(x, ev.key), ev)
  {
    hide InClosure;
    var b' := b.WithRow(x, ev.key);
    forall id ensures BarredAt(a, b', ev, id, false) || (InClosure(a, ev.roots, id) && PartlyBarred(a, b', ev, id)) {
      assert BarredAt(a, b, ev, id, id in c);
    }
  }

  /** `apply_barrier`. Every write commits by itself; a missing artifact or a crash
      leaves the members before it barred. */
  method ApplyBarrier(ws: Workspace, ev: Event) returns (r: Result<seq<Id>>)
    modifies ws
    ensures ev.policy.Forensic? ==> r == Ok([]) && ws.db == old(ws.db)
    ensures ws.db == old(ws.db).(artifacts := ws.db.artifacts, quarantine := ws.db.quarantine)
    ensures forall id :: id in old(ws.db).artifacts <==> id in ws.db.artifacts
    ensures BarredWithin(old(ws.db), ws.db, ev)
    ensures r.Ok? && !ev.policy.Forensic? && ev.roots != [] ==> IsClosure(old(ws.db), ev.roots, r.value)
    ensures r.Ok? ==> (ev.roots == [] ==> r.value == []) && Barred(old(ws.db), ws.db, ev, r.value)
    ensures r.Ok? ==> forall id :: id in r.value ==> id in old(ws.db).artifacts
    ensures r.Err? ==>
              r.Crashed() || (r == Err(NotFound) && !(forall n :: InClosure(old(ws.db), ev.roots, n) ==> n in old(ws.db).artifacts))
    ensures r == Err(NotFound) ==>
              exists c :: IsClosure(old(ws.db), ev.roots, c) && Stops(old(ws.db), c) < |c| && ws.db == BarUntil(old(ws.db), ev, c)
    ensures ws.Ran(r.Crashed())
  {
    hide BarredAt, BarredWithin, InClosure, Barred, BarOne, IsClosure;
    ghost var a := ws.db;
    NoneBarred(a, ev);
    if ev.policy == Forensic {
      return Ok([]);
    }
    var found := RecordedDescendants(ws.db, ev.roots);
    var c := if found.Ok? then found.value else ev.roots;
    Members(a, ev, c);
    for i := 0 to |c|
      invariant ws.db == Bar(a, ev, c[..i]) && Barred(a, ws.db, ev, c[..i]) && Rest(a, ws.db)
      invariant forall j :: 0 <= j < i ==> c[j] in a.artifacts
      invariant ws.Ran(false)
    {
      assert c[..i + 1] == c[..i] + [c[i]] && c[..i + 1][..i] == c[..i];
      WithinSoFar(a, ws.db, ev, c[..i]);
      RestRow(a, ws.db, ev, c[i]);
      ghost var before := ws.db;
      var barred := BarMember(ws, ev, c[i]);
      if barred == Err(NotFound) {
        StopsAt(a, c, i);
      }
      var _ :- barred;
      BarOneBars(a, before, ev, c[..i], c[i]);
      BarOneRest(a, before, ev, c[i]);
    }
    assert c[..|c|] == c;
    WithinSoFar(a, ws.db, ev, c);
    return Ok(c);
  }

  /** One member of the closure. */
  method BarMember(ws: Workspace, ev: Event, x: Id) returns (r: Result<()>)
    modifies ws
    ensures r.Ok? ==> x in old(ws.db).artifacts && ws.db == BarOne(old(ws.db), ev, x)
    ensures r.Err? ==> ws.db == old(ws.db) || (x !in ev.roots && ws.db == old(ws.db).WithRow(x, ev.key))
    ensures r.Err? ==> r.Crashed() || (r == Err(NotFound) && x !in old(ws.db).artifacts)
    ensures r == Err(NotFound) ==> ws.db == if x in ev.roots then old(ws.db) else old(ws.db).WithRow(x, ev.key)
    ensures ws.Ran(r.Crashed())
  {
    if x in ev.roots {
      r := ws.SetStatus(x, Revoked);
    } else {
      var _ :- ws.AddQuarantine(x, ev.key);
      r := ws.SetStatus(x, Status.Quarantined);
    }
  }

  ghost predicate Rest(a: Db, b: Db) {
    && b == a.(artifacts := b.artifacts, quarantine := b.quarantine)
    && forall id :: id in a.artifacts <==> id in b.artifacts
  }

  lemma RestRow(a: Db, b: Db, ev: Event, x: Id)
    requires Rest(a, b)
    ensures Rest(a, b.WithRow(x, ev.key))
  {
  }

  lemma BarOneRest(a: Db, b: Db, ev: Event, x: Id)
    requires Rest(a, b) && x in a.artifacts
    ensures Rest(a, BarOne(b, ev, x))
  {
  }

  lemma NoneBarred(a: Db, ev: Event)
    ensures Barred(a, a, ev, []) && BarredWithin(a, a, ev)
  {
    BarBars(a, ev, []);
    WithinSoFar(a, a, ev, []);
  }

  lemma Members(a: Db, ev: Event, c: seq<Id>)
    ensures IsClosure(a, ev.roots, c) || (c == ev.roots == []) ==> forall id :: id in c ==> InClosure(a, ev.roots, id)
  {
  }

  // ----- the request

  function NewEvent(key: Key, roots: seq<Id>, policy: Policy, severity: Severity): Event {
    Event(key, SortUnique(roots), policy, severity, Requested, [], [], [], [], [], [])
  }

  /** The transitions of a request that has gone through. */
  function RequestLog(policy: Policy): seq<Step> {
    if policy == Forensic then [Step(Requested, CandidateRecovery)]
    else [Step(Requested, BarrierApplied), Step(BarrierApplied, CandidateRecovery)]
  }

  /** Nothing but the serving tables and the one event has changed, and that event
      has not left the states of the request. */
  ghost predicate RequestFrame(a: Db, b: Db, key: Key) {
    && b == a.(artifacts := b.artifacts, quarantine := b.quarantine, events := b.events, log := b.log)
    && (forall id :: id in a.artifacts <==> id in b.artifacts)
    && (forall k :: k != key ==> (k in a.events <==> k in b.events) && (k in a.events ==> a.events[k] == b.events[k]))
    && (forall k :: k != key ==> a.LogOf(k) == b.LogOf(k))
    && (key in b.events ==> b.events[key].state in {Requested, BarrierApplied, CandidateRecovery})
  }

  /** The serving tables are those of the barrier over `c`. */
  ghost predicate Covers(a: Db, b: Db, ev: Event, c: seq<Id>) {
    forall id :: BarredAt(a, b, ev, id, id in c)
  }

  /** What the barrier of a new event does to the store `a`: every root is revoked, every
      other member of its closure is quarantined with an active row for the event, and
      nothing outside the closure is touched. */
  ghost predicate TakenOut(a: Db, b: Db, roots: seq<Id>, key: Key) {
    forall id ::
      && (id in a.artifacts <==> id in b.artifacts)
      && (InClosure(a, roots, id) && id in roots ==>
            id in b.artifacts && b.artifacts[id] == a.artifacts[id].(status := Revoked) && RowSame(a, b, id))
      && (InClosure(a, roots, id) && id !in roots ==>
            id in b.artifacts && b.artifacts[id] == a.artifacts[id].(status := Status.Quarantined)
            && id in b.quarantine && b.quarantine[id] == Row(key, true))
      && (!InClosure(a, roots, id) ==> (id in a.artifacts ==> b.artifacts[id] == a.artifacts[id]) && RowSame(a, b, id))
  }

  lemma CoversTakesOut(a: Db, b: Db, ev: Event, roots: seq<Id>, c: seq<Id>)
    requires IsClosure(a, roots, c) && Covers(a, b, ev, c) && (forall id :: id in c ==> id in a.artifacts)
    requires forall id :: id in ev.roots <==> id in roots
    ensures TakenOut(a, b, roots, ev.key)
  {
    hide InClosure;
    forall id
      ensures id in a.artifacts <==> id in b.artifacts
      ensures InClosure(a, roots, id) && id in roots ==>
                id in b.artifacts && b.artifacts[id] == a.artifacts[id].(status := Revoked) && RowSame(a, b, id)
      ensures InClosure(a, roots, id) && id !in roots ==>
                id in b.artifacts && b.artifacts[id] == a.artifacts[id].(status := Status.Quarantined)
                && id in b.quarantine && b.quarantine[id] == Row(ev.key, true)
      ensures !InClosure(a, roots, id) ==> (id in a.artifacts ==> b.artifacts[id] == a.artifacts[id]) && RowSame(a, b, id)
    {
      assert BarredAt(a, b, ev, id, id in c);
      assert id in c <==> InClosure(a, roots, id);
    }
  }

  lemma TakenOutOn(a: Db, a': Db, b: Db, roots: seq<Id>, asked: seq<Id>, key: Key)
    requires TakenOut(a', b, roots, key) && ServingSame(a, a') && a.recorded == a'.recorded
    requires forall n :: n in roots <==> n in asked
    ensures TakenOut(a, b, asked, key)
  {
    hide Reachable;
    forall n ensures n in Elements(roots) <==> n in Elements(asked) {
      assert n in roots <==> n in asked;
    }
    assert a.RecordedPairs() == a'.RecordedPairs() && Elements(roots) == Elements(asked);
    assert forall id :: InClosure(a, asked, id) == InClosure(a', roots, id);
  }

  lemma BarredCovers(a: Db, b: Db, ev: Event, c: seq<Id>)
    requires Barred(a, b, ev, c)
    ensures Covers(a, b, ev, c)
  {
  }

  lemma CoversOn(a: Db, a': Db, b: Db, b': Db, ev: Event, ev': Event, c: seq<Id>)
    requires Covers(a', b, ev, c) && ServingSame(a, a') && ServingSame(b, b')
    requires ev.roots == ev'.roots && ev.key == ev'.key
    ensures Covers(a, b', ev', c)
  {
    forall id ensures BarredAt(a, b', ev', id, id in c) {
      assert BarredAt(a', b, ev, id, id in c);
    }
  }

  lemma WithinOn(a: Db, a': Db, b: Db, b': Db, ev: Event)
    requires BarredWithin(a', b, ev) && ServingSame(a, a') && ServingSame(b, b') && a.recorded == a'.recorded
    ensures BarredWithin(a, b', ev)
  {
    assert a.RecordedPairs() == a'.RecordedPairs();
    forall id ensures BarredAt(a, b', ev, id, false) || (InClosure(a, ev.roots, id) && PartlyBarred(a, b', ev, id)) {
      assert BarredAt(a', b, ev, id, false) || (InClosure(a', ev.roots, id) && PartlyBarred(a', b, ev, id));
    }
  }

  lemma NothingBarred(a: Db, b: Db, ev: Event)
    requires ServingSame(a, b)
    ensures BarredWithin(a, b, ev)
  {
  }

  lemma SortedRoots(a: Db, b: Db, roots: seq<Id>)
    requires a.recorded == b.recorded
    ensures roots == [] <==> SortUnique(roots) == []
    ensures forall c :: IsClosure(b, SortUnique(roots), c) <==> IsClosure(a, roots, c)
  {
    assert Elements(SortUnique(roots)) == Elements(roots);
    assert a.RecordedPairs() == b.RecordedPairs();
    if roots != [] {
      assert roots[0] in SortUnique(roots);
    }
  }

  /** A request with a known key returns the stored event and does nothing, however
      far the barrier of the first request got. */
  method RequestRevocation(ws: Workspace, key: Key, roots: seq<Id>, policy: Policy, severity: Severity)
    returns (r: Result<Event>)
    modifies ws
    ensures key in old(ws.db).events ==>
              r == Ok(old(ws.db).events[key]) && ws.db == old(ws.db)
    ensures key !in old(ws.db).events ==> RequestFrame(old(ws.db), ws.db, key)
    ensures key !in old(ws.db).events ==> BarredWithin(old(ws.db), ws.db, NewEvent(key, roots, policy, severity))
    ensures key !in old(ws.db).events && r.Ok? ==>
              r.value == NewEvent(key, roots, policy, severity).(state := CandidateRecovery) && Current(ws.db, r.value)
    ensures key !in old(ws.db).events && r.Ok? ==> ws.db.LogOf(key) == old(ws.db).LogOf(key) + RequestLog(policy)
    ensures key !in old(ws.db).events && policy.Forensic? ==> ServingSame(old(ws.db), ws.db)
    ensures key !in old(ws.db).events && r.Ok? && !policy.Forensic? && roots != [] ==>
              exists c :: IsClosure(old(ws.db), roots, c) && Covers(old(ws.db), ws.db, r.value, c)
    ensures key !in old(ws.db).events && r.Ok? && !policy.Forensic? && roots != [] ==> TakenOut(old(ws.db), ws.db, roots, key)
    ensures key !in old(ws.db).events && r.Ok? ==>
              && ws.db.LogOf(key) == old(ws.db).LogOf(key)
                   + (if policy.Forensic? then [Step(Requested, CandidateRecovery)]
                      else [Step(Requested, BarrierApplied), Step(BarrierApplied, CandidateRecovery)])
              && var e := r.value;
              && e.key == key && e.policy == policy && e.severity == severity && e.state == CandidateRecovery
              && Ascending(e.roots) && (forall n :: n in e.roots <==> n in roots)
              && e.decisions == [] && e.quarantined == [] && e.rebuilt == [] && e.unresolved == []
    ensures r.Err? ==> r.fault in {Crash, NotFound}
    ensures ws.Ran(r.Crashed())
  {
    if key in ws.db.events {
      return Ok(ws.db.events[key]);
    }
    hide BarredWithin, IsClosure, Covers, RequestFrame, TakenOut;
    var ev := NewEvent(key, roots, policy, severity);
    SortUniqueAscends(roots);
    Inserted(ws.db, ev);
    NothingBarred(ws.db, ws.db, ev);
    NothingBarred(ws.db, ws.db.WithEvent(ev), ev);
    var _ :- ws.Update(ev);
    ghost var b := ws.db;
    if policy == Forensic {
      r := SkipBarrier(ws, ev);
      NothingBarred(old(ws.db), ws.db, ev);
    } else {
      SortedRoots(old(ws.db), ws.db, roots);
      r := ApplyAndEnter(ws, ev);
      WithinOn(old(ws.db), b, ws.db, ws.db, ev);
      if r.Ok? && roots != [] {
        TakenOutOn(old(ws.db), b, ws.db, ev.roots, roots, key);
      }
    }
    FrameTwice(old(ws.db), b, ws.db, key);
  }

  lemma Inserted(a: Db, ev: Event)
    requires ev.state == Requested
    ensures RequestFrame(a, a.WithEvent(ev), ev.key)
    ensures ev.key !in a.events ==> RequestFrame(a, a, ev.key)
  {
  }

  lemma FrameTwice(a: Db, b: Db, c: Db, key: Key)
    requires RequestFrame(a, b, key) && RequestFrame(b, c, key)
    ensures RequestFrame(a, c, key)
  {
  }

  method SkipBarrier(ws: Workspace, ev: Event) returns (r: Result<Event>)
    requires Current(ws.db, ev) && ev.state == Requested && ev.policy.Forensic?
    modifies ws
    ensures RequestFrame(old(ws.db), ws.db, ev.key) && ServingSame(old(ws.db), ws.db)
    ensures r.Ok? ==> r.value == ev.(state := CandidateRecovery) && Current(ws.db, r.value)
    ensures r.Ok? ==> ws.db.LogOf(ev.key) == old(ws.db).LogOf(ev.key) + RequestLog(ev.policy)
    ensures r.Err? ==> r.Crashed()
    ensures ws.Ran(r.Crashed())
  {
    r := TransitionTo(ws, ev, CandidateRecovery);
  }

  method ApplyAndEnter(ws: Workspace, ev: Event) returns (r: Result<Event>)
    requires Current(ws.db, ev) && ev.state == Requested && !ev.policy.Forensic?
    modifies ws
    ensures RequestFrame(old(ws.db), ws.db, ev.key) && BarredWithin(old(ws.db), ws.db, ev)
    ensures r.Ok? ==> r.value == ev.(state := CandidateRecovery) && Current(ws.db, r.value)
    ensures r.Ok? ==> ws.db.LogOf(ev.key) == old(ws.db).LogOf(ev.key) + RequestLog(ev.policy)
    ensures r.Ok? && ev.roots != [] ==>
              exists c :: IsClosure(old(ws.db), ev.roots, c) && Covers(old(ws.db), ws.db, r.value, c)
    ensures r.Ok? && ev.roots != [] ==> TakenOut(old(ws.db), ws.db, ev.roots, ev.key)
    ensures r.Err? ==> r.fault in {Crash, NotFound}
    ensures ws.Ran(r.Crashed())
  {
    hide IsClosure, BarredAt, Barred, Covers, InClosure, BarredWithin, TakenOut;
    ghost var b := ws.db;
    var applied := ApplyBarrier(ws, ev);
    var c :- applied;
    BarredCovers(b, ws.db, ev, c);
    ghost var d := ws.db;
    r := EnterRecovery(ws, ev);
    WithinOn(b, b, d, ws.db, ev);
    CoversOn(b, b, d, ws.db, ev, ev.(state := CandidateRecovery), c);
    if ev.roots != [] {
      CoversTakesOut(b, ws.db, ev.(state := CandidateRecovery), ev.roots, c);
    }
  }

  /** The two transitions that follow the barrier. */
  method EnterRecovery(ws: Workspace, ev: Event) returns (r: Result<Event>)
    requires Current(ws.db, ev) && ev.state == Requested && !ev.policy.Forensic?
    modifies ws
    ensures RequestFrame(old(ws.db), ws.db, ev.key) && ServingSame(old(ws.db), ws.db)
    ensures r.Ok? ==> r.value == ev.(state := CandidateRecovery) && Current(ws.db, r.value)
    ensures r.Ok? ==> ws.db.LogOf(ev.key) == old(ws.db).LogOf(ev.key) + RequestLog(ev.policy)
    ensures r.Err? ==> r.Crashed()
    ensures ws.Ran(r.Crashed())
  {
    var at :- TransitionTo(ws, ev, BarrierApplied);
    r := TransitionTo(ws, at, CandidateRecovery);
  }
}
