/** State changes of a running revocation, and the first stages of the pipeline:
    candidate recovery and replay. Each stage may die before any of its commits;
    whatever it leaves behind is `Kept`. */
module Pipeline {
  import opened Domain
  import opened Seqs
  import opened Lineage
  import opened StateMachine
  import opened Store
  import opened Planner
  import opened RevocationSpec
  import opened RevocationLaws
  import opened HiddenEvidence
  import opened Foresight
  import opened RevocationInv
  import opened Track
  import opened TrackSteps
  import opened RevocationSteps

  ghost predicate Current(db: Db, ev: Event) {
    ev.key in db.events && db.events[ev.key] == ev
  }

  /** Saving the event as it is changes nothing. */
  lemma SavedAgain(db: Db, ev: Event)
    requires Current(db, ev)
    ensures db.WithEvent(ev) == db
  {
  }

  // ----- transitions

  /** The event is saved in its new state, then the log row; the process may die
      before either. */
  ghost predicate Moved(a: Db, b: Db, ev: Event, to: State, r: Result<Event>) {
    var ev' := ev.(state := to);
    match r
    case Ok(e) => e == ev' && b == a.WithEvent(ev').WithStep(ev.key, Step(ev.state, to))
    case Err(f) => f == Crash && (b == a || b == a.WithEvent(ev'))
  }

  method TransitionTo(ws: Workspace, ev: Event, to: State) returns (r: Result<Event>)
    requires Current(ws.db, ev)
    modifies ws
    ensures Transition(ev.state, to).Illegal? ==> r == Err(InvalidTransition)
    ensures Transition(ev.state, to).Stay? ==> r == Ok(ev)
    ensures !Transition(ev.state, to).Go? ==> ws.db == old(ws.db)
    ensures Transition(ev.state, to).Go? ==> Moved(old(ws.db), ws.db, ev, to, r)
    ensures Transition(ev.state, to).Go? && r.Ok? ==> !old(ws.doom)(old(ws.db))
    ensures ev.state == to ==> r == Ok(ev) && ws.db == old(ws.db)
    ensures ev.state != to && to !in Allowed(ev.state) ==> r == Err(InvalidTransition) && ws.db == old(ws.db)
    ensures ev.state != to && to in Allowed(ev.state) && r.Ok? ==>
              && r.value == ev.(state := to)
              && ws.db == old(ws.db).(events := old(ws.db).events[ev.key := ev.(state := to)], log := ws.db.log)
              && ws.db.LogOf(ev.key) == old(ws.db).LogOf(ev.key) + [Step(ev.state, to)]
              && forall k :: k != ev.key ==> ws.db.LogOf(k) == old(ws.db).LogOf(k)
    ensures ws.Ran(r.Crashed())
  {
    if ev.state == to {
      return Ok(ev);
    }
    if to !in Allowed(ev.state) {
      return Err(InvalidTransition);
    }
    var moved := ev.(state := to);
    var _ :- ws.Update(moved);
    var _ :- ws.RecordTransition(ev.key, Step(ev.state, to));
    return Ok(moved);
  }

  method AdvanceTo(ws: Workspace, ev: Event, to: State) returns (r: Result<Event>)
    requires Current(ws.db, ev)
    modifies ws
    ensures Advance(ev.state, to).Illegal? ==> r == Err(InvalidTransition)
    ensures Advance(ev.state, to).Stay? ==> r == Ok(ev)
    ensures !Advance(ev.state, to).Go? ==> ws.db == old(ws.db)
    ensures Advance(ev.state, to).Go? ==> Moved(old(ws.db), ws.db, ev, to, r)
    ensures Advance(ev.state, to).Go? && r.Ok? ==> !old(ws.doom)(old(ws.db))
    ensures ev.state in {Completed, CompletedWithUnresolved, Failed, CancelledBeforeBarrier} || StageIndex(ev.state) >= StageIndex(to) ==>
              r == Ok(ev) && ws.db == old(ws.db)
    ensures ev.state !in {Completed, CompletedWithUnresolved, Failed, CancelledBeforeBarrier} && StageIndex(ev.state) < StageIndex(to) ==>
              if to in Allowed(ev.state) then r.Err? || r == Ok(ev.(state := to)) else r == Err(InvalidTransition) && ws.db == old(ws.db)
    ensures ws.Ran(r.Crashed())
  {
    if Terminal(ev.state) {
      return Ok(ev);
    }
    if StageIndex(ev.state) >= StageIndex(to) && ev.state != to {
      return Ok(ev);
    }
    r := TransitionTo(ws, ev, to);
  }

  /** Moving on is harmless when the stage being left has nothing more to say. */
  ghost predicate MayMove(db: Db, p: Params, closure: seq<Id>, ev: Event, to: State) {
    && to in Allowed(ev.state)
    && Stuck(p, ev.state) == Stuck(p, to)
    && Shape(ev.(state := to))
    && (StageIndex(ev.state) < 3 ==> Scoured(db, p, ev.roots))
    && (BeforeQuarantine(ev.state) && !BeforeQuarantine(to) ==> Decisions(db, p, closure, ev) == ev.decisions)
    && (6 <= StageIndex(to) <= 8 ==> StageDone(ev) && Rebuilds(p, ev.policy))
    && (Terminal(to) ==>
          && 5 <= StageIndex(ev.state) <= 8 && StageDone(ev) && (Rebuilds(p, ev.policy) ==> AllDone(ev))
          && to == FinalState(ev.unresolved) && Accounted(p, ev.(state := to)))
  }

  lemma StateFindings(db: Db, p: Params, closure: seq<Id>, ev: Event, to: State)
    requires MayMove(db, p, closure, ev, to)
    ensures var ev' := ev.(state := to);
      && Decisions(db, p, closure, ev') == Decisions(db, p, closure, ev)
      && Findings(db, p, closure, ev') == Findings(db, p, closure, ev)
  {
    hide Shape, Accounted, Hidden, DecideAll, Settle, AddMissing, StageDone, Scoured;
    AllowedClimbs(ev.state, to);
    var ev' := ev.(state := to);
    var ds := Decisions(db, p, closure, ev);
    assert Decisions(db, p, closure, ev') == ds;
    assert Settled(p, ev', ds) == Settled(p, ev, ds);
    if Terminal(to) {
      StageDoneSettles(p, ev);
    }
  }

  /** Whichever run the store is on the way of, it still is after the move. */
  lemma StateTrack(db: Db, p: Params, key: Key, closure: seq<Id>, to: State)
    requires Good(db, p, key, closure) && MayMove(db, p, closure, db.events[key], to)
    ensures key in db.events && TrackKept(db, db.WithEvent(db.events[key].(state := to)), p, key, closure)
  {
    hide Scannable, TargetsExist, Climbs, Tables, Accounted, StageDone, AllDone, Scoured, OnTrack, Settled, Tidy,
      QuarantineDone;
    var ev := db.events[key];
    var ev' := ev.(state := to);
    StateFindings(db, p, closure, ev, to);
    AllowedClimbs(ev.state, to);
    forall z: Db, e: Event | e.key == key && OnTrack(Origin(z, p, closure, e), db)
      ensures OnTrack(Origin(z, p, closure, e), db.WithEvent(ev'))
    {
      if Terminal(to) {
        TrackFinish(Origin(z, p, closure, e), db, ev');
      } else if to == RebuildPlanning {
        TrackPlan(Origin(z, p, closure, e), db, ev');
      } else if StageIndex(to) <= 5 {
        SettledState(p, ev, to, Decisions(db, p, closure, ev));
        TrackEarlyEvent(Origin(z, p, closure, e), db, ev');
      } else {
        TrackLateEvent(Origin(z, p, closure, e), db, ev');
      }
    }
  }

  lemma SettledState(p: Params, ev: Event, to: State, ds: seq<Decision>)
    ensures Settled(p, ev.(state := to), ds) == Settled(p, ev, ds)
  {
  }

  lemma ClimbsOn(log: seq<Step>, from: State, to: State)
    requires Climbs(log, from) && to in Allowed(from)
    ensures Climbs(log, to) && Climbs(log + [Step(from, to)], to)
    ensures PathInTable(log, from) ==> PathInTable(log + [Step(from, to)], to)
  {
    AllowedClimbs(from, to);
    var next := log + [Step(from, to)];
    forall i, j | 0 <= i < j < |next| ensures StageIndex(next[i].to) <= StageIndex(next[j].from) {
      if j == |log| && i < |log| - 1 {
        AllowedClimbs(log[|log| - 1].from, log[|log| - 1].to);
      }
    }
  }

  lemma StateKept(db: Db, p: Params, key: Key, closure: seq<Id>, to: State)
    requires Good(db, p, key, closure) && MayMove(db, p, closure, db.events[key], to)
    ensures Kept(db, db.WithEvent(db.events[key].(state := to)), p, key, closure)
  {
    hide Shape, Accounted, PairsDistinct, IsClosure, Hidden, Decisions, Tables, Kept, Findings, Scoured,
      StageDone, AllDone, TrackKept;
    StateTrack(db, p, key, closure, to);
    var ev := db.events[key];
    StateFindings(db, p, closure, ev, to);
    ClimbsOn(db.LogOf(key), ev.state, to);
    AllowedClimbs(ev.state, to);
    EventKept(db, p, key, closure, ev.(state := to));
  }

  lemma MoveKept(a: Db, b: Db, p: Params, key: Key, closure: seq<Id>, to: State, r: Result<Event>)
    requires Good(a, p, key, closure) && MayMove(a, p, closure, a.events[key], to)
    requires Moved(a, b, a.events[key], to, r)
    ensures Kept(a, b, p, key, closure)
    ensures r.Ok? && PathInTable(a.LogOf(key), a.events[key].state) ==> PathInTable(b.LogOf(key), to)
  {
    var ev := a.events[key];
    StateKept(a, p, key, closure, to);
    var mid := a.WithEvent(ev.(state := to));
    if r.Ok? {
      assert mid.LogOf(key) == a.LogOf(key);
      ClimbsOn(a.LogOf(key), ev.state, to);
      LogKept(mid, p, key, closure, Step(ev.state, to));
      KeptTwice(a, mid, b, p, key, closure);
    } else if b == a {
      KeptSelf(a, p, key, closure);
    }
  }

  /** `_advance` inside the pipeline. */
  method Proceed(ws: Workspace, p: Params, ev: Event, to: State, ghost closure: seq<Id>) returns (r: Result<Event>)
    requires Good(ws.db, p, ev.key, closure) && Current(ws.db, ev)
    requires Advance(ev.state, to).Go? ==> MayMove(ws.db, p, closure, ev, to)
    modifies ws
    ensures Kept(old(ws.db), ws.db, p, ev.key, closure)
    ensures r.Ok? ==> Current(ws.db, r.value) && r.value == ev.(state := After(ev.state, to, Advance(ev.state, to)))
    ensures ReadsSame(old(ws.db), ws.db) && ws.db.hidden == old(ws.db).hidden && RebuiltSame(old(ws.db), ws.db, ev.key)
    ensures r.Ok? && PathInTable(old(ws.db).LogOf(ev.key), ev.state) ==> PathInTable(ws.db.LogOf(ev.key), r.value.state)
    ensures r.Err? ==> r.Crashed() || (r == Err(InvalidTransition) && Advance(ev.state, to).Illegal?)
    ensures Advance(ev.state, to).Illegal? ==> r == Err(InvalidTransition) && ws.db == old(ws.db)
    ensures Advance(ev.state, to).Go? && r.Ok? ==> !old(ws.doom)(old(ws.db))
    ensures ws.Ran(r.Crashed())
  {
    r := AdvanceTo(ws, ev, to);
    if Advance(ev.state, to).Go? {
      MoveKept(old(ws.db), ws.db, p, ev.key, closure, to, r);
    } else {
      KeptSelf(ws.db, p, ev.key, closure);
    }
  }

  // ----- candidate recovery

  function EdgePairs(rows: seq<Edge>): (r: seq<(Id, Id)>)
    ensures PairsOf(r) == RowPairs(rows)
  {
    if rows == [] then []
    else
      var init, last := rows[..|rows| - 1], rows[|rows| - 1];
      var x := (last.source, last.target);
      assert rows == init + [last];
      assert RowPairs(rows) == RowPairs(init) + {x};
      assert PairsOf(EdgePairs(init) + [x]) == PairsOf(EdgePairs(init)) + {x};
      EdgePairs(init) + [x]
  }

  /** `recorded_descendants`: closure over the recorded edges only. */
  method RecordedDescendants(db: Db, roots: seq<Id>) returns (r: Result<seq<Id>>)
    ensures r.Err? <==> roots == []
    ensures r.Err? ==> r.fault == NoRoots
    ensures r.Ok? ==> IsClosure(db, roots, r.value)
  {
    var edges := EdgePairs(db.recorded);
    var adj := BuildAdjacency(edges, false);
    r := Closure(adj, roots, true, db.RecordedPairs());
  }

  method RecoverCandidates(ws: Workspace, p: Params, key: Key, target: Id, ghost closure: seq<Id>)
    returns (r: Result<seq<Scored>>)
    requires Good(ws.db, p, key, closure)
    requires target in Listed(ws.db.order) && !InClosure(ws.db, ws.db.events[key].roots, target)
    modifies ws
    ensures Kept(old(ws.db), ws.db, p, key, closure)
    ensures ws.db == old(ws.db).(hidden := ws.db.hidden)
    ensures r.Ok? ==> r.value == (p.recover)(SnapshotOf(old(ws.db)), target)
    ensures r.Ok? ==> ws.db.hidden == Demote(old(ws.db).hidden, target, r.value)
    ensures r.Err? ==> r.Crashed()
    ensures ws.Ran(r.Crashed())
  {
    hide Good, Kept, InClosure;
    var results := (p.recover)(SnapshotOf(ws.db), target);
    ghost var start := ws.db;
    KeptSelf(ws.db, p, key, closure);
    for i := 0 to |results|
      invariant Kept(old(ws.db), ws.db, p, key, closure)
      invariant ws.db == old(ws.db).(hidden := Demote(old(ws.db).hidden, target, results[..i]))
      invariant ws.Ran(false)
    {
      assert results[..i + 1][..i] == results[..i];
      if results[i].isCandidate {
        ghost var before := ws.db;
        KeptKey(start, before, p, key, closure);
        FoundNow(start, before, p, key, results, i, target);
        HiddenKept(before, p, key, closure, results[i].candidate, target, Inferred);
        var _ :- ws.UpsertHidden(results[i].candidate, target, Inferred);
        KeptTwice(old(ws.db), before, ws.db, p, key, closure);
      }
    }
    assert results[..|results|] == results;
    return Ok(results);
  }

  lemma FoundNow(a: Db, b: Db, p: Params, key: Key, results: seq<Scored>, i: nat, target: Id)
    requires key in a.events && b == a.(hidden := b.hidden)
    requires target in Listed(a.order) && !InClosure(a, a.events[key].roots, target)
    requires results == (p.recover)(SnapshotOf(a), target) && i < |results| && results[i].isCandidate
    ensures Finds(SnapshotOf(b), p, b.events[key].roots, (results[i].candidate, target))
  {
    assert SnapshotOf(b) == SnapshotOf(a);
    assert results[i] in results;
  }

  lemma ClosureUnique(db: Db, roots: seq<Id>, c: seq<Id>, d: seq<Id>)
    requires IsClosure(db, roots, c) && IsClosure(db, roots, d)
    ensures c == d
  {
    AscendingDetermined(c, d);
  }

  method CollectMatches(closure: seq<Id>, target: Id, results: seq<Scored>) returns (found: seq<Candidate>)
    ensures found == Matches(closure, target, results)
  {
    found := [];
    for i := 0 to |results|
      invariant found + Matches(closure, target, results[i..]) == Matches(closure, target, results)
    {
      assert results[i..][1..] == results[i + 1..];
      var r := results[i];
      if r.candidate in closure && r.isCandidate {
        found := found + [Candidate(r.candidate, target, r.score)];
      }
    }
  }

  /** The candidate list and the closure are bookkeeping: no later step of a
      resumed run reads them back. */
  lemma AnnotateKept(db: Db, p: Params, key: Key, closure: seq<Id>, c: seq<Id>, cs: seq<Candidate>)
    requires Good(db, p, key, closure)
    requires !Terminal(db.events[key].state)
    ensures Kept(db, db.WithEvent(db.events[key].(closure := c, candidates := cs)), p, key, closure)
  {
    hide Decisions, Tidy, QuarantineDone, Kept, TrackKept, Tables;
    var ev := db.events[key];
    var ev' := ev.(closure := c, candidates := cs);
    AnnotatedDecisions(db, p, closure, ev, ev');
    AnnotatedShape(ev, ev');
    SameProgress(db, p, key, closure, ev');
    EventKept(db, p, key, closure, ev');
  }

  lemma AnnotatedShape(ev: Event, ev': Event)
    requires Shape(ev) && ev' == ev.(closure := ev'.closure, candidates := ev'.candidates)
    ensures Shape(ev')
  {
  }

  lemma AnnotatedDecisions(db: Db, p: Params, closure: seq<Id>, ev: Event, ev': Event)
    requires ev' == ev.(closure := ev'.closure, candidates := ev'.candidates)
    ensures Decisions(db, p, closure, ev') == Decisions(db, p, closure, ev)
  {
  }

  /** Closure, then one recovery per artifact outside it, then one save. */
  method RecoverStage(ws: Workspace, p: Params, ev: Event, ghost closure: seq<Id>) returns (r: Result<Event>)
    requires Good(ws.db, p, ev.key, closure) && Current(ws.db, ev) && !Terminal(ev.state)
    modifies ws
    ensures Kept(old(ws.db), ws.db, p, ev.key, closure)
    ensures ReadsSame(old(ws.db), ws.db) && ws.db.log == old(ws.db).log && RebuiltSame(old(ws.db), ws.db, ev.key)
    ensures r.Ok? ==> Current(ws.db, r.value) && r.value == ev.(closure := r.value.closure, candidates := r.value.candidates)
    ensures r.Ok? ==> IsClosure(old(ws.db), ev.roots, r.value.closure)
    ensures r.Ok? ==> r.value.candidates == Hidden(ws.db, p, r.value.closure)
    ensures r.Ok? ==> ws.db.hidden == Swept(old(ws.db), p, r.value.closure) && Scoured(ws.db, p, ev.roots)
    ensures r.Err? ==> r.Crashed() || (r == Err(NoRoots) && ev.roots == [])
    ensures ev.roots == [] ==> r == Err(NoRoots) && ws.db == old(ws.db)
    ensures ws.Ran(r.Crashed())
  {
    hide Good, Kept, IsClosure, Swept, Scoured, HiddenFrom;
    ghost var start := ws.db;
    KeptSelf(start, p, ev.key, closure);
    var c :- RecordedDescendants(ws.db, ev.roots);
    var ids := Listed(ws.db.order);
    var scanned := Scan(ws, p, ev, c, ids, closure);
    var hidden: seq<Candidate> :- scanned;
    ghost var before := ws.db;
    KeptGood(start, before, p, ev.key, closure);
    SweptScours(start, before, p, ev.roots, c);
    var found := ev.(closure := c, candidates := hidden);
    AnnotateKept(before, p, ev.key, closure, c, hidden);
    var saved := ws.Update(found);
    KeptSelf(before, p, ev.key, closure);
    KeptTwice(start, before, ws.db, p, ev.key, closure);
    var _ :- saved;
    ScouredOn(before, ws.db, p, ev.roots);
    return Ok(found);
  }

  lemma SweptScours(a: Db, b: Db, p: Params, roots: seq<Id>, c: seq<Id>)
    requires IsClosure(a, roots, c) && b == a.(hidden := DemotePass(a.hidden, SnapshotOf(a), p, c, Listed(a.order)))
    ensures Scoured(b, p, roots) && b.hidden == Swept(a, p, c)
  {
    hide IsClosure, Confirms, Finds, DemotePass;
    assert SnapshotOf(b) == SnapshotOf(a);
    forall e | Confirms(b.hidden, e) ensures !Finds(SnapshotOf(b), p, roots, e) {
      SweptConfirms(a, p, roots, c, e);
    }
  }

  lemma ScouredOn(a: Db, b: Db, p: Params, roots: seq<Id>)
    requires Scoured(a, p, roots) && SnapshotOf(b) == SnapshotOf(a) && b.hidden == a.hidden
    ensures Scoured(b, p, roots)
  {
  }

  lemma PassBegins(h: HiddenEdges, snap: Snapshot, p: Params, c: seq<Id>, ids: seq<Id>)
    ensures DemotePass(h, snap, p, c, ids[..0]) == h && HiddenFrom(snap, p, c, ids[|ids|..]) == []
    ensures ids[0..] == ids && ids[..|ids|] == ids
  {
  }

  lemma PassNext(h: HiddenEdges, snap: Snapshot, p: Params, c: seq<Id>, ids: seq<Id>, i: nat)
    requires i < |ids|
    ensures DemotePass(h, snap, p, c, ids[..i + 1]) == DemoteOne(DemotePass(h, snap, p, c, ids[..i]), snap, p, c, ids[i])
    ensures HiddenFrom(snap, p, c, ids[i..]) == HiddenOf(snap, p, c, ids[i]) + HiddenFrom(snap, p, c, ids[i + 1..])
  {
    assert ids[i..][1..] == ids[i + 1..] && ids[..i + 1][..i] == ids[..i];
  }

  method Scan(ws: Workspace, p: Params, ev: Event, c: seq<Id>, ids: seq<Id>, ghost closure: seq<Id>)
    returns (r: Result<seq<Candidate>>)
    requires Good(ws.db, p, ev.key, closure) && Current(ws.db, ev)
    requires IsClosure(ws.db, ev.roots, c) && ids == Listed(ws.db.order)
    modifies ws
    ensures Kept(old(ws.db), ws.db, p, ev.key, closure)
    ensures ws.db == old(ws.db).(hidden := ws.db.hidden)
    ensures r.Ok? ==> r.value == HiddenFrom(SnapshotOf(ws.db), p, c, ids)
    ensures r.Ok? ==> ws.db.hidden == DemotePass(old(ws.db).hidden, SnapshotOf(old(ws.db)), p, c, ids)
    ensures r.Err? ==> r.Crashed()
    ensures ws.Ran(r.Crashed())
  {
    hide Good, Kept, DemotePass, DemoteOne, HiddenFrom, HiddenOf, IsClosure;
    var hidden: seq<Candidate> := [];
    ghost var start, snap := ws.db, SnapshotOf(ws.db);
    KeptSelf(start, p, ev.key, closure);
    PassBegins(start.hidden, snap, p, c, ids);
    for i := 0 to |ids|
      invariant Kept(start, ws.db, p, ev.key, closure)
      invariant ws.db == start.(hidden := DemotePass(start.hidden, snap, p, c, ids[..i]))
      invariant hidden + HiddenFrom(snap, p, c, ids[i..]) == HiddenFrom(snap, p, c, ids)
      invariant ws.Ran(false)
    {
      PassNext(start.hidden, snap, p, c, ids, i);
      ghost var before := ws.db;
      KeptGood(start, before, p, ev.key, closure);
      ClosureOn(start, before, ev.roots, c);
      var scanned := ScanOne(ws, p, ev.key, c, ids[i], closure);
      KeptTwice(start, before, ws.db, p, ev.key, closure);
      var found :- scanned;
      hidden := hidden + found;
    }
    assert ids[..|ids|] == ids;
    return Ok(hidden);
  }

  lemma ClosureOn(a: Db, b: Db, roots: seq<Id>, c: seq<Id>)
    requires IsClosure(a, roots, c) && a.recorded == b.recorded
    ensures IsClosure(b, roots, c)
  {
    assert a.RecordedPairs() == b.RecordedPairs();
  }

  method ScanOne(ws: Workspace, p: Params, key: Key, c: seq<Id>, id: Id, ghost closure: seq<Id>)
    returns (r: Result<seq<Candidate>>)
    requires Good(ws.db, p, key, closure)
    requires IsClosure(ws.db, ws.db.events[key].roots, c) && id in Listed(ws.db.order)
    modifies ws
    ensures Kept(old(ws.db), ws.db, p, key, closure)
    ensures ws.db == old(ws.db).(hidden := ws.db.hidden)
    ensures r.Ok? ==> r.value == HiddenOf(SnapshotOf(old(ws.db)), p, c, id)
    ensures r.Ok? ==> ws.db.hidden == DemoteOne(old(ws.db).hidden, SnapshotOf(old(ws.db)), p, c, id)
    ensures r.Err? ==> r.Crashed()
    ensures ws.Ran(r.Crashed())
  {
    if id in c {
      KeptSelf(ws.db, p, key, closure);
      return Ok([]);
    }
    var results :- RecoverCandidates(ws, p, key, id, closure);
    var found := CollectMatches(c, id, results);
    return Ok(found);
  }
}
