/** One store on which dying at the wrong moment changes how a revocation ends. */
module ExposedRun {
  import opened Domain
  import opened Seqs
  import opened Reachability
  import opened StateMachine
  import opened Store
  import opened Planner
  import opened RevocationSpec
  import opened HiddenEvidence
  import opened Attempts
  import opened Foresight
  import opened RevocationInv
  import opened Track
  import opened TrackSteps
  import opened Pipeline
  import opened Request
  import opened Revocation
  import opened Exposure

  /** What a request to revoke 1 leaves: 2 and 3 are still in service, nothing recorded
      leads to them. 3 derives from 2, which carries a rebuild-support waiver and has a
      derivation of its own, without a recipe. */
  function ExposedDb(): Db {
    Db([1, 2, 3],
       map[1 := Artifact(Revoked, None, None), 2 := Artifact(Active, None, None), 3 := Artifact(Active, None, None)],
       map[],
       map[2 := Derivation([], [], 0), 3 := Derivation([2], [], 1)],
       [],
       map[],
       map[0 := Waiver(2, RebuildSupport, None, false)],
       map[0 := ExposedEvent()],
       map[0 := [Step(Requested, BarrierApplied), Step(BarrierApplied, CandidateRecovery)]])
  }

  function ExposedEvent(): Event {
    Event(0, [1], Strict, High, CandidateRecovery, [], [], [], [], [], [])
  }

  /** Recovery finds 1 behind 2 and 3, and replay confirms both. */
  function ExposedParams(): Params {
    Params((snap: Snapshot, id: Id) => if id == 2 || id == 3 then [Scored(1, true, 1.0)] else [],
           (cs: seq<Candidate>) => {(1, 2), (1, 3)},
           (member: Id, d: Derivation) => Confirmed,
           (d: Derivation, clean: set<Id>) => if d.recipe == 1 then Some(Output({}, None)) else None,
           (t: Id, plan: Plan) => if plan.clean == [] then 10 else 11,
           [], true, false, 0)
  }

  function Found(t: Id): Candidate {
    Candidate(1, t, 1.0)
  }

  function Judged(t: Id): Decision {
    Decision(1, t, Executed(Confirmed))
  }

  lemma ExposedClosure(db: Db)
    requires db.recorded == []
    ensures IsClosure(db, [1], [1])
  {
    forall n ensures n in [1] <==> InClosure(db, [1], n) {
      if n == 1 {
        assert Leads(db.RecordedPairs(), Elements([1]), [1], 1);
      }
      if InClosure(db, [1], n) {
        var path :| Leads(db.RecordedPairs(), Elements([1]), path, n) && WithinCap(|path| - 1, None);
        if |path| > 1 {
          assert (path[0], path[1]) in db.RecordedPairs();
        }
      }
    }
  }

  /** The store before the request: everything in service, no event. */
  function Before(): Db {
    ExposedDb().(artifacts := map[1 := Artifact(Active, None, None), 2 := Artifact(Active, None, None),
                                  3 := Artifact(Active, None, None)],
                 events := map[], log := map[])
  }

  ghost predicate LeftBy(db: Db) {
    db == ExposedDb().(log := db.log) && forall k :: db.LogOf(k) == ExposedDb().LogOf(k)
  }

  /** The store is what a successful request leaves. */
  method RequestExposed() returns (r: Result<Event>, db: Db)
    ensures r.Ok? ==> r.value == ExposedEvent() && LeftBy(db)
  {
    hide IsClosure, Covers, BarredWithin;
    var ws := new Workspace(Before());
    r := RequestRevocation(ws, 0, [1], Strict, High);
    db := ws.db;
    if r.Ok? {
      ExposedClosure(Before());
      assert SortUnique([1]) == [1];
      ghost var c :| IsClosure(Before(), [1], c) && Covers(Before(), db, r.value, c);
      ClosureUnique(Before(), [1], c, [1]);
      RequestedStore(db, r.value);
    }
  }

  lemma RequestedStore(db: Db, ev: Event)
    requires ev == ExposedEvent() && Covers(Before(), db, ev, [1]) && RequestFrame(Before(), db, 0) && Current(db, ev)
    requires db.LogOf(0) == RequestLog(Strict)
    ensures LeftBy(db)
  {
    var z := ExposedDb();
    forall id
      ensures id in db.artifacts <==> id in z.artifacts
      ensures id in db.artifacts ==> db.artifacts[id] == z.artifacts[id]
      ensures id !in db.quarantine
    {
      assert BarredAt(Before(), db, ev, id, id in [1]);
    }
    forall k ensures k in db.events <==> k in z.events {
    }
    assert db.artifacts == z.artifacts && db.quarantine == z.quarantine && db.events == z.events;
  }

  lemma ExposedCandidates()
    ensures Hidden(ExposedDb(), ExposedParams(), [1]) == [Found(2), Found(3)]
  {
    var snap, p := SnapshotOf(ExposedDb()), ExposedParams();
    var rs := [Scored(1, true, 1.0)];
    assert (p.recover)(snap, 2) == rs && (p.recover)(snap, 3) == rs;
    assert rs[1..] == [] && Matches([1], 2, []) == [] && Matches([1], 3, []) == [];
    assert Matches([1], 2, rs) == [Found(2)] && Matches([1], 3, rs) == [Found(3)];
    assert HiddenOf(snap, p, [1], 1) == [] && HiddenOf(snap, p, [1], 2) == [Found(2)] && HiddenOf(snap, p, [1], 3) == [Found(3)];
    var ids := [1, 2, 3];
    assert ids[1..] == [2, 3] && ids[1..][1..] == [3] && ids[1..][1..][1..] == [];
    assert HiddenFrom(snap, p, [1], []) == [];
    assert HiddenFrom(snap, p, [1], [3]) == [Found(3)];
    assert HiddenFrom(snap, p, [1], [2, 3]) == [Found(2), Found(3)];
    assert Listed(ids) == ids;
  }

  lemma ExposedDecisions()
    ensures Decisions(ExposedDb(), ExposedParams(), [1], ExposedEvent()) == [Judged(2), Judged(3)]
  {
    var db, p := ExposedDb(), ExposedParams();
    var cs := [Found(2), Found(3)];
    ExposedCandidates();
    assert Decided([]) == {};
    assert cs[1..] == [Found(3)] && cs[1..][1..] == [];
    assert Undecided([Found(3)], {}) == [Found(3)];
    assert Undecided(cs, {}) == cs;
    var sel := (p.select)(cs);
    assert Decide(db.derivations, p, sel, Found(2)) == Judged(2) && Decide(db.derivations, p, sel, Found(3)) == Judged(3);
    assert DecideAll(db.derivations, p, sel, []) == [];
    assert DecideAll(db.derivations, p, sel, [Found(3)]) == [Judged(3)];
    assert DecideAll(db.derivations, p, sel, cs) == [Judged(2), Judged(3)];
  }

  lemma ExposedTargets()
    ensures ConfirmedTargets([Judged(2), Judged(3)]) == [2, 3] && OpenDecisions([Judged(2), Judged(3)]) == []
  {
    var ds := [Judged(2), Judged(3)];
    assert ds[1..] == [Judged(3)] && ds[1..][1..] == [];
    assert ConfirmedTargets([Judged(3)]) == [3] && OpenDecisions([Judged(3)]) == [];
  }

  lemma ExposedSettled()
    ensures Settled(ExposedParams(), ExposedEvent(), [Judged(2), Judged(3)]) == Ledger([2, 3], [])
  {
    hide ConfirmedTargets, OpenDecisions;
    ExposedTargets();
    var ts: seq<Id> := [2, 3];
    assert ts[1..] == [3] && ts[1..][1..] == [];
    assert SortUnique([3]) == [3] && Insert(2, [3]) == [2, 3] && SortUnique(ts) == [2, 3];
    assert AddMissing([2], [3]) == [2, 3] && AddMissing([], ts) == AddMissing([2], ts[1..]);
  }

  lemma ExposedGood()
    ensures Good(ExposedDb(), ExposedParams(), 0, [1])
  {
    hide Decisions, Hidden, IsClosure;
    ExposedCandidates();
    ExposedDecisions();
    ExposedClosure(ExposedDb());
  }

  /** The store on which the two targets are attempted. */
  function Attacked(e: Domain.Evidence): Db {
    ExposedDb().(artifacts := map[1 := Artifact(Revoked, None, None), 2 := Artifact(Status.Quarantined, None, None),
                                  3 := Artifact(Status.Quarantined, None, None)],
                 quarantine := map[2 := Row(0, true), 3 := Row(0, true)],
                 hidden := map[(1, 2) := e, (1, 3) := e])
  }

  /** A pass writes both edges back, whatever was there. */
  lemma ExposedSweep(db: Db)
    requires db.order == [1, 2, 3] && db.hidden.Keys <= {(1, 2), (1, 3)}
    ensures Swept(db, ExposedParams(), [1]) == map[(1, 2) := Inferred, (1, 3) := Inferred]
  {
    var p, snap, h := ExposedParams(), SnapshotOf(db), db.hidden;
    var rs := [Scored(1, true, 1.0)];
    assert (p.recover)(snap, 2) == rs && (p.recover)(snap, 3) == rs;
    assert rs[..0] == [];
    var h2 := h[(1, 2) := Inferred];
    assert Demote(h, 2, []) == h && Demote(h, 2, rs) == h2;
    assert Demote(h2, 3, []) == h2 && Demote(h2, 3, rs) == h2[(1, 3) := Inferred];
    assert [1, 2, 3][..2] == [1, 2] && [1, 2][..1] == [1] && [1][..0] == [];
    assert DemotePass(h, snap, p, [1], []) == h;
    assert DemotePass(h, snap, p, [1], [1]) == h;
    assert DemotePass(h, snap, p, [1], [1, 2]) == h2;
    assert DemotePass(h, snap, p, [1], [1, 2, 3]) == h2[(1, 3) := Inferred];
    assert Listed(db.order) == [1, 2, 3];
  }

  lemma ExposedHeard()
    ensures Heard(ExposedDb(), ExposedParams(), [1], ExposedEvent()) == map[(1, 2) := ReplayConfirmed, (1, 3) := ReplayConfirmed]
  {
    hide Swept, Decisions;
    ExposedDecisions();
    ExposedSweep(ExposedDb());
    var ds, h := [Judged(2), Judged(3)], map[(1, 2) := Inferred, (1, 3) := Inferred];
    assert ds[0..] == ds && ds[..1] == [Judged(2)] && [Judged(2)][..0] == [];
    assert AfterDecisions(h, []) == h;
    assert AfterDecisions(h, [Judged(2)]) == h[(1, 2) := ReplayConfirmed];
    assert AfterDecisions(h, ds) == h[(1, 2) := ReplayConfirmed][(1, 3) := ReplayConfirmed];
  }

  lemma ExposedQuarantined(e: Domain.Evidence)
    ensures QuarantinedOn(ExposedDb(), 0, [], [2, 3]).(hidden := map[(1, 2) := e, (1, 3) := e]) == Attacked(e)
  {
    var b := QuarantinedOn(ExposedDb(), 0, [], [2, 3]);
    assert b.artifacts == Attacked(e).artifacts;
    assert b.quarantine == Attacked(e).quarantine;
  }

  lemma ExposedStart()
    ensures Start(ExposedDb(), ExposedParams(), [1], ExposedEvent()) == Attacked(ReplayConfirmed)
    ensures TargetsOf(ExposedDb(), ExposedParams(), [1], ExposedEvent()) == [2, 3]
  {
    hide Heard, Decisions, Settled, QuarantinedOn, ExposedParams, Attacked;
    ExposedDecisions();
    ExposedSettled();
    ExposedHeard();
    ExposedQuarantined(ReplayConfirmed);
  }

  lemma PoolOfOne()
    ensures Pool(Derivation([2], [], 1)) == [2]
  {
    assert [2] + [] == [2] && [2][..0] == [] && Dedup([]) == [] && Dedup([2]) == [2];
  }

  lemma AttackedScreen(e: Domain.Evidence)
    ensures var db := Attacked(e);
      && Pool(db.derivations[3]) == [2] && Forbidden(db, 2)
      && Screen(db, 0, 2) == if e == ReplayConfirmed then Contaminated else Clean
  {
    hide Pool;
    var db := Attacked(e);
    PoolOfOne();
    assert db.Waived(2, {RebuildSupport}, 0) by {
      assert 0 in db.waivers && db.waivers[0] == Waiver(2, RebuildSupport, None, false);
    }
    if e == ReplayConfirmed {
      assert (1, 2) in db.hidden && db.hidden[(1, 2)] == ReplayConfirmed;
      assert db.HasConfirmedIn(2);
    }
  }

  lemma SingletonPlan(db: Db, now: int, t: Id, s: Id)
    requires t in db.derivations && Pool(db.derivations[t]) == [s]
    ensures PlanFor(db, now, t).clean == if Screen(db, now, s) == Clean then [s] else []
  {
    var f := (x: Id) => Screen(db, now, x);
    assert [s][..0] == [] && Keep([], f) == [];
    assert Keep([s], f) == if f(s) == Clean then [s] else [];
  }

  /** With the replay evidence 2 is excluded and 3 is rebuilt without it; without that
      evidence the waived 2 counts as clean, and fails the suite. */
  lemma AttackedAttempts(e: Domain.Evidence)
    ensures AttemptOn(Attacked(e), ExposedParams(), 2) == Unavailable
    ensures AttemptOn(Attacked(e), ExposedParams(), 3) == if e == ReplayConfirmed then Passes(10) else Fails
  {
    hide Screen, Pool, PlanFor;
    var db, p := Attacked(e), ExposedParams();
    AttackedScreen(e);
    SingletonPlan(db, 0, 3, 2);
    var clean := PlanFor(db, 0, 3).clean;
    if e != ReplayConfirmed {
      assert 2 in clean && ForbiddenBuilt(db, (p.successor)(3, PlanFor(db, 0, 3)), 2);
    }
  }

  /** A target without a recipe is reported, and leaves the store as it is. */
  lemma GivenUp(db: Db, p: Params, key: Key, t: Id)
    requires AttemptOn(db, p, t) == Unavailable
    ensures AttemptNext(Walk(db, Progress([], [])), p, key, t) == Walk(db, Progress([], [Open(t, RebuildUnavailable)]))
  {
    hide AttemptOn;
  }

  lemma SecondTarget(db: Db, p: Params, key: Key, att: Attempt)
    requires AttemptOn(db, p, 3) == att
    ensures var g := Progress([], [Open(2, RebuildUnavailable)]);
      AttemptNext(Walk(db, g), p, key, 3).done == Record(g, 3, att)
  {
    hide AttemptOn, Attempted, Record;
    assert [Open(2, RebuildUnavailable)][0].target == 2;
  }

  lemma ExposedWalk()
    ensures var db, p, ev := ExposedDb(), ExposedParams(), ExposedEvent();
      && TargetsOf(db, p, [1], ev) == [2, 3]
      && WalkTo(db, p, [1], ev, 1) == Walk(Attacked(ReplayConfirmed), Progress([], [Open(2, RebuildUnavailable)]))
      && WalkTo(db, p, [1], ev, 2).done == Progress([Rebuilt(3, 10)], [Open(2, RebuildUnavailable)])
  {
    hide AttemptOn, Start, WalkTo, AttemptNext, TargetsOf, Settled, Decisions, Attacked, ExposedParams;
    var db, p, ev := ExposedDb(), ExposedParams(), ExposedEvent();
    ExposedStart();
    ExposedDecisions();
    ExposedSettled();
    AttackedAttempts(ReplayConfirmed);
    FirstWalk(db, p, [1], ev);
    WalkNext(db, p, [1], ev, 0);
    GivenUp(Attacked(ReplayConfirmed), p, 0, 2);
    WalkNext(db, p, [1], ev, 1);
    SecondTarget(Attacked(ReplayConfirmed), p, 0, Passes(10));
  }

  lemma FirstWalk(db: Db, p: Params, c: seq<Id>, ev: Event)
    ensures WalkTo(db, p, c, ev, 0) ==
            Walk(Start(db, p, c, ev), Progress(ev.rebuilt, Settled(p, ev, Decisions(db, p, c, ev)).unresolved))
  {
    hide Start, Settled, Decisions;
    assert TargetsOf(db, p, c, ev)[..0] == [];
  }

  /** The rescanned store of a process that takes 3 up again. */
  lemma ExposedRescan(left: Db)
    requires SameTables(Attacked(ReplayConfirmed), left)
    ensures SameTables(Attacked(Inferred), Rescanned(left, ExposedParams(), [1]))
    ensures AttemptOn(Rescanned(left, ExposedParams(), [1]), ExposedParams(), 3) == Fails
  {
    hide Swept, AttemptOn;
    ExposedSweep(left);
    AttackedAttempts(Inferred);
    SameTablesAttempt(Attacked(Inferred), Rescanned(left, ExposedParams(), [1]), ExposedParams(), 3);
  }

  /** The call that follows such a death reports 3 instead of rebuilding it. */
  lemma ExposedResume(left: Db, c: seq<Id>)
    requires Good(left, ExposedParams(), 0, [1])
    requires TargetsOf(ExposedDb(), ExposedParams(), [1], ExposedEvent()) == [2, 3]
    requires Reached(ExposedDb(), ExposedParams(), [1], ExposedEvent(), 1, 0, left) && IsClosure(left, [1], c)
    ensures var s := Outcome(left, ExposedParams(), c, left.events[0]);
      s.rebuilt == [] && s.unresolved == [Open(2, RebuildUnavailable), Open(3, VerificationFailed)]
  {
    hide WalkTo, AttemptOn, Rescanned, Settled, Decisions, IsClosure, Reached, Attacked, TargetsOf, AttemptNext,
      Good, ExposedParams;
    var p, o := ExposedParams(), Origin(ExposedDb(), ExposedParams(), [1], ExposedEvent());
    ExposedFresh();
    ExposedWalk();
    ReachedHanded(o, 1, 0, left);
    AttackedRecorded(left);
    ExposedClosure(left);
    ClosureUnique(left, [1], c, [1]);
    ExposedRescan(left);
    ResumesAt(o, 1, left, c);
    ResumedLast(left, p, c, left.events[0]);
  }

  lemma ResumedLast(left: Db, p: Params, c: seq<Id>, ev: Event)
    requires TargetsOf(left, p, c, ev) == [2, 3] && !Terminal(ev.state) && Rebuilds(p, ev.policy)
    requires WalkTo(left, p, c, ev, 1) == Walk(Rescanned(left, p, c), Progress([], [Open(2, RebuildUnavailable)]))
    requires AttemptOn(Rescanned(left, p, c), p, 3) == Fails
    ensures var s := Outcome(left, p, c, ev);
      s.rebuilt == [] && s.unresolved == [Open(2, RebuildUnavailable), Open(3, VerificationFailed)]
  {
    hide WalkTo, AttemptOn, Rescanned, Settled, Decisions, TargetsOf, AttemptNext;
    WalkNext(left, p, c, ev, 1);
    SecondTarget(Rescanned(left, p, c), p, ev.key, Fails);
    EndIs(Origin(left, p, c, ev));
  }

  lemma AttackedRecorded(left: Db)
    requires SameTables(Attacked(ReplayConfirmed), left)
    ensures left.recorded == []
  {
  }

  /** Crash points are observable after all: one undisturbed process rebuilds 3 as 10; a
      process that dies where it takes up 3, and a second one that lives, leave 3
      unresolved for a failed verification. */
  method DeathChangesTheEnd() returns (one: Event, many: Event)
    ensures one.rebuilt == [Rebuilt(3, 10)] && one.unresolved == [Open(2, RebuildUnavailable)]
    ensures many.rebuilt == [] && many.unresolved == [Open(2, RebuildUnavailable), Open(3, VerificationFailed)]
  {
    hide Good, IsClosure, Outcome, Reached, Shaken, WalkTo, Settled, Decisions, TargetsOf;
    ExposedGood();
    ExposedWalk();
    ExposedFresh();
    var first, second, left, c := DieAt(ExposedDb(), ExposedParams(), 0, [1], 1);
    ExposedResume(left, c);
    ExposedEnd();
    one, many := first.value, second.value;
  }

  lemma ExposedFresh()
    ensures Origin(ExposedDb(), ExposedParams(), [1], ExposedEvent()).Fresh()
    ensures 0 in ExposedDb().events && ExposedDb().events[0] == ExposedEvent() && Rebuilds(ExposedParams(), Strict)
  {
    hide Shape, Scannable, TargetsExist, Climbs, Tables;
    ExposedGood();
  }

  lemma ExposedEnd()
    ensures var s := Outcome(ExposedDb(), ExposedParams(), [1], ExposedEvent());
      s.rebuilt == [Rebuilt(3, 10)] && s.unresolved == [Open(2, RebuildUnavailable)]
  {
    hide WalkTo, Settled, Decisions;
    ExposedWalk();
    EndIs(Origin(ExposedDb(), ExposedParams(), [1], ExposedEvent()));
  }
}
