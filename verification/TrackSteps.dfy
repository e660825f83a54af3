/** One lemma per kind of commit: a store that is on the way to the undisturbed end
    stays so. */
module TrackSteps {
  import opened Domain
  import opened StateMachine
  import opened Store
  import opened Planner
  import opened RevocationSpec
  import opened HiddenEvidence
  import opened Attempts
  import opened Frames
  import opened Foresight
  import opened RevocationInv
  import opened Track

  // ----- commits that leave the run's tables and its event alone

  lemma LikeOn(a: Db, x: Db, y: Db)
    requires Like(a, x) && SnapshotOf(y) == SnapshotOf(x) && y.waivers == x.waivers
    requires y.artifacts == x.artifacts && y.quarantine == x.quarantine
    ensures Like(a, y)
  {
  }

  lemma FramedOn(a: Db, x: Db, y: Db, t: Id, n: Id, clean: seq<Id>, published: bool)
    requires Framed(a, x, t, n, clean, published) && SnapshotOf(y) == SnapshotOf(x) && y.waivers == x.waivers
    requires y.artifacts == x.artifacts && y.quarantine == x.quarantine
    ensures Framed(a, y, t, n, clean, published)
  {
    hide Links, Cut;
    var k: nat :| CutAt(a, x, t, n, clean, k);
    assert CutAt(a, y, t, n, clean, k);
  }

  lemma InAttemptOn(a: Db, x: Db, y: Db, p: Params, t: Id)
    requires InAttempt(a, x, p, t) && SnapshotOf(y) == SnapshotOf(x) && y.waivers == x.waivers
    requires y.artifacts == x.artifacts && y.quarantine == x.quarantine
    ensures InAttempt(a, y, p, t)
  {
    hide AttemptOn, Framed, Like;
    if AttemptOn(a, p, t).Unavailable? {
      LikeOn(a, x, y);
    } else {
      AttemptedIs(a, p, 0, t);
      FramedOn(a, x, y, t, SuccessorOf(a, p, t), CleanOf(a, p, t), AttemptOn(a, p, t).Passes?);
    }
  }

  lemma DecisionsOn(x: Db, y: Db, p: Params, closure: seq<Id>, ev: Event)
    requires SnapshotOf(y) == SnapshotOf(x)
    ensures Decisions(y, p, closure, ev) == Decisions(x, p, closure, ev)
  {
  }

  lemma EarlyOn(o: Origin, x: Db, y: Db, ev: Event)
    requires Early(o, x, ev) && SnapshotOf(y) == SnapshotOf(x) && y.waivers == x.waivers
    requires y.artifacts == x.artifacts && y.quarantine == x.quarantine
    requires forall e :: Confirms(y.hidden, e) ==> Confirms(x.hidden, e) || ConfirmedPair(o.Verdicts(), e)
    requires forall e :: Confirms(x.hidden, e) && !o.Shakes(SnapshotOf(o.db), e) ==> Confirms(y.hidden, e)
    requires o.Fresh()
    ensures Early(o, y, ev)
  {
    hide Confirms, Decisions, Settled, Finds, TargetsOf, Good, Start;
    DecisionsOn(x, y, o.p, o.closure, ev);
    forall id ensures EarlyAt(o.db, y, id, id in o.Queue(), id in ev.quarantined) {
      assert EarlyAt(o.db, x, id, id in o.Queue(), id in ev.quarantined);
    }
    if StageIndex(ev.state) >= 3 {
      forall e | Confirms(y.hidden, e) ensures Confirms(o.Base().hidden, e) {
        BaseConfirms(o, e);
      }
    }
  }

  lemma LateOn(o: Origin, x: Db, y: Db, ev: Event)
    requires Late(o, x, ev) && SnapshotOf(y) == SnapshotOf(x) && y.waivers == x.waivers
    requires y.artifacts == x.artifacts && y.quarantine == x.quarantine
    requires forall e :: Confirms(y.hidden, e) ==> Confirms(x.hidden, e)
    requires var i := Pending(ProgressOf(ev), o.Queue());
      forall e :: Confirms(x.hidden, e) && Lasts(o, i, e) ==> Confirms(y.hidden, e)
    ensures Late(o, y, ev)
  {
    hide Confirms, InAttempt, Lasts, WalkTo;
    var i := Pending(ProgressOf(ev), o.Queue());
    if i < |o.Queue()| {
      InAttemptOn(o.At(i).db, x, y, o.p, o.Queue()[i]);
    }
  }

  /** Neither the log nor another event matters. */
  lemma TrackSame(o: Origin, x: Db, y: Db)
    requires OnTrack(o, x) && SameTables(x, y)
    requires o.ev.key in y.events && y.events[o.ev.key] == x.events[o.ev.key]
    ensures OnTrack(o, y)
  {
    hide Early, Late, Outcome, Good, Addressed;
    var ev := x.events[o.ev.key];
    if !Terminal(ev.state) {
      if StageIndex(ev.state) <= 5 {
        EarlyOn(o, x, y, ev);
      } else {
        LateOn(o, x, y, ev);
      }
    }
  }

  // ----- evidence

  lemma SeenNow(o: Origin, x: Db, i: nat)
    requires i < |o.Queue()| && InAttempt(o.At(i).db, x, o.p, o.Queue()[i])
    ensures o.Passes(i, SnapshotOf(x))
  {
    hide WalkTo, AttemptOn, Links, Cut, Placed;
    var b, t := o.At(i).db, o.Queue()[i];
    if !AttemptOn(b, o.p, t).Unavailable? {
      var n, clean := SuccessorOf(b, o.p, t), CleanOf(b, o.p, t);
      var k: nat :| CutAt(b, x, t, n, clean, k);
      assert CutOf(b, o.p, t, SnapshotOf(x), k);
    }
  }

  /** What a pass writes at `x` is nothing the undisturbed plan in hand lasts on. */
  lemma NotLasting(o: Origin, x: Db, ev: Event, e: (Id, Id))
    requires Late(o, x, ev) && o.Shakes(SnapshotOf(x), e)
    ensures !Lasts(o, Pending(ProgressOf(ev), o.Queue()), e)
  {
    hide WalkTo, InAttempt, Finds;
    var i := Pending(ProgressOf(ev), o.Queue());
    if i < |o.Queue()| {
      SeenNow(o, x, i);
    }
  }

  lemma HiddenConfirms(h: HiddenEdges, s: Id, t: Id, e: Evidence, x: (Id, Id))
    ensures Confirms(h[(s, t) := e], x) <==> if x == (s, t) then e == ReplayConfirmed else Confirms(h, x)
  {
  }

  /** Evidence is only ever written for pairs recovery finds, and confirmed only where
      the run was going to confirm. */
  lemma TrackHidden(o: Origin, x: Db, s: Id, t: Id, e: Evidence)
    requires OnTrack(o, x)
    requires Finds(SnapshotOf(x), o.p, x.events[o.ev.key].roots, (s, t))
    requires e == ReplayConfirmed ==>
               BeforeQuarantine(x.events[o.ev.key].state)
               && ConfirmedPair(Decisions(x, o.p, o.closure, x.events[o.ev.key]), (s, t))
    ensures OnTrack(o, x.WithHidden(s, t, e))
  {
    hide Outcome, Good, Addressed, Confirms, Finds, EarlyAt, Decisions, Settled, TargetsOf, WalkTo, LateAt, Lasts;
    var y, ev := x.WithHidden(s, t, e), x.events[o.ev.key];
    forall c ensures Confirms(y.hidden, c) <==> if c == (s, t) then e == ReplayConfirmed else Confirms(x.hidden, c) {
      HiddenConfirms(x.hidden, s, t, e, c);
    }
    if !Terminal(ev.state) {
      if StageIndex(ev.state) <= 5 {
        EarlyOn(o, x, y, ev);
      } else {
        LateHeld(o, x, ev);
        NotLasting(o, x, ev, (s, t));
        LateOn(o, x, y, ev);
      }
    }
  }

  lemma LateHeld(o: Origin, x: Db, ev: Event)
    requires Late(o, x, ev)
    ensures forall e :: Lasts(o, Pending(ProgressOf(ev), o.Queue()), e) ==> Confirms(x.hidden, e)
  {
  }

  // ----- the event

  /** Recovery has just been over the whole store. */
  ghost predicate Scoured(x: Db, p: Params, roots: seq<Id>) {
    forall e :: Confirms(x.hidden, e) ==> !Finds(SnapshotOf(x), p, roots, e)
  }

  /** Saving the event before rebuild: the new event leads to the same decisions and the
      same lists, and whatever it newly lists is quarantined in the store. */
  lemma TrackEarlyEvent(o: Origin, x: Db, ev': Event)
    requires OnTrack(o, x) && ev'.key == o.ev.key
    requires var ev := x.events[o.ev.key];
      && StageIndex(ev.state) <= 5 && StageIndex(ev'.state) <= 5 && SameRequest(ev, ev') && ev'.rebuilt == []
      && Decisions(x, o.p, o.closure, ev') == Decisions(x, o.p, o.closure, ev)
      && Settled(o.p, ev', Decisions(x, o.p, o.closure, ev)) == Settled(o.p, ev, Decisions(x, o.p, o.closure, ev))
      && (forall id :: id in ev'.quarantined && id !in ev.quarantined ==>
            id in x.artifacts && x.artifacts[id].status == Status.Quarantined && x.RowActive(id))
      && (StageIndex(ev'.state) >= 3 && StageIndex(ev.state) < 3 ==> Scoured(x, o.p, ev.roots))
    ensures OnTrack(o, x.WithEvent(ev'))
  {
    hide Outcome, Good, Addressed, Confirms, Finds, Decisions, Settled, TargetsOf, Start;
    var y, ev := x.WithEvent(ev'), x.events[o.ev.key];
    DecisionsOn(x, y, o.p, o.closure, ev');
    assert Early(o, x, ev);
    forall id ensures EarlyAt(o.db, y, id, id in o.Queue(), id in ev'.quarantined) {
      assert EarlyAt(o.db, x, id, id in o.Queue(), id in ev.quarantined);
    }
    if StageIndex(ev'.state) >= 3 && StageIndex(ev.state) < 3 {
      forall e | Confirms(y.hidden, e) ensures Confirms(o.Base().hidden, e) {
        BaseConfirms(o, e);
      }
    }
    assert Early(o, y, ev');
  }

  lemma LateEventOn(o: Origin, x: Db, ev: Event, ev': Event)
    requires Late(o, x, ev) && ev'.key == o.ev.key
    requires ev'.policy == ev.policy && ev'.decisions == ev.decisions && ev'.quarantined == ev.quarantined
    requires ProgressOf(ev') == ProgressOf(ev)
    ensures Late(o, x.WithEvent(ev'), ev')
  {
    hide Confirms, InAttempt, Lasts, WalkTo;
    var i := Pending(ProgressOf(ev), o.Queue());
    if i < |o.Queue()| {
      InAttemptOn(o.At(i).db, x, x.WithEvent(ev'), o.p, o.Queue()[i]);
    }
  }

  /** Closure, candidates and state may change during rebuild. */
  lemma TrackLateEvent(o: Origin, x: Db, ev': Event)
    requires OnTrack(o, x) && ev'.key == o.ev.key
    requires var ev := x.events[o.ev.key];
      && 6 <= StageIndex(ev.state) <= 8 && 6 <= StageIndex(ev'.state) <= 8 && SameRequest(ev, ev')
      && ev'.decisions == ev.decisions && ev'.quarantined == ev.quarantined && ProgressOf(ev') == ProgressOf(ev)
    ensures OnTrack(o, x.WithEvent(ev'))
  {
    hide Outcome, Good, Addressed, Late;
    LateEventOn(o, x, x.events[o.ev.key], ev');
  }

  // ----- quarantine

  lemma TrackQuarantine(o: Origin, x: Db, y: Db, t: Id)
    requires OnTrack(o, x) && x.events[o.ev.key].state.QuarantineApplied?
    requires t in TargetsOf(x, o.p, o.closure, x.events[o.ev.key]) && t !in x.events[o.ev.key].quarantined
    requires t in x.artifacts
    requires y == x.WithRow(t, o.ev.key) || y == x.WithRow(t, o.ev.key).WithStatus(t, Status.Quarantined)
    ensures OnTrack(o, y)
  {
    hide Outcome, Good, Addressed, Confirms, Finds, Decisions, Settled, Start;
    var ev := x.events[o.ev.key];
    DecisionsOn(x, y, o.p, o.closure, ev);
    forall id ensures EarlyAt(o.db, y, id, id in o.Queue(), id in ev.quarantined) {
      assert EarlyAt(o.db, x, id, id in o.Queue(), id in ev.quarantined);
      QuarantineAt(o.db, x, y, o.ev.key, t, id, id in o.Queue(), id in ev.quarantined);
    }
    assert Early(o, y, ev);
  }

  lemma QuarantineAt(z: Db, x: Db, y: Db, key: Key, t: Id, id: Id, hit: bool, full: bool)
    requires EarlyAt(z, x, id, hit, full) && t in x.artifacts && (id == t ==> hit)
    requires y == x.WithRow(t, key) || y == x.WithRow(t, key).WithStatus(t, Status.Quarantined)
    ensures EarlyAt(z, y, id, hit, full)
  {
  }

  // ----- from quarantine to rebuild, or to the end

  lemma EarlyLike(o: Origin, x: Db, ev: Event, id: Id)
    requires o.Fresh() && Early(o, x, ev) && ev.quarantined == o.Queue()
    ensures id in x.artifacts <==> id in o.Base().artifacts
    ensures id in o.Base().artifacts ==> SameServing(o.Base().artifacts[id], x.artifacts[id])
    ensures x.RowActive(id) == o.Base().RowActive(id)
  {
    hide Good, Decisions, Settled, Confirms, Finds, TargetsOf, Heard;
    OriginFacts(o);
    assert EarlyAt(o.db, x, id, id in o.Queue(), id in ev.quarantined);
    QuarantinedAtBase(o.db, o.ev.key, [], o.Queue(), id);
  }

  /** Rebuild begins on the store the undisturbed run begins it on. */
  lemma EarlyStarts(o: Origin, x: Db, ev: Event)
    requires o.Fresh() && Early(o, x, ev) && ev.quarantined == o.Queue()
    ensures Like(o.Base(), x)
  {
    hide Early, Good, QuarantinedOn, Heard, TargetsOf;
    BaseFacts(o);
    forall id
      ensures id in x.artifacts <==> id in o.Base().artifacts
      ensures id in o.Base().artifacts ==> SameServing(o.Base().artifacts[id], x.artifacts[id])
      ensures x.RowActive(id) == o.Base().RowActive(id)
    {
      EarlyLike(o, x, ev, id);
    }
    EarlySnapshot(o, x, ev);
  }

  lemma EarlySnapshot(o: Origin, x: Db, ev: Event)
    requires Early(o, x, ev)
    ensures SnapshotOf(x) == SnapshotOf(o.db) && x.waivers == o.db.waivers
  {
  }

  lemma LikeInAttempt(a: Db, x: Db, p: Params, t: Id)
    requires Like(a, x) && Tables(a)
    ensures InAttempt(a, x, p, t)
  {
    hide Like, Framed, AttemptOn;
    if !AttemptOn(a, p, t).Unavailable? {
      AttemptedIs(a, p, 0, t);
      LikeFramed(a, x, t, SuccessorOf(a, p, t), CleanOf(a, p, t));
      FramedMay(a, x, t, SuccessorOf(a, p, t), CleanOf(a, p, t), AttemptOn(a, p, t).Passes?);
    }
  }

  lemma FramedMay(a: Db, x: Db, t: Id, n: Id, clean: seq<Id>, published: bool)
    requires Framed(a, x, t, n, clean, false)
    ensures Framed(a, x, t, n, clean, published)
  {
  }

  lemma EarlySettled(o: Origin, x: Db, ev: Event)
    requires Early(o, x, ev) && ev.state.QuarantineApplied? && StageDone(ev)
    ensures ev.decisions == o.Verdicts() && LedgerOf(ev) == o.Settlement()
  {
    hide StageDone;
    StageDoneSettles(o.p, ev);
  }

  lemma LastingEarly(o: Origin, x: Db, ev: Event, e: (Id, Id))
    requires o.Fresh() && Early(o, x, ev) && Lasts(o, 0, e)
    ensures Confirms(x.hidden, e)
  {
    hide Confirms, Finds, Good, Decisions, Settled, TargetsOf, WalkTo, Start;
    BaseFacts(o);
    assert o.Passes(0, SnapshotOf(o.db));
    BaseConfirms(o, e);
  }

  lemma TrackPlan(o: Origin, x: Db, ev': Event)
    requires OnTrack(o, x)
    requires var ev := x.events[o.ev.key];
      && ev.state.QuarantineApplied? && StageDone(ev) && Rebuilds(o.p, ev.policy)
      && ev' == ev.(state := RebuildPlanning)
    ensures OnTrack(o, x.WithEvent(ev'))
  {
    hide Outcome, Good, Addressed, Early, Confirms, StageDone, WalkTo, TargetsOf, Start, Settled, Decisions;
    var ev := x.events[o.ev.key];
    var y := x.WithEvent(ev');
    OriginFacts(o);
    EarlySettled(o, x, ev);
    EarlyStarts(o, x, ev);
    BaseFacts(o);
    AtPending(o, 0);
    EarlyRest(o, x, ev);
    LikeOn(o.Base(), x, y);
    if 0 < |o.Queue()| {
      LikeInAttempt(o.Base(), y, o.p, o.Queue()[0]);
      forall e | Lasts(o, 0, e) ensures Confirms(y.hidden, e) {
        LastingEarly(o, x, ev, e);
      }
    }
    assert LateAt(o, y, 0);
    assert Late(o, y, ev');
  }

  lemma EarlyRest(o: Origin, x: Db, ev: Event)
    requires Early(o, x, ev)
    ensures ev.rebuilt == []
    ensures StageIndex(ev.state) >= 3 ==> forall e :: Confirms(x.hidden, e) ==> Confirms(o.Base().hidden, e)
  {
  }

  lemma TrackFinish(o: Origin, x: Db, ev': Event)
    requires OnTrack(o, x)
    requires var ev := x.events[o.ev.key];
      && 5 <= StageIndex(ev.state) <= 8 && StageDone(ev) && (Rebuilds(o.p, ev.policy) ==> AllDone(ev))
      && ev' == ev.(state := FinalState(ev.unresolved))
    ensures OnTrack(o, x.WithEvent(ev'))
  {
    hide Outcome, Good, Addressed, Early, Late, StageDone, WalkTo, TargetsOf, Start, Settled, Decisions;
    var ev := x.events[o.ev.key];
    OriginFacts(o);
    EndIs(o);
    if ev.state.QuarantineApplied? {
      EarlySettled(o, x, ev);
      EarlyRest(o, x, ev);
      if Rebuilds(o.p, ev.policy) {
        FinishAtOnce(o, ev);
      }
    } else {
      LateRebuilds(o, x, ev);
      FinishRebuilt(o, x, ev);
    }
  }

  lemma LateRebuilds(o: Origin, x: Db, ev: Event)
    requires Late(o, x, ev)
    ensures Rebuilds(o.p, ev.policy) && (Rebuilds(o.p, o.ev.policy) || o.ev.policy != ev.policy)
  {
  }

  lemma EndIs(o: Origin)
    requires !Terminal(o.ev.state)
    ensures var g := if Rebuilds(o.p, o.ev.policy) then o.At(|o.Queue()|).done else Progress(o.ev.rebuilt, o.Settlement().unresolved);
      o.End() == Summary(o.Verdicts(), o.Queue(), g.rebuilt, g.unresolved, FinalState(g.unresolved))
  {
    hide WalkTo, Settled, Decisions;
  }

  lemma FinishAtOnce(o: Origin, ev: Event)
    requires o.Fresh() && LedgerOf(ev) == o.Settlement() && ev.rebuilt == [] && AllDone(ev)
    ensures o.At(|o.Queue()|).done == ProgressOf(ev)
  {
    hide Good, WalkTo, TargetsOf, Start, Decisions;
    OriginFacts(o);
    BaseFacts(o);
    AtPending(o, 0);
  }

  lemma FinishRebuilt(o: Origin, x: Db, ev: Event)
    requires Late(o, x, ev) && AllDone(ev)
    ensures ev.decisions == o.Verdicts() && ev.quarantined == o.Queue()
    ensures ProgressOf(ev) == o.At(|o.Queue()|).done
  {
    hide WalkTo, LateAt;
    assert Pending(ProgressOf(ev), o.Queue()) == |o.Queue()|;
  }

  // ----- the target in hand

  /** On the way, the planner sees the evidence of the undisturbed run wherever it looks. */
  lemma EvidenceHere(o: Origin, x: Db, i: nat)
    requires o.Fresh() && o.Firm() && Rebuilds(o.p, o.ev.policy) && i < |o.Queue()|
    requires forall e :: Confirms(x.hidden, e) ==> Confirms(o.Base().hidden, e)
    requires forall e :: Lasts(o, i, e) ==> Confirms(x.hidden, e)
    ensures var b, t := o.At(i).db, o.Queue()[i];
      t in b.derivations && Runnable(o.p, b.derivations[t]) ==> SameEvidence(b, x, o.p.now, t)
  {
    hide WalkTo, TargetsOf, Start, Pool, Good, Addressed, Runnable;
    var b, t := o.At(i).db, o.Queue()[i];
    AtSteady(o, i);
    if t in b.derivations && Runnable(o.p, b.derivations[t]) {
      forall s | s in Pool(b.derivations[t]) && Screen(b, o.p.now, s) in {Contaminated, Clean}
        ensures b.HasConfirmedIn(s) <==> x.HasConfirmedIn(s)
      {
        if Screen(b, o.p.now, s) == Contaminated {
          assert o.ExcludedAt(i, s);
          assert o.Holds(i, s);
          var e: (Id, Id) :| e.1 == s && o.Lasting(i, e);
          assert Lasts(o, i, e);
          assert Confirms(x.hidden, e) && Confirms(b.hidden, e);
        } else {
          CleanHere(b, x, o.p.now, s);
        }
      }
    }
  }

  lemma ConfirmedInto(db: Db, s: Id)
    ensures db.HasConfirmedIn(s) <==> exists e: (Id, Id) :: e.1 == s && Confirms(db.hidden, e)
  {
    if e: (Id, Id) :| e.1 == s && Confirms(db.hidden, e) {
      assert e in db.hidden && e.1 == s && db.hidden[e] == ReplayConfirmed;
    }
    if db.HasConfirmedIn(s) {
      var e :| e in db.hidden && e.1 == s && db.hidden[e] == ReplayConfirmed;
      assert Confirms(db.hidden, e);
    }
  }

  lemma CleanHere(b: Db, x: Db, now: int, s: Id)
    requires Screen(b, now, s) == Clean && forall e :: Confirms(x.hidden, e) ==> Confirms(b.hidden, e)
    ensures !b.HasConfirmedIn(s) && !x.HasConfirmedIn(s)
  {
    hide Confirms;
    ConfirmedInto(b, s);
    ConfirmedInto(x, s);
  }

  /** On the way, the attempt the code makes is the one the undisturbed run makes, and it
      leaves the same store, aliases aside. */
  lemma AttemptHere(o: Origin, x: Db, i: nat)
    requires o.Fresh() && Addressed(o.p) && o.Firm() && Rebuilds(o.p, o.ev.policy) && i < |o.Queue()|
    requires forall e :: Confirms(x.hidden, e) ==> Confirms(o.Base().hidden, e)
    requires LateAt(o, x, i)
    ensures var b, t := o.At(i).db, o.Queue()[i];
      && AttemptOn(x, o.p, t) == AttemptOn(b, o.p, t)
      && Like(Attempted(b, o.p, o.ev.key, t), Attempted(x, o.p, o.ev.key, t))
      && (!AttemptOn(b, o.p, t).Unavailable? ==>
            t in x.derivations && t in b.derivations && PlanFor(x, o.p.now, t) == PlanFor(b, o.p.now, t))
  {
    hide WalkTo, TargetsOf, Start, Pool, Good, Addressed, AttemptOn, PlanFor, Lasts, Framed, SameEvidence,
      Attempted, Like;
    var b, t := o.At(i).db, o.Queue()[i];
    AtSteady(o, i);
    EvidenceHere(o, x, i);
    if AttemptOn(b, o.p, t).Unavailable? {
      StaysUnavailable(b, x, o.p, t);
      UnavailableStays(b, o.p, o.ev.key, t);
      UnavailableStays(x, o.p, o.ev.key, t);
    } else {
      AttemptedIs(b, o.p, o.ev.key, t);
      AvailableRuns(b, o.p, t);
      ResumeSame(b, x, o.p, t);
      ResumeLike(b, x, o.p, o.ev.key, t);
    }
  }

  lemma AvailableRuns(b: Db, p: Params, t: Id)
    requires !AttemptOn(b, p, t).Unavailable?
    ensures t in b.derivations && Runnable(p, b.derivations[t])
  {
  }

  lemma StaysUnavailable(b: Db, x: Db, p: Params, t: Id)
    requires Addressed(p) && Like(b, x) && Tables(b) && AttemptOn(b, p, t).Unavailable?
    requires t in b.artifacts && b.artifacts[t].status != Revoked
    requires t in b.derivations && Runnable(p, b.derivations[t]) ==> SameEvidence(b, x, p.now, t)
    ensures AttemptOn(x, p, t).Unavailable?
  {
    hide PlanFor, SameEvidence, Addressed;
    if t in b.derivations && Runnable(p, b.derivations[t]) {
      LikeSame(b, x, p, t);
    } else if t in x.derivations {
      assert !Runnable(p, x.derivations[t]);
    }
  }

  lemma UnavailableStays(z: Db, p: Params, key: Key, t: Id)
    requires AttemptOn(z, p, t).Unavailable?
    ensures Attempted(z, p, key, t) == z && AttemptOn(z, p, t) == Unavailable
  {
  }

  /** The target in hand of a run that is on the way. */
  ghost predicate Handles(o: Origin, x: Db, t: Id) {
    && OnTrack(o, x) && 6 <= StageIndex(x.events[o.ev.key].state) <= 8
    && var ev := x.events[o.ev.key];
       var i := Pending(ProgressOf(ev), ev.quarantined);
       i < |ev.quarantined| && ev.quarantined[i] == t
  }

  /** The two events differ at most in their state, both of them during rebuild. */
  ghost predicate SameWork(a: Event, b: Event) {
    && 6 <= StageIndex(a.state) <= 8 && 6 <= StageIndex(b.state) <= 8
    && b == a.(state := b.state)
  }

  /** A build or a publication, whole or cut short, is a stretch of the attempt that the
      undisturbed run makes. */
  lemma TrackWork(o: Origin, x: Db, y: Db, t: Id, published: bool)
    requires Handles(o, x, t) && !AttemptOn(x, o.p, t).Unavailable? && t in x.derivations
    requires Framed(x, y, t, SuccessorOf(x, o.p, t), CleanOf(x, o.p, t), published)
    requires x.hidden == y.hidden
    requires o.ev.key in y.events && SameWork(x.events[o.ev.key], y.events[o.ev.key])
    requires published ==> AttemptOn(x, o.p, t).Passes?
    ensures OnTrack(o, y)
  {
    hide Good, Addressed, AttemptOn, PlanFor, Framed, Outcome, Early, Late;
    var ev := x.events[o.ev.key];
    QueueIs(o, x, ev);
    LateWork(o, x, y, ev, y.events[o.ev.key], t, published);
  }

  lemma QueueIs(o: Origin, x: Db, ev: Event)
    requires Late(o, x, ev)
    ensures ev.quarantined == o.Queue()
  {
  }

  lemma LateWork(o: Origin, x: Db, y: Db, ev: Event, ev': Event, t: Id, published: bool)
    requires o.Fresh() && Addressed(o.p) && o.Firm() && Late(o, x, ev) && ev.policy == o.ev.policy
    requires var i := Pending(ProgressOf(ev), o.Queue()); i < |o.Queue()| && o.Queue()[i] == t
    requires !AttemptOn(x, o.p, t).Unavailable? && t in x.derivations
    requires Framed(x, y, t, SuccessorOf(x, o.p, t), CleanOf(x, o.p, t), published)
    requires x.hidden == y.hidden && SameWork(ev, ev')
    requires published ==> AttemptOn(x, o.p, t).Passes?
    ensures Late(o, y, ev')
  {
    hide WalkTo, TargetsOf, Start, Good, Addressed, AttemptOn, PlanFor, Lasts, Framed, Confirms, InAttempt;
    var i := Pending(ProgressOf(ev), o.Queue());
    AttemptHere(o, x, i);
    WorkHere(o, x, y, i, published);
  }

  lemma WorkHere(o: Origin, x: Db, y: Db, i: nat, published: bool)
    requires o.Fresh() && i < |o.Queue()| && InAttempt(o.At(i).db, x, o.p, o.Queue()[i])
    requires var b, t := o.At(i).db, o.Queue()[i];
      && AttemptOn(x, o.p, t) == AttemptOn(b, o.p, t) && !AttemptOn(x, o.p, t).Unavailable?
      && t in x.derivations && t in b.derivations && PlanFor(x, o.p.now, t) == PlanFor(b, o.p.now, t)
      && Framed(x, y, t, SuccessorOf(x, o.p, t), CleanOf(x, o.p, t), published)
      && (published ==> AttemptOn(x, o.p, t).Passes?)
    ensures InAttempt(o.At(i).db, y, o.p, o.Queue()[i])
  {
    hide WalkTo, TargetsOf, Start, Good, AttemptOn, PlanFor, Framed;
    AtSteady(o, i);
    var b, t := o.At(i).db, o.Queue()[i];
    FramedTwice(b, x, y, t, SuccessorOf(b, o.p, t), CleanOf(b, o.p, t), AttemptOn(b, o.p, t).Passes?, published);
  }

  lemma SteadyTables(o: Origin, w: Walk)
    requires Steady(o, w)
    ensures Tables(w.db)
  {
  }

  function WithAttempt(ev: Event, t: Id, att: Attempt): Event {
    var g := Record(Progress(ev.rebuilt, ev.unresolved), t, att);
    ev.(rebuilt := g.rebuilt, unresolved := g.unresolved)
  }

  /** Recording how the attempt on the target in hand ended takes the run one target on. */
  lemma TrackRecord(o: Origin, x: Db, y: Db, ev: Event, t: Id)
    requires Handles(o, x, t) && ev.key == o.ev.key
    requires var was := x.events[o.ev.key];
      SameRequest(was, ev) && ev.decisions == was.decisions && ev.quarantined == was.quarantined && ProgressOf(ev) == ProgressOf(was)
    requires 6 <= StageIndex(ev.state) <= 8
    requires SameTables(Attempted(x, o.p, o.ev.key, t), y)
    requires ev.key in y.events && y.events[ev.key] == WithAttempt(ev, t, AttemptOn(x, o.p, t))
    ensures OnTrack(o, y)
  {
    hide WalkTo, TargetsOf, Start, Good, Addressed, AttemptOn, Attempted, PlanFor, Confirms, Outcome, Like,
      Record, Finds, Early, InAttempt, Steady;
    var was := x.events[o.ev.key];
    var i := Pending(ProgressOf(was), o.Queue());
    var b, key := o.At(i).db, o.ev.key;
    AtSteady(o, i);
    AttemptHere(o, x, i);
    AtNext(o, i);
    AtSteady(o, i + 1);
    SteadyTables(o, o.At(i + 1));
    AtPending(o, i + 1);
    AttemptedRest(x, o.p, key, t);
    var ev' := y.events[key];
    RecordOf(ev, t, AttemptOn(x, o.p, t));
    assert ProgressOf(ev') == o.At(i + 1).done;
    LikeOn(Attempted(b, o.p, key, t), Attempted(x, o.p, key, t), y);
    if i + 1 < |o.Queue()| {
      LikeInAttempt(o.At(i + 1).db, y, o.p, o.Queue()[i + 1]);
      forall e | Lasts(o, i + 1, e) ensures Confirms(y.hidden, e) {
        assert Lasts(o, i, e);
      }
    }
    assert Late(o, y, ev');
  }

  lemma RecordOf(ev: Event, t: Id, att: Attempt)
    ensures ProgressOf(WithAttempt(ev, t, att)) == Record(ProgressOf(ev), t, att)
  {
  }
}
