/** What any stretch of a run keeps, whole or cut short, and one lemma per kind of commit. */
module RevocationSteps {
  import opened Domain
  import opened StateMachine
  import opened Store
  import opened Planner
  import opened RevocationSpec
  import opened RevocationLaws
  import opened HiddenEvidence
  import opened Attempts
  import opened Frames
  import opened Foresight
  import opened RevocationInv
  import opened Track
  import opened TrackSteps
  import opened Publication

  /** Whatever fresh event a store descends from, it is still on the way to the end of
      the undisturbed run from there if it was before. */
  ghost predicate TrackKept(a: Db, b: Db, p: Params, key: Key, closure: seq<Id>) {
    forall z: Db, ev: Event ::
      ev.key == key && OnTrack(Origin(z, p, closure, ev), a) ==> OnTrack(Origin(z, p, closure, ev), b)
  }

  ghost predicate Kept(a: Db, b: Db, p: Params, key: Key, closure: seq<Id>) {
    && key in a.events
    && Good(b, p, key, closure)
    && SameRequest(a.events[key], b.events[key])
    && OthersKept(a, b, key)
    && LogExtends(a.LogOf(key), b.LogOf(key))
    && Stuck(p, a.events[key].state) == Stuck(p, b.events[key].state)
    && Ends(p, a.events[key], b.events[key])
    && Findings(b, p, closure, b.events[key]) == Findings(a, p, closure, a.events[key])
    && (a.events[key].policy.Forensic? ==> ServingSame(a, b))
    && TrackKept(a, b, p, key, closure)
    && PublishedKept(a, b, p, key)
  }

  lemma KeptSelf(a: Db, p: Params, key: Key, closure: seq<Id>)
    requires Good(a, p, key, closure)
    ensures Kept(a, a, p, key, closure)
  {
    hide OnTrack, Findings, Shape, Scannable, TargetsExist, Climbs, AllPublished;
  }

  lemma KeptTwice(a: Db, b: Db, c: Db, p: Params, key: Key, closure: seq<Id>)
    requires Kept(a, b, p, key, closure) && Kept(b, c, p, key, closure)
    ensures Kept(a, c, p, key, closure)
  {
    hide OnTrack, Findings, Good, TrackKept, AllPublished;
    TrackTwice(a, b, c, p, key, closure);
  }

  lemma TrackTwice(a: Db, b: Db, c: Db, p: Params, key: Key, closure: seq<Id>)
    requires TrackKept(a, b, p, key, closure) && TrackKept(b, c, p, key, closure)
    ensures TrackKept(a, c, p, key, closure)
  {
    hide OnTrack;
    forall z: Db, ev: Event | ev.key == key && OnTrack(Origin(z, p, closure, ev), a)
      ensures OnTrack(Origin(z, p, closure, ev), c)
    {
      assert OnTrack(Origin(z, p, closure, ev), b);
    }
  }

  lemma KeptGood(a: Db, b: Db, p: Params, key: Key, closure: seq<Id>)
    requires Kept(a, b, p, key, closure)
    ensures Good(b, p, key, closure)
  {
    hide Good, TrackKept, Findings, PublishedKept;
  }

  lemma KeptTrack(a: Db, b: Db, p: Params, key: Key, closure: seq<Id>)
    requires Kept(a, b, p, key, closure)
    ensures TrackKept(a, b, p, key, closure)
  {
    hide Good, TrackKept, Findings, PublishedKept;
  }

  // ----- commits that leave every table the findings rest on alone

  ghost predicate ReadsSame(a: Db, b: Db) {
    && a.order == b.order && a.artifacts == b.artifacts && a.quarantine == b.quarantine
    && a.derivations == b.derivations && a.recorded == b.recorded && a.waivers == b.waivers
  }

  lemma ReadsTwice(a: Db, b: Db, c: Db)
    requires ReadsSame(a, b) && ReadsSame(b, c)
    ensures ReadsSame(a, c)
  {
  }

  lemma ReadsSameFindings(a: Db, b: Db, p: Params, closure: seq<Id>, ev: Event)
    requires ReadsSame(a, b)
    ensures Decisions(a, p, closure, ev) == Decisions(b, p, closure, ev)
    ensures Findings(a, p, closure, ev) == Findings(b, p, closure, ev)
    ensures Scannable(a, p, ev, closure) == Scannable(b, p, ev, closure)
    ensures TargetsExist(a, p, ev, closure) == TargetsExist(b, p, ev, closure)
  {
    assert SnapshotOf(a) == SnapshotOf(b);
    assert a.RecordedPairs() == b.RecordedPairs();
  }

  lemma EndsSame(p: Params, ev: Event)
    ensures Ends(p, ev, ev)
  {
  }

  /** A commit that leaves the event and every table its findings rest on alone. */
  lemma QuietKept(a: Db, b: Db, p: Params, key: Key, closure: seq<Id>)
    requires Good(a, p, key, closure) && ReadsSame(a, b) && b.events == a.events
    requires OthersKept(a, b, key) && LogExtends(a.LogOf(key), b.LogOf(key)) && Climbs(b.LogOf(key), b.events[key].state)
    requires TrackKept(a, b, p, key, closure)
    ensures Kept(a, b, p, key, closure)
  {
    hide Decisions, Findings, Stuck, Ends, Climbs, TrackKept, Shape, Scannable, TargetsExist, AllPublished;
    ReadsSameFindings(a, b, p, closure, a.events[key]);
    if AllPublished(a, p, a.events[key]) {
      PublishedReads(a, b, p, a.events[key], b.events[key]);
    }
    EndsSame(p, a.events[key]);
  }

  /** Evidence is written only for pairs recovery finds in the store as it is, and
      confirmed only where the run decides to. */
  lemma HiddenKept(db: Db, p: Params, key: Key, closure: seq<Id>, s: Id, t: Id, e: Domain.Evidence)
    requires Good(db, p, key, closure)
    requires Finds(SnapshotOf(db), p, db.events[key].roots, (s, t))
    requires e == ReplayConfirmed ==>
               BeforeQuarantine(db.events[key].state) && ConfirmedPair(Decisions(db, p, closure, db.events[key]), (s, t))
    ensures Kept(db, db.WithHidden(s, t, e), p, key, closure)
  {
    hide Kept, Decisions, Shape, Scannable, TargetsExist, Climbs, OnTrack, Finds, ConfirmedPair;
    var b := db.WithHidden(s, t, e);
    HiddenSame(db, key, s, t, e);
    forall z: Db, ev: Event | ev.key == key && OnTrack(Origin(z, p, closure, ev), db)
      ensures OnTrack(Origin(z, p, closure, ev), b)
    {
      TrackHidden(Origin(z, p, closure, ev), db, s, t, e);
    }
    QuietKept(db, b, p, key, closure);
  }

  lemma HiddenSame(db: Db, key: Key, s: Id, t: Id, e: Domain.Evidence)
    ensures var b := db.WithHidden(s, t, e);
      && ReadsSame(db, b) && b.events == db.events && OthersKept(db, b, key) && LogExtends(db.LogOf(key), b.LogOf(key))
      && b.LogOf(key) == db.LogOf(key)
  {
  }

  lemma LogKept(db: Db, p: Params, key: Key, closure: seq<Id>, s: Step)
    requires Good(db, p, key, closure)
    requires Climbs(db.LogOf(key) + [s], db.events[key].state)
    ensures Kept(db, db.WithStep(key, s), p, key, closure)
  {
    hide Kept, Decisions, Shape, Scannable, TargetsExist, Climbs, OnTrack;
    var b := db.WithStep(key, s);
    StepSame(db, key, s);
    forall z: Db, ev: Event | ev.key == key && OnTrack(Origin(z, p, closure, ev), db)
      ensures OnTrack(Origin(z, p, closure, ev), b)
    {
      TrackSame(Origin(z, p, closure, ev), db, b);
    }
    QuietKept(db, b, p, key, closure);
  }

  lemma StepSame(db: Db, key: Key, s: Step)
    ensures var b := db.WithStep(key, s);
      && ReadsSame(db, b) && SameTables(db, b) && b.events == db.events
      && OthersKept(db, b, key) && LogExtends(db.LogOf(key), b.LogOf(key))
      && b.LogOf(key) == db.LogOf(key) + [s] && b.hidden == db.hidden
  {
  }

  // ----- the event

  /** Writing the event leaves every table its findings rest on alone. */
  lemma EventGood(db: Db, p: Params, key: Key, closure: seq<Id>, ev': Event)
    requires Good(db, p, key, closure) && ev'.key == key
    requires Shape(ev') && Climbs(db.LogOf(key), ev'.state)
    requires Scannable(db, p, ev', closure) && TargetsExist(db, p, ev', closure)
    ensures var b := db.WithEvent(ev');
      && Good(b, p, key, closure) && b.events[key] == ev' && ReadsSame(db, b) && b.hidden == db.hidden
      && forall k :: b.LogOf(k) == db.LogOf(k)
  {
    hide Shape, Climbs, Scannable, TargetsExist;
    var b := db.WithEvent(ev');
    assert ReadsSame(db, b);
    ReadsSameFindings(db, b, p, closure, ev');
  }

  /** Saving the event, measured from an earlier point `z` of the run: enough that the
      new event is well formed, has the same findings and stays on the way. */
  lemma EventKeptFrom(z: Db, db: Db, p: Params, key: Key, closure: seq<Id>, ev': Event)
    requires Kept(z, db, p, key, closure)
    requires SameRequest(db.events[key], ev') && Stuck(p, db.events[key].state) == Stuck(p, ev'.state)
    requires Ends(p, db.events[key], ev') && Findings(db, p, closure, ev') == Findings(db, p, closure, db.events[key])
    requires Shape(ev') && Climbs(db.LogOf(key), ev'.state)
    requires Scannable(db, p, ev', closure) && TargetsExist(db, p, ev', closure)
    requires TrackKept(z, db.WithEvent(ev'), p, key, closure) && PublishedKept(z, db.WithEvent(ev'), p, key)
    ensures Kept(z, db.WithEvent(ev'), p, key, closure)
  {
    hide Findings, Shape, Climbs, Scannable, TargetsExist, Accounted, Stuck, TrackKept, PublishedKept;
    KeptKey(z, db, p, key, closure);
    hide Good;
    EventGood(db, p, key, closure, ev');
    ReadsSameFindings(db, db.WithEvent(ev'), p, closure, ev');
  }

  lemma KeptKey(z: Db, db: Db, p: Params, key: Key, closure: seq<Id>)
    requires Kept(z, db, p, key, closure)
    ensures Good(db, p, key, closure) && key in z.events && key in db.events && db.events[key].key == key
  {
    hide TrackKept, Findings, PublishedKept;
  }

  lemma EventKept(db: Db, p: Params, key: Key, closure: seq<Id>, ev': Event)
    requires Good(db, p, key, closure)
    requires SameRequest(db.events[key], ev') && Stuck(p, db.events[key].state) == Stuck(p, ev'.state)
    requires Ends(p, db.events[key], ev') && Findings(db, p, closure, ev') == Findings(db, p, closure, db.events[key])
    requires Shape(ev') && Climbs(db.LogOf(key), ev'.state)
    requires Scannable(db, p, ev', closure) && TargetsExist(db, p, ev', closure)
    requires TrackKept(db, db.WithEvent(ev'), p, key, closure)
    requires ev'.rebuilt == [] || (ev'.rebuilt == db.events[key].rebuilt && ev'.quarantined == db.events[key].quarantined)
    ensures Kept(db, db.WithEvent(ev'), p, key, closure)
  {
    hide Kept, Shape, Climbs, Scannable, TargetsExist, Findings, Ends, TrackKept, AllPublished;
    KeptSelf(db, p, key, closure);
    var b := db.WithEvent(ev');
    if ev'.rebuilt == [] {
      NothingPublished(b, p, ev');
    } else if AllPublished(db, p, db.events[key]) {
      PublishedReads(db, b, p, db.events[key], ev');
    }
    EventKeptFrom(db, db, p, key, closure, ev');
  }

  /** Closure and candidates are bookkeeping: events that differ only there, or in
      decisions that lead to the same list, have the same findings and the same end. */
  lemma SameProgress(db: Db, p: Params, key: Key, closure: seq<Id>, ev': Event)
    requires key in db.events && db.events[key].key == key
    requires var ev := db.events[key];
      && ev' == ev.(closure := ev'.closure, candidates := ev'.candidates, decisions := ev'.decisions)
      && Decisions(db, p, closure, ev') == Decisions(db, p, closure, ev)
      && !Terminal(ev.state) && (StageIndex(ev.state) > 5 ==> ev'.decisions == ev.decisions)
      && (StageIndex(ev.state) <= 5 ==> ev.rebuilt == [])
    ensures Findings(db, p, closure, ev') == Findings(db, p, closure, db.events[key])
    ensures TrackKept(db, db.WithEvent(ev'), p, key, closure)
  {
    hide OnTrack, Decisions;
    var ev := db.events[key];
    var ds := Decisions(db, p, closure, ev);
    assert Settled(p, ev', ds) == Settled(p, ev, ds);
    forall z: Db, e: Event | e.key == key && OnTrack(Origin(z, p, closure, e), db)
      ensures OnTrack(Origin(z, p, closure, e), db.WithEvent(ev'))
    {
      if StageIndex(ev.state) <= 5 {
        TrackEarlyEvent(Origin(z, p, closure, e), db, ev');
      } else {
        TrackLateEvent(Origin(z, p, closure, e), db, ev');
      }
    }
  }

  // ----- quarantine commits

  /** The quarantine of `t` for event `key`, not begun, with its row written, or whole. */
  ghost predicate Quarantining(a: Db, b: Db, key: Key, t: Id) {
    || b == a
    || b == a.WithRow(t, key)
    || (t in a.artifacts && b == a.WithRow(t, key).WithStatus(t, Status.Quarantined))
  }

  lemma QuarantineGood(a: Db, b: Db, p: Params, key: Key, closure: seq<Id>, t: Id)
    requires Good(a, p, key, closure) && Quarantining(a, b, key, t)
    ensures Good(b, p, key, closure) && b.events == a.events && b.log == a.log
    ensures key in a.events && Findings(a, p, closure, a.events[key]) == Findings(b, p, closure, a.events[key])
  {
    hide Shape, Climbs;
    QuarantineSnapshot(a, b, key, t);
    assert a.RecordedPairs() == b.RecordedPairs();
  }

  lemma QuarantineSnapshot(a: Db, b: Db, key: Key, t: Id)
    requires Quarantining(a, b, key, t)
    ensures SnapshotOf(a) == SnapshotOf(b) && b.events == a.events && b.log == a.log
    ensures forall id :: id in a.artifacts <==> id in b.artifacts
  {
  }

  lemma EarlyRebuilt(a: Db, p: Params, key: Key, closure: seq<Id>)
    requires Good(a, p, key, closure) && StageIndex(a.events[key].state) <= 5
    ensures a.events[key].rebuilt == []
  {
  }

  /** Quarantining a target of the run, whole or cut short. */
  lemma QuarantineKept(a: Db, b: Db, p: Params, key: Key, closure: seq<Id>, t: Id)
    requires Good(a, p, key, closure) && Quarantining(a, b, key, t)
    requires !a.events[key].policy.Forensic? && a.events[key].state.QuarantineApplied?
    requires t in TargetsOf(a, p, closure, a.events[key]) && t !in a.events[key].quarantined && t in a.artifacts
    ensures Kept(a, b, p, key, closure)
  {
    hide Good, TargetsOf, Stuck, Ends, Findings, OnTrack, AllPublished;
    QuarantineGood(a, b, p, key, closure, t);
    EndsSame(p, a.events[key]);
    EarlyRebuilt(a, p, key, closure);
    NothingPublished(b, p, b.events[key]);
    forall z: Db, ev: Event | ev.key == key && OnTrack(Origin(z, p, closure, ev), a)
      ensures OnTrack(Origin(z, p, closure, ev), b)
    {
      if b != a {
        TrackQuarantine(Origin(z, p, closure, ev), a, b, t);
      }
    }
  }

  // ----- build and publication commits

  /** Past the quarantine stage the findings are on the event, whatever the store says. */
  lemma LateFindings(a: Db, b: Db, p: Params, closure: seq<Id>, ev: Event)
    requires 6 <= StageIndex(ev.state) <= 8
    ensures Findings(a, p, closure, ev) == Findings(b, p, closure, ev)
    ensures StageDone(ev) ==> Findings(a, p, closure, ev) == (ev.decisions, ev.quarantined)
  {
    if StageDone(ev) {
      StageDoneSettles(p, ev);
    }
  }

  lemma WorkGood(a: Db, b: Db, p: Params, key: Key, closure: seq<Id>, t: Id, n: Id, clean: seq<Id>, published: bool)
    requires Good(a, p, key, closure) && 6 <= StageIndex(a.events[key].state) <= 8
    requires Worked(a, b, t, n, clean, published)
    ensures Good(b, p, key, closure) && key in a.events && b.events == a.events && b.log == a.log
  {
    hide Shape, Climbs, Framed, Tables;
    var ev := a.events[key];
    FramedTables(a, b, t, n, clean, published);
    FramedHolds(a, b, t, n, clean, published);
    assert Decisions(b, p, closure, ev) == Decisions(a, p, closure, ev);
    assert a.LogOf(key) == b.LogOf(key);
  }

  lemma FramedHolds(a: Db, b: Db, t: Id, n: Id, clean: seq<Id>, published: bool)
    requires Framed(a, b, t, n, clean, published)
    ensures forall id :: id in a.artifacts ==> id in b.artifacts
  {
    hide CutAt;
  }

  /** `t` is the next target to rebuild: everything before it in the queue is done. */
  ghost predicate InHand(ev: Event, t: Id) {
    && 7 <= StageIndex(ev.state) <= 8
    && var i := Pending(ProgressOf(ev), ev.quarantined); i < |ev.quarantined| && ev.quarantined[i] == t
  }

  lemma HandPending(ev: Event, t: Id)
    requires InHand(ev, t)
    ensures t in ev.quarantined && t !in Originals(ev.rebuilt)
  {
  }

  /** What has been done to `t` since `z`, when its attempt began: nothing but part of
      that attempt. */
  ghost predicate AtWork(z: Db, b: Db, p: Params, key: Key, t: Id, published: bool) {
    && key in z.events && key in b.events && InHand(z.events[key], t) && SameWork(z.events[key], b.events[key])
    && !AttemptOn(z, p, t).Unavailable? && t in z.derivations && b.hidden == z.hidden
    && Framed(z, b, t, SuccessorOf(z, p, t), CleanOf(z, p, t), published)
  }

  lemma WorkTrack(z: Db, b: Db, p: Params, key: Key, closure: seq<Id>, t: Id, published: bool)
    requires AtWork(z, b, p, key, t, published) && (published ==> AttemptOn(z, p, t).Passes?)
    ensures TrackKept(z, b, p, key, closure)
  {
    hide OnTrack, AttemptOn, Framed, PlanFor;
    forall o: Db, e: Event | e.key == key && OnTrack(Origin(o, p, closure, e), z)
      ensures OnTrack(Origin(o, p, closure, e), b)
    {
      TrackWork(Origin(o, p, closure, e), z, b, t, published);
    }
  }

  /** A build or a publication of `t`, whole or cut short, keeps the run. */
  lemma WorkKept(z: Db, a: Db, b: Db, p: Params, key: Key, closure: seq<Id>, t: Id, published: bool)
    requires Kept(z, a, p, key, closure) && AtWork(z, a, p, key, t, false) && Tables(z)
    requires !a.events[key].policy.Forensic?
    requires Worked(a, b, t, SuccessorOf(z, p, t), CleanOf(z, p, t), published)
    requires published ==> AttemptOn(z, p, t).Passes?
    ensures Kept(z, b, p, key, closure) && AtWork(z, b, p, key, t, published)
  {
    hide Good, Stuck, Ends, Findings, OnTrack, AttemptOn, Framed, PlanFor, TrackKept, AllPublished;
    KeptKey(z, a, p, key, closure);
    WorkGood(a, b, p, key, closure, t, SuccessorOf(z, p, t), CleanOf(z, p, t), published);
    LateFindings(a, b, p, closure, a.events[key]);
    FramedTwice(z, a, b, t, SuccessorOf(z, p, t), CleanOf(z, p, t), false, published);
    WorkTrack(z, b, p, key, closure, t, published);
    if AllPublished(z, p, z.events[key]) {
      HandPending(z.events[key], t);
      WorkPublished(z, b, p, z.events[key], b.events[key], t, CleanOf(z, p, t), published);
    }
    assert forall k :: a.LogOf(k) == b.LogOf(k);
  }

  // ----- recording how an attempt ended

  lemma RecordedShape(ev: Event, t: Id, att: Attempt)
    requires Shape(ev) && InHand(ev, t)
    ensures Shape(WithAttempt(ev, t, att))
  {
    var g := ProgressOf(ev);
    RecordFacts(g, ev.quarantined, t, att);
    var ev' := WithAttempt(ev, t, att);
    forall x | x in OpenTargets(ev.unresolved) ensures x in OpenTargets(ev'.unresolved) {
      var u :| u in ev.unresolved && u.target == x;
      assert u in ev'.unresolved;
    }
    forall d | d in OpenDecisions(ev.decisions)
      ensures Covered(Ledger(ev'.quarantined, ev'.unresolved), d.target)
    {
      assert Covered(Ledger(ev.quarantined, ev.unresolved), d.target);
    }
  }

  lemma RecordTrack(z: Db, b: Db, p: Params, key: Key, closure: seq<Id>, ev: Event, t: Id)
    requires key in z.events && InHand(z.events[key], t) && SameWork(z.events[key], ev) && ev.key == key
    requires SameTables(Attempted(z, p, key, t), b)
    ensures TrackKept(z, b.WithEvent(WithAttempt(ev, t, AttemptOn(z, p, t))), p, key, closure)
  {
    hide OnTrack, AttemptOn, Attempted, Record;
    var y := b.WithEvent(WithAttempt(ev, t, AttemptOn(z, p, t)));
    forall o: Db, e: Event | e.key == key && OnTrack(Origin(o, p, closure, e), z)
      ensures OnTrack(Origin(o, p, closure, e), y)
    {
      TrackRecord(Origin(o, p, closure, e), z, y, ev, t);
    }
  }

  /** Recording how the attempt begun on `z` ended keeps the run, once the store is the
      one that attempt leaves. */
  lemma RecordKept(z: Db, b: Db, p: Params, key: Key, closure: seq<Id>, ev: Event, t: Id)
    requires Kept(z, b, p, key, closure) && b.events[key] == ev && ev.key == key
    requires InHand(z.events[key], t) && SameWork(z.events[key], ev) && InHand(ev, t)
    requires SameTables(Attempted(z, p, key, t), b) && Tables(z)
    ensures Kept(z, b.WithEvent(WithAttempt(ev, t, AttemptOn(z, p, t))), p, key, closure)
  {
    hide Tidy, Findings, TrackKept, AttemptOn, Attempted, OnTrack, Decisions, AllPublished;
    var ev' := WithAttempt(ev, t, AttemptOn(z, p, t));
    RecordedShape(ev, t, AttemptOn(z, p, t));
    LateStageDone(ev);
    LateStageDone(ev');
    LateFindings(b, b, p, closure, ev);
    LateFindings(b, b, p, closure, ev');
    LateDecisions(b, p, closure, ev, ev');
    RecordTrack(z, b, p, key, closure, ev, t);
    RecordPublishes(z, b, p, key, ev, t);
    EventKeptFrom(z, b, p, key, closure, ev');
  }

  lemma RecordPublishes(z: Db, b: Db, p: Params, key: Key, ev: Event, t: Id)
    requires key in z.events && InHand(z.events[key], t) && SameWork(z.events[key], ev) && ev.key == key
    requires SameTables(Attempted(z, p, key, t), b) && Tables(z)
    ensures PublishedKept(z, b.WithEvent(WithAttempt(ev, t, AttemptOn(z, p, t))), p, key)
  {
    hide AllPublished, AttemptOn, Attempted, Record;
    var y := b.WithEvent(WithAttempt(ev, t, AttemptOn(z, p, t)));
    if AllPublished(z, p, z.events[key]) {
      HandPending(z.events[key], t);
      PublishedReads(z, z, p, z.events[key], ev);
      RecordPublished(z, y, p, key, ev, t);
    }
  }

  lemma LateDecisions(db: Db, p: Params, closure: seq<Id>, ev: Event, ev': Event)
    requires 6 <= StageIndex(ev.state) <= 8 && ev'.state == ev.state && ev'.decisions == ev.decisions
    requires ev'.quarantined == ev.quarantined && TargetsExist(db, p, ev, closure)
    ensures TargetsExist(db, p, ev', closure)
  {
  }
}
