/** The quarantine stage: confirmed targets first, then the unresolved ones the
    policy wants quarantined; the rest is reported. */
module QuarantineStage {
  import opened Domain
  import opened StateMachine
  import opened Store
  import opened Planner
  import opened RevocationSpec
  import opened RevocationLaws
  import opened Foresight
  import opened RevocationInv
  import opened Track
  import opened TrackSteps
  import opened RevocationSteps
  import opened Pipeline

  function WithLedger(ev: Event, l: Ledger): Event {
    ev.(quarantined := l.quarantined, unresolved := l.unresolved)
  }

  /** `quarantine_artifact`: the row first, then the status. */
  method QuarantineArtifact(ws: Workspace, p: Params, key: Key, t: Id, ghost closure: seq<Id>) returns (r: Result<()>)
    requires Good(ws.db, p, key, closure)
    requires !ws.db.events[key].policy.Forensic? && ws.db.events[key].state.QuarantineApplied?
    requires t in TargetsOf(ws.db, p, closure, ws.db.events[key]) && t !in ws.db.events[key].quarantined
    requires t in ws.db.artifacts
    modifies ws
    ensures Kept(old(ws.db), ws.db, p, key, closure)
    ensures Quarantining(old(ws.db), ws.db, key, t)
    ensures r.Ok? ==> ws.db == old(ws.db).WithRow(t, key).WithStatus(t, Status.Quarantined)
    ensures r.Err? ==> r.Crashed()
    ensures ws.Ran(r.Crashed())
  {
    hide Good, Kept, TargetsOf;
    ghost var a := ws.db;
    QuarantineKept(a, a, p, key, closure, t);
    QuarantineKept(a, a.WithRow(t, key), p, key, closure, t);
    QuarantineKept(a, a.WithRow(t, key).WithStatus(t, Status.Quarantined), p, key, closure, t);
    var _ :- ws.AddQuarantine(t, key);
    r := ws.SetStatus(t, Status.Quarantined);
  }

  /** What the stage has done to `id`: quarantined for this event, or nothing. */
  predicate QuarantinedAt(a: Db, b: Db, key: Key, id: Id, hit: bool) {
    if hit then
      && id in a.artifacts && id in b.artifacts && b.artifacts[id] == a.artifacts[id].(status := Status.Quarantined)
      && id in b.quarantine && b.quarantine[id] == Row(key, true)
    else
      && (id in a.artifacts <==> id in b.artifacts) && (id in a.artifacts ==> b.artifacts[id] == a.artifacts[id])
      && (id in a.quarantine <==> id in b.quarantine) && (id in a.quarantine ==> b.quarantine[id] == a.quarantine[id])
  }

  /** Between `a` and `b` exactly the targets that joined the list were quarantined. */
  ghost predicate Quarantines(a: Db, b: Db, key: Key, was: seq<Id>, now: seq<Id>) {
    && b == a.(artifacts := b.artifacts, quarantine := b.quarantine, events := b.events)
    && (forall id :: id in was ==> id in now)
    && (forall id :: QuarantinedAt(a, b, key, id, Joins(id, was, now)))
  }

  lemma QuarantinesNone(a: Db, key: Key, q: seq<Id>)
    ensures Quarantines(a, a, key, q, q)
  {
    forall id ensures QuarantinedAt(a, a, key, id, Joins(id, q, q)) {
    }
  }

  lemma QuarantinesOne(a: Db, key: Key, q: seq<Id>, t: Id)
    requires t in a.artifacts && t !in q
    ensures Quarantines(a, a.WithRow(t, key).WithStatus(t, Status.Quarantined), key, q, q + [t])
  {
    var b := a.WithRow(t, key).WithStatus(t, Status.Quarantined);
    forall id ensures QuarantinedAt(a, b, key, id, Joins(id, q, q + [t])) {
      QuarantineAt(a, key, t, id);
    }
  }

  lemma QuarantineAt(a: Db, key: Key, t: Id, id: Id)
    requires t in a.artifacts
    ensures QuarantinedAt(a, a.WithRow(t, key).WithStatus(t, Status.Quarantined), key, id, id == t)
  {
  }

  lemma QuarantinesEvent(a: Db, b: Db, key: Key, was: seq<Id>, now: seq<Id>, ev: Event)
    requires Quarantines(a, b, key, was, now)
    ensures Quarantines(a, b.WithEvent(ev), key, was, now)
  {
    var c := b.WithEvent(ev);
    forall id ensures QuarantinedAt(a, c, key, id, Joins(id, was, now)) {
      assert QuarantinedAt(a, b, key, id, Joins(id, was, now));
    }
  }

  lemma QuarantinesTwice(a: Db, b: Db, c: Db, key: Key, was: seq<Id>, mid: seq<Id>, now: seq<Id>)
    requires Quarantines(a, b, key, was, mid) && Quarantines(b, c, key, mid, now)
    ensures Quarantines(a, c, key, was, now)
  {
    forall id ensures QuarantinedAt(a, c, key, id, Joins(id, was, now)) {
      assert QuarantinedAt(a, b, key, id, Joins(id, was, mid));
      assert QuarantinedAt(b, c, key, id, Joins(id, mid, now));
    }
  }

  ghost predicate NewlyQuarantined(db: Db, ev: Event, l: Ledger) {
    forall t :: t in l.quarantined && t !in ev.quarantined ==>
      t in db.artifacts && db.RowActive(t) && db.artifacts[t].status == Status.Quarantined
  }

  /** A ledger written in the quarantine stage that the stage itself would complete
      to the same final ledger. */
  lemma LedgerKept(db: Db, p: Params, key: Key, closure: seq<Id>, l: Ledger)
    requires Good(db, p, key, closure) && db.events[key].state.QuarantineApplied?
    requires Shape(WithLedger(db.events[key], l)) && NewlyQuarantined(db, db.events[key], l)
    requires var ev := db.events[key]; Settled(p, WithLedger(ev, l), ev.decisions) == Settled(p, ev, ev.decisions)
    ensures Kept(db, db.WithEvent(WithLedger(db.events[key], l)), p, key, closure)
  {
    hide Kept, Settled, OnTrack, Tables, Tidy;
    var ev := db.events[key];
    var ev' := WithLedger(ev, l);
    forall z: Db, e: Event | e.key == key && OnTrack(Origin(z, p, closure, e), db)
      ensures OnTrack(Origin(z, p, closure, e), db.WithEvent(ev'))
    {
      TrackEarlyEvent(Origin(z, p, closure, e), db, ev');
    }
    EventKept(db, p, key, closure, ev');
  }

  /** Saves the event with its next ledger. */
  method SaveLedger(ws: Workspace, p: Params, ev: Event, ev': Event, ghost a: Db, ghost closure: seq<Id>)
    returns (r: Result<Event>)
    requires Kept(a, ws.db, p, ev.key, closure) && Current(ws.db, ev) && ev.state.QuarantineApplied?
    requires ev' == WithLedger(ev, LedgerOf(ev')) && Shape(ev') && NewlyQuarantined(ws.db, ev, LedgerOf(ev'))
    requires Settled(p, ev', ev.decisions) == Settled(p, ev, ev.decisions)
    requires Quarantines(a, ws.db, ev.key, ev.quarantined, ev'.quarantined)
    modifies ws
    ensures Kept(a, ws.db, p, ev.key, closure) && ws.db.log == old(ws.db).log && RebuiltSame(old(ws.db), ws.db, ev.key)
    ensures r.Ok? ==> r.value == ev' && Current(ws.db, ev') && Quarantines(a, ws.db, ev.key, ev.quarantined, ev'.quarantined)
    ensures r.Err? ==> r.Crashed()
    ensures ws.Ran(r.Crashed())
  {
    hide Good, Kept, Shape, Quarantines, Settled, NewlyQuarantined;
    ghost var b := ws.db;
    KeptGood(a, b, p, ev.key, closure);
    LedgerKept(b, p, ev.key, closure, LedgerOf(ev'));
    KeptTwice(a, b, b.WithEvent(ev'), p, ev.key, closure);
    QuarantinesEvent(a, b, ev.key, ev.quarantined, ev'.quarantined, ev');
    var _ :- ws.Update(ev');
    return Ok(ev');
  }

  // ----- the loop over confirmed targets

  /** Both loops recognise, by membership, the targets an earlier process handled. */
  ghost predicate ConfirmedUpTo(p: Params, ev: Event, ts: seq<Id>, start: seq<Id>, i: nat)
    requires i <= |ts|
  {
    && (forall j :: 0 <= j < i ==> ts[j] in ev.quarantined)
    && AddMissing(ev.quarantined, ts[i..]) == AddMissing(start, ts)
  }

  lemma ConfirmedNext(p: Params, ev: Event, ts: seq<Id>, start: seq<Id>, i: nat)
    requires i < |ts| && ConfirmedUpTo(p, ev, ts, start, i)
    ensures ts[i] in ev.quarantined ==> ConfirmedUpTo(p, ev, ts, start, i + 1)
    ensures ts[i] !in ev.quarantined ==>
              ConfirmedUpTo(p, ev.(quarantined := ev.quarantined + [ts[i]]), ts, start, i + 1)
    ensures ts[i] in AddMissing(start, ts)
  {
    assert ts[i..][1..] == ts[i + 1..] && ts[i..][0] == ts[i];
    AddMissingFacts(ev.quarantined, ts[i..]);
    assert ts[i] in ts[i..];
  }

  /** Adding the next confirmed target does not change where the stage ends up. */
  lemma ConfirmedSettles(p: Params, ev: Event, start: seq<Id>, i: nat)
    requires !ev.policy.Forensic? && Shape(ev) && ev.state.QuarantineApplied?
    requires var ts := ConfirmedList(ev); i < |ts| && ConfirmedUpTo(p, ev, ts, start, i) && ts[i] !in ev.quarantined
    ensures var ev' := ev.(quarantined := ev.quarantined + [ConfirmedList(ev)[i]]);
      Shape(ev') && Settled(p, ev', ev.decisions) == Settled(p, ev, ev.decisions)
    ensures ConfirmedList(ev)[i] in Settled(p, ev, ev.decisions).quarantined
  {
    var ts := ConfirmedList(ev);
    var ev' := ev.(quarantined := ev.quarantined + [ts[i]]);
    ConfirmedNext(p, ev, ts, start, i);
    AddMissingResume(ev.quarantined, ts, i);
    AddMissingResume(ev'.quarantined, ts, i + 1);
    assert ts[i] in ts && ts[i] in ConfirmedTargets(ev.decisions);
    AddMissingFacts(ev.quarantined, ts);
    OpenDecisionsAreOpen(ev.decisions);
    SettleFacts(Ledger(AddMissing(ev.quarantined, ts), ev.unresolved), OpenDecisions(ev.decisions),
                ShouldQuarantineOpen(ev.policy, ev.severity, p.balancedQuarantinesOpen));
  }

  method QuarantineConfirmed(ws: Workspace, p: Params, event: Event, ghost closure: seq<Id>) returns (r: Result<Event>)
    requires Good(ws.db, p, event.key, closure) && Current(ws.db, event)
    requires 5 <= StageIndex(event.state) <= 8
    modifies ws
    ensures Kept(old(ws.db), ws.db, p, event.key, closure)
    ensures r.Ok? ==> Current(ws.db, r.value) && r.value == event.(quarantined := r.value.quarantined)
    ensures r.Ok? && !event.policy.Forensic? ==> ConfirmedDone(r.value)
    ensures r.Ok? ==> r.value.quarantined ==
                      if event.policy.Forensic? then event.quarantined else AddMissing(event.quarantined, ConfirmedList(event))
    ensures r.Ok? ==> Quarantines(old(ws.db), ws.db, event.key, event.quarantined, r.value.quarantined)
    ensures r.Err? ==> r.Crashed()
    ensures ws.db.log == old(ws.db).log && RebuiltSame(old(ws.db), ws.db, event.key)
    ensures ws.Ran(r.Crashed())
  {
    hide Good, Kept, Shape, ConfirmedUpTo, Quarantines;
    var ev, ts := event, ConfirmedList(event);
    ghost var start := ws.db;
    KeptSelf(ws.db, p, ev.key, closure);
    QuarantinesNone(start, ev.key, ev.quarantined);
    ConfirmedBegins(p, ev);
    for i := 0 to |ts|
      invariant Kept(start, ws.db, p, event.key, closure) && ws.db.log == start.log && RebuiltSame(start, ws.db, event.key)
      invariant Current(ws.db, ev) && ev == event.(quarantined := ev.quarantined)
      invariant if ev.policy.Forensic? then ev == event else ConfirmedUpTo(p, ev, ts, event.quarantined, i)
      invariant Quarantines(start, ws.db, event.key, event.quarantined, ev.quarantined)
      invariant ws.Ran(false)
    {
      if !ev.policy.Forensic? {
        ConfirmedNext(p, ev, ts, event.quarantined, i);
      }
      if ts[i] in ev.quarantined {
        continue;
      }
      if ev.policy == Forensic {
        continue;
      }
      ghost var before, was := ws.db, ev.quarantined;
      KeptGood(start, ws.db, p, ev.key, closure);
      var step := QuarantineNext(ws, p, ev, i, event.quarantined, closure);
      KeptTwice(start, before, ws.db, p, event.key, closure);
      ev :- step;
      QuarantinesTwice(start, before, ws.db, event.key, event.quarantined, was, ev.quarantined);
    }
    if !ev.policy.Forensic? {
      ConfirmedEnds(p, ev, ts, event.quarantined);
    }
    return Ok(ev);
  }

  lemma ConfirmedBegins(p: Params, ev: Event)
    ensures ConfirmedUpTo(p, ev, ConfirmedList(ev), ev.quarantined, 0)
  {
    var ts := ConfirmedList(ev);
    assert ts[0..] == ts;
  }

  lemma ConfirmedEnds(p: Params, ev: Event, ts: seq<Id>, start: seq<Id>)
    requires ts == ConfirmedList(ev) && ConfirmedUpTo(p, ev, ts, start, |ts|)
    ensures ConfirmedDone(ev) && ev.quarantined == AddMissing(start, ts)
  {
    assert ts[|ts|..] == [];
    forall t | t in ConfirmedTargets(ev.decisions) ensures t in ev.quarantined {
      assert t in ts;
      var j :| 0 <= j < |ts| && ts[j] == t;
    }
  }

  /** Past this stage every confirmed target is already quarantined, so the loop
      body only ever runs in the stage itself. */
  lemma OnlyHere(db: Db, p: Params, key: Key, closure: seq<Id>, t: Id)
    requires Good(db, p, key, closure)
    requires var ev := db.events[key];
      5 <= StageIndex(ev.state) <= 8 && t in ConfirmedTargets(ev.decisions) && t !in ev.quarantined
    ensures db.events[key].state.QuarantineApplied?
    ensures Shape(db.events[key]) && db.events[key].rebuilt == []
    ensures t in db.artifacts
  {
    TargetDecided(db.events[key].decisions, t);
  }

  lemma LateTargets(db: Db, p: Params, closure: seq<Id>, ev: Event)
    requires ev.state.QuarantineApplied?
    ensures TargetsOf(db, p, closure, ev) == Settled(p, ev, ev.decisions).quarantined
  {
  }

  lemma OneMore(a: Db, ev: Event, t: Id)
    requires t in a.artifacts
    ensures NewlyQuarantined(a.WithRow(t, ev.key).WithStatus(t, Status.Quarantined), ev,
                             LedgerOf(ev.(quarantined := ev.quarantined + [t])))
  {
  }

  method QuarantineNext(ws: Workspace, p: Params, ev: Event, i: nat, ghost start: seq<Id>, ghost closure: seq<Id>)
    returns (r: Result<Event>)
    requires Good(ws.db, p, ev.key, closure) && Current(ws.db, ev)
    requires 5 <= StageIndex(ev.state) <= 8 && !ev.policy.Forensic?
    requires var ts := ConfirmedList(ev); i < |ts| && ConfirmedUpTo(p, ev, ts, start, i) && ts[i] !in ev.quarantined
    modifies ws
    ensures Kept(old(ws.db), ws.db, p, ev.key, closure)
    ensures ws.db.log == old(ws.db).log && RebuiltSame(old(ws.db), ws.db, ev.key)
    ensures r.Ok? ==> Current(ws.db, r.value) && r.value == ev.(quarantined := ev.quarantined + [ConfirmedList(ev)[i]])
    ensures r.Ok? ==> Quarantines(old(ws.db), ws.db, ev.key, ev.quarantined, r.value.quarantined)
    ensures r.Err? ==> r.Crashed()
    ensures ws.Ran(r.Crashed())
  {
    hide Good, Kept, Shape, ConfirmedUpTo, Quarantines, Settled, TargetsOf, NewlyQuarantined, Quarantining,
      ConfirmedTargets;
    var t := ConfirmedList(ev)[i];
    assert t in ConfirmedList(ev);
    OnlyHere(ws.db, p, ev.key, closure, t);
    ConfirmedSettles(p, ev, start, i);
    LateTargets(ws.db, p, closure, ev);
    ghost var a := ws.db;
    OneMore(a, ev, t);
    var done := QuarantineArtifact(ws, p, ev.key, t, closure);
    QuarantineSnapshot(a, ws.db, ev.key, t);
    var _ :- done;
    QuarantinesOne(a, ev.key, ev.quarantined, t);
    r := SaveLedger(ws, p, ev, ev.(quarantined := ev.quarantined + [t]), a, closure);
  }

  // ----- the loop over unresolved replays

  /** `l` is the ledger the loop over unresolved replays makes of the event's own. */
  predicate SettlesAs(p: Params, ev: Event, l: Ledger) {
    OpenDecisionsAreOpen(ev.decisions);
    l == Settle(LedgerOf(ev), OpenDecisions(ev.decisions),
                ShouldQuarantineOpen(ev.policy, ev.severity, p.balancedQuarantinesOpen))
  }

  ghost predicate OpenUpTo(p: Params, ev: Event, start: Ledger, b: bool, i: nat)
    requires i <= |OpenDecisions(ev.decisions)|
  {
    OpenDecisionsAreOpen(ev.decisions);
    var ds := OpenDecisions(ev.decisions);
    && (forall j :: 0 <= j < i ==> Covered(LedgerOf(ev), ds[j].target))
    && Settle(LedgerOf(ev), ds[i..], b) == Settle(start, ds, b)
  }

  function OpenAt(ev: Event, i: nat): (d: Decision)
    requires i < |OpenDecisions(ev.decisions)|
    ensures IsOpen(d)
  {
    OpenDecisionsAreOpen(ev.decisions);
    assert OpenDecisions(ev.decisions)[i] in OpenDecisions(ev.decisions);
    OpenDecisions(ev.decisions)[i]
  }

  function OpenStep(ev: Event, i: nat, b: bool): Event
    requires i < |OpenDecisions(ev.decisions)|
  {
    var d := OpenAt(ev, i);
    if b then ev.(quarantined := ev.quarantined + [d.target])
    else ev.(unresolved := ev.unresolved + [AsOpen(d)])
  }

  lemma OpenNext(p: Params, ev: Event, start: Ledger, b: bool, i: nat)
    requires i < |OpenDecisions(ev.decisions)| && OpenUpTo(p, ev, start, b, i)
    ensures var t := OpenDecisions(ev.decisions)[i].target;
      if Covered(LedgerOf(ev), t) then OpenUpTo(p, ev, start, b, i + 1)
      else OpenUpTo(p, OpenStep(ev, i, b), start, b, i + 1)
  {
    OpenDecisionsAreOpen(ev.decisions);
    var ds := OpenDecisions(ev.decisions);
    assert ds[i..][1..] == ds[i + 1..] && ds[i..][0] == ds[i];
    if !Covered(LedgerOf(ev), ds[i].target) {
      var ev' := OpenStep(ev, i, b);
      CoveredGrows(ev, i, b);
      assert Settle(LedgerOf(ev), ds[i..], b) == Settle(LedgerOf(ev'), ds[i + 1..], b);
    }
  }

  lemma CoveredGrows(ev: Event, i: nat, b: bool)
    requires i < |OpenDecisions(ev.decisions)|
    ensures forall t :: Covered(LedgerOf(ev), t) ==> Covered(LedgerOf(OpenStep(ev, i, b)), t)
    ensures Covered(LedgerOf(OpenStep(ev, i, b)), OpenDecisions(ev.decisions)[i].target)
  {
    var d := OpenAt(ev, i);
    var ev' := OpenStep(ev, i, b);
    if !b {
      assert AsOpen(d) in ev'.unresolved;
      forall t | t in OpenTargets(ev.unresolved) ensures t in OpenTargets(ev'.unresolved) {
        var u :| u in ev.unresolved && u.target == t;
        assert u in ev'.unresolved;
      }
    }
  }

  lemma OpenSettles(p: Params, ev: Event, start: Ledger, i: nat)
    requires Shape(ev) && ev.state.QuarantineApplied?
    requires !ev.policy.Forensic? ==> ConfirmedDone(ev)
    requires i < |OpenDecisions(ev.decisions)|
    requires var b := ShouldQuarantineOpen(ev.policy, ev.severity, p.balancedQuarantinesOpen);
      && OpenUpTo(p, ev, start, b, i)
      && !Covered(LedgerOf(ev), OpenDecisions(ev.decisions)[i].target)
    ensures var ev' := OpenStep(ev, i, ShouldQuarantineOpen(ev.policy, ev.severity, p.balancedQuarantinesOpen));
      Shape(ev') && Settled(p, ev', ev.decisions) == Settled(p, ev, ev.decisions)
    ensures ShouldQuarantineOpen(ev.policy, ev.severity, p.balancedQuarantinesOpen) ==>
              OpenDecisions(ev.decisions)[i].target in Settled(p, ev, ev.decisions).quarantined
  {
    var b := ShouldQuarantineOpen(ev.policy, ev.severity, p.balancedQuarantinesOpen);
    var ds, ts := OpenDecisions(ev.decisions), ConfirmedList(ev);
    OpenDecisionsAreOpen(ev.decisions);
    var ev' := OpenStep(ev, i, b);
    if !ev.policy.Forensic? {
      forall j | 0 <= j < |ts| ensures ts[j] in ev.quarantined && ts[j] in ev'.quarantined {
        assert ts[j] in ts;
      }
      AddMissingResume(ev.quarantined, ts, |ts|);
      AddMissingResume(ev'.quarantined, ts, |ts|);
    }
    OpenNext(p, ev, start, b, i);
    SettleResume(LedgerOf(ev), ds, b, i);
    SettleResume(LedgerOf(ev'), ds, b, i + 1);
    SettleFacts(LedgerOf(ev'), ds, b);
    OpenStepShape(ev, i, b);
  }

  lemma OpenStepShape(ev: Event, i: nat, b: bool)
    requires Shape(ev) && ev.state.QuarantineApplied?
    requires !ev.policy.Forensic? ==> ConfirmedDone(ev)
    requires ev.policy.Forensic? ==> !b
    requires i < |OpenDecisions(ev.decisions)|
    requires !Covered(LedgerOf(ev), OpenDecisions(ev.decisions)[i].target)
    ensures Shape(OpenStep(ev, i, b))
  {
    var d := OpenAt(ev, i);
    var ev' := OpenStep(ev, i, b);
    if !b {
      forall t | t in ev.quarantined ensures t !in OpenTargets(ev'.unresolved) {
        assert forall u :: u in ev'.unresolved <==> u in ev.unresolved || u == AsOpen(d);
      }
    }
  }

  lemma OnlyHereOpen(db: Db, p: Params, key: Key, closure: seq<Id>, i: nat)
    requires Good(db, p, key, closure)
    requires var ev := db.events[key];
      && 5 <= StageIndex(ev.state) <= 8 && i < |OpenDecisions(ev.decisions)|
      && !Covered(LedgerOf(ev), OpenAt(ev, i).target)
    ensures db.events[key].state.QuarantineApplied? && Shape(db.events[key]) && db.events[key].rebuilt == []
    ensures OpenAt(db.events[key], i).target in db.artifacts
  {
    var ev := db.events[key];
    OpenDecisionsAreOpen(ev.decisions);
    assert OpenAt(ev, i) in OpenDecisions(ev.decisions);
    assert OpenAt(ev, i) in Decisions(db, p, closure, ev);
  }

  lemma OpenIsTarget(db: Db, p: Params, ev: Event, closure: seq<Id>, t: Id)
    requires ev.state.QuarantineApplied? && t in Settled(p, ev, ev.decisions).quarantined
    ensures t in TargetsOf(db, p, closure, ev)
  {
    hide Settled;
  }

  method SettleNext(ws: Workspace, p: Params, ev: Event, i: nat, ghost start: Ledger, ghost closure: seq<Id>)
    returns (r: Result<Event>)
    requires Good(ws.db, p, ev.key, closure) && Current(ws.db, ev) && 5 <= StageIndex(ev.state) <= 8
    requires !ev.policy.Forensic? ==> ConfirmedDone(ev)
    requires i < |OpenDecisions(ev.decisions)| && !Covered(LedgerOf(ev), OpenAt(ev, i).target)
    requires OpenUpTo(p, ev, start, ShouldQuarantineOpen(ev.policy, ev.severity, p.balancedQuarantinesOpen), i)
    modifies ws
    ensures Kept(old(ws.db), ws.db, p, ev.key, closure)
    ensures ws.db.log == old(ws.db).log && RebuiltSame(old(ws.db), ws.db, ev.key)
    ensures r.Ok? ==> Current(ws.db, r.value)
    ensures r.Ok? ==> r.value == OpenStep(ev, i, ShouldQuarantineOpen(ev.policy, ev.severity, p.balancedQuarantinesOpen))
    ensures r.Ok? ==> Quarantines(old(ws.db), ws.db, ev.key, ev.quarantined, r.value.quarantined)
    ensures r.Err? ==> r.Crashed()
    ensures ws.Ran(r.Crashed())
  {
    hide Good, Kept, Shape, OpenUpTo, Covered, ConfirmedDone, Quarantines, ShouldQuarantineOpen, TargetsOf, Settled, Settle,
      OpenDecisions;
    var d := OpenAt(ev, i);
    QuarantinesNone(ws.db, ev.key, ev.quarantined);
    OnlyHereOpen(ws.db, p, ev.key, closure, i);
    OpenSettles(p, ev, start, i);
    ghost var a := ws.db;
    KeptSelf(a, p, ev.key, closure);
    var ev';
    if ev.policy != Forensic && ShouldQuarantineOpen(ev.policy, ev.severity, p.balancedQuarantinesOpen) {
      NotCovered(LedgerOf(ev), d.target);
      OpenIsTarget(a, p, ev, closure, d.target);
      var done := QuarantineArtifact(ws, p, ev.key, d.target, closure);
      QuarantineSnapshot(a, ws.db, ev.key, d.target);
      var _ :- done;
      QuarantinesOne(a, ev.key, ev.quarantined, d.target);
      ev' := ev.(quarantined := ev.quarantined + [d.target]);
    } else {
      ev' := ev.(unresolved := ev.unresolved + [AsOpen(d)]);
    }
    r := SaveLedger(ws, p, ev, ev', a, closure);
  }

  lemma NotCovered(l: Ledger, t: Id)
    ensures Covered(l, t) <==> t in l.quarantined || t in OpenTargets(l.unresolved)
  {
  }

  lemma OpenBegins(p: Params, ev: Event, b: bool)
    ensures OpenUpTo(p, ev, LedgerOf(ev), b, 0)
  {
    var ds := OpenDecisions(ev.decisions);
    assert ds[0..] == ds;
  }

  lemma OpenEnds(p: Params, ev: Event, start: Ledger, b: bool)
    requires OpenUpTo(p, ev, start, b, |OpenDecisions(ev.decisions)|)
    requires !ev.policy.Forensic? ==> ConfirmedDone(ev)
    ensures StageDone(ev)
    ensures (OpenDecisionsAreOpen(ev.decisions); LedgerOf(ev) == Settle(start, OpenDecisions(ev.decisions), b))
  {
    var ds := OpenDecisions(ev.decisions);
    assert ds[|ds|..] == [];
    forall d | d in ds ensures Covered(LedgerOf(ev), d.target) {
      var j :| 0 <= j < |ds| && ds[j] == d;
    }
  }

  /** The policy decides, by its name, the severity and the setting, what becomes of every
      open replay; the stage reports nothing else. */
  method SettleUnresolved(ws: Workspace, p: Params, event: Event, ghost closure: seq<Id>) returns (r: Result<Event>)
    requires Good(ws.db, p, event.key, closure) && Current(ws.db, event) && 5 <= StageIndex(event.state) <= 8
    requires !event.policy.Forensic? ==> ConfirmedDone(event)
    modifies ws
    ensures Kept(old(ws.db), ws.db, p, event.key, closure)
    ensures ws.db.log == old(ws.db).log && RebuiltSame(old(ws.db), ws.db, event.key)
    ensures r.Ok? ==> Current(ws.db, r.value) && StageDone(r.value)
    ensures r.Ok? ==> r.value == event.(quarantined := r.value.quarantined, unresolved := r.value.unresolved)
    ensures r.Ok? ==> SettlesAs(p, event, LedgerOf(r.value))
    ensures r.Ok? ==> FollowsPolicy(event.policy, event.severity, p.balancedQuarantinesOpen, event.decisions,
                                    LedgerOf(event), LedgerOf(r.value))
    ensures r.Ok? ==> forall u :: u in r.value.unresolved ==> u in event.unresolved || u.reason.ReplayOpen?
    ensures r.Ok? ==> Quarantines(old(ws.db), ws.db, event.key, event.quarantined, r.value.quarantined)
    ensures r.Err? ==> r.Crashed()
    ensures ws.Ran(r.Crashed())
  {
    hide Good, Kept, Shape, OpenUpTo, ConfirmedDone, Covered, OpenStep, Quarantines, FollowsPolicy;
    QuarantinesNone(ws.db, event.key, event.quarantined);
    var ev := event;
    var b := ShouldQuarantineOpen(ev.policy, ev.severity, p.balancedQuarantinesOpen);
    ghost var start := ws.db;
    KeptSelf(ws.db, p, ev.key, closure);
    OpenBegins(p, ev, b);
    for i := 0 to |OpenDecisions(event.decisions)|
      invariant Kept(start, ws.db, p, event.key, closure) && ws.db.log == start.log && RebuiltSame(start, ws.db, event.key)
      invariant Current(ws.db, ev) && ev == event.(quarantined := ev.quarantined, unresolved := ev.unresolved)
      invariant !ev.policy.Forensic? ==> ConfirmedDone(ev)
      invariant OpenUpTo(p, ev, LedgerOf(event), b, i)
      invariant Quarantines(start, ws.db, event.key, event.quarantined, ev.quarantined)
      invariant ws.Ran(false)
    {
      OpenNext(p, ev, LedgerOf(event), b, i);
      var t := OpenAt(ev, i).target;
      NotCovered(LedgerOf(ev), t);
      if t in ev.quarantined || t in OpenTargets(ev.unresolved) {
        continue;
      }
      ghost var before, was := ws.db, ev.quarantined;
      KeptGood(start, ws.db, p, ev.key, closure);
      OpenStepKeeps(ev, i, b);
      var step := SettleNext(ws, p, ev, i, LedgerOf(event), closure);
      KeptTwice(start, before, ws.db, p, event.key, closure);
      ev :- step;
      QuarantinesTwice(start, before, ws.db, event.key, event.quarantined, was, ev.quarantined);
    }
    OpenEnds(p, ev, LedgerOf(event), b);
    SettledHere(p, event, LedgerOf(ev));
    return Ok(ev);
  }

  lemma SettledHere(p: Params, ev: Event, l: Ledger)
    requires SettlesAs(p, ev, l) && (!ev.policy.Forensic? ==> ConfirmedDone(ev))
    ensures FollowsPolicy(ev.policy, ev.severity, p.balancedQuarantinesOpen, ev.decisions, LedgerOf(ev), l)
    ensures forall u :: u in l.unresolved ==> u in ev.unresolved || u.reason.ReplayOpen?
  {
    hide FollowsPolicy, Settle, ShouldQuarantineOpen;
    SettleFollows(ev.policy, ev.severity, p.balancedQuarantinesOpen, ev.decisions, LedgerOf(ev));
  }

  lemma OpenStepKeeps(ev: Event, i: nat, b: bool)
    requires i < |OpenDecisions(ev.decisions)|
    ensures var ev' := OpenStep(ev, i, b); ev' == ev.(quarantined := ev'.quarantined, unresolved := ev'.unresolved)
    ensures ConfirmedDone(ev) ==> ConfirmedDone(OpenStep(ev, i, b))
  {
  }
}
