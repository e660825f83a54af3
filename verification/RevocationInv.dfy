/** What a store must be like for the pipeline to accept a persisted event, when a
    stage of it has nothing more to do, and what may differ between two points of a run. */
module RevocationInv {
  import opened Domain
  import opened Seqs
  import opened StateMachine
  import opened Store
  import opened Planner
  import opened RevocationSpec
  import opened RevocationLaws

  // ----- structure of the database and the persisted event

  ghost predicate ConfirmedDone(ev: Event) {
    forall t :: t in ConfirmedTargets(ev.decisions) ==> t in ev.quarantined
  }

  ghost predicate QuarantineDone(ev: Event) {
    && ConfirmedDone(ev)
    && (forall d :: d in OpenDecisions(ev.decisions) ==> Covered(Ledger(ev.quarantined, ev.unresolved), d.target))
  }

  ghost predicate Shape(ev: Event) {
    && (BeforeQuarantine(ev.state) ==> ev.quarantined == [] && ev.unresolved == [])
    && (StageIndex(ev.state) <= 5 ==> ev.rebuilt == [] && Apart(Ledger(ev.quarantined, ev.unresolved)))
    && (ev.state.QuarantineApplied? && ev.unresolved != [] && !ev.policy.Forensic? ==> ConfirmedDone(ev))
    && Distinct(ev.quarantined)
    && (ev.policy.Forensic? ==> ev.quarantined == [])
    && Tidy(Progress(ev.rebuilt, ev.unresolved), ev.quarantined)
    && (6 <= StageIndex(ev.state) <= 8 ==> QuarantineDone(ev) && !ev.policy.Forensic? && ev.quarantined != [])
  }

  ghost predicate Scannable(db: Db, p: Params, ev: Event, closure: seq<Id>) {
    BeforeQuarantine(ev.state) ==> IsClosure(db, ev.roots, closure) && PairsDistinct(Hidden(db, p, closure))
  }

  ghost predicate TargetsExist(db: Db, p: Params, ev: Event, closure: seq<Id>) {
    && (forall d :: d in Decisions(db, p, closure, ev) ==> d.target in db.artifacts)
    && (forall t :: t in ev.quarantined ==> t in db.artifacts)
  }

  ghost predicate Good(db: Db, p: Params, key: Key, closure: seq<Id>) {
    && Tables(db)
    && key in db.events
    && db.events[key].key == key
    && Shape(db.events[key])
    && Climbs(db.LogOf(key), db.events[key].state)
    && Scannable(db, p, db.events[key], closure)
    && TargetsExist(db, p, db.events[key], closure)
  }

  // ----- finished stages

  function ProgressOf(ev: Event): Progress {
    Progress(ev.rebuilt, ev.unresolved)
  }

  function ConfirmedList(ev: Event): seq<Id> {
    SortUnique(ConfirmedTargets(ev.decisions))
  }

  ghost predicate StageDone(ev: Event) {
    && (!ev.policy.Forensic? ==> ConfirmedDone(ev))
    && forall d :: d in OpenDecisions(ev.decisions) ==> Covered(LedgerOf(ev), d.target)
  }

  lemma ConfirmedMember(ev: Event, t: Id)
    requires ConfirmedDone(ev) && t in ConfirmedTargets(ev.decisions)
    ensures t in ev.quarantined
  {
  }

  /** Once the quarantine stage is done, re-running it changes nothing. */
  lemma StageDoneSettles(p: Params, ev: Event)
    requires StageDone(ev)
    ensures Settled(p, ev, ev.decisions) == LedgerOf(ev)
  {
    OpenDecisionsAreOpen(ev.decisions);
    var ts, ds := ConfirmedList(ev), OpenDecisions(ev.decisions);
    if !ev.policy.Forensic? {
      forall j | 0 <= j < |ts| ensures ts[j] in ev.quarantined {
        assert ts[j] in ts;
        ConfirmedMember(ev, ts[j]);
      }
      AddMissingResume(ev.quarantined, ts, |ts|);
    }
    SettleResume(LedgerOf(ev), ds, ShouldQuarantineOpen(ev.policy, ev.severity, p.balancedQuarantinesOpen), |ds|);
  }

  lemma LateStageDone(ev: Event)
    requires Shape(ev) && 6 <= StageIndex(ev.state) <= 8
    ensures StageDone(ev)
  {
  }

  ghost predicate AllDone(ev: Event) {
    forall t :: t in ev.quarantined ==> Done(ProgressOf(ev), t)
  }

  /** How far the rebuild loop has got: the place of the first target not dealt with. */
  function Pending(g: Progress, q: seq<Id>): (i: nat)
    ensures i <= |q|
    ensures forall j :: 0 <= j < i ==> Done(g, q[j])
    ensures i < |q| ==> !Done(g, q[i])
  {
    if q == [] || !Done(g, q[0]) then 0 else 1 + Pending(g, q[1..])
  }

  lemma PendingIs(g: Progress, q: seq<Id>, i: nat)
    requires i <= |q| && (i < |q| ==> !Done(g, q[i]))
    requires forall j :: 0 <= j < i ==> Done(g, q[j])
    ensures Pending(g, q) == i
  {
    var k := Pending(g, q);
  }

  /** The quarantine stage leaves every target on one of the two lists only, each
      quarantined one once, and none in a forensic run. */
  lemma SettledApart(p: Params, ev: Event, ds: seq<Decision>)
    requires Shape(ev) && Running(ev.state)
    requires !BeforeQuarantine(ev.state) ==> ds == ev.decisions
    ensures var l := Settled(p, ev, ds);
      && Distinct(l.quarantined)
      && (ev.policy.Forensic? ==> l.quarantined == [])
      && (StageIndex(ev.state) > 5 ==> l == LedgerOf(ev))
      && (StageIndex(ev.state) <= 5 ==> Apart(l))
      && (forall t :: t in l.quarantined ==> t in ev.quarantined || exists d :: d in ds && d.target == t)
      && (forall t :: t in ev.quarantined ==> t in l.quarantined)
  {
    OpenDecisionsAreOpen(ds);
    if StageIndex(ev.state) > 5 {
      StageDoneSettles(p, ev);
    } else {
      var ts := SortUnique(ConfirmedTargets(ds));
      AddMissingFacts(ev.quarantined, ts);
      if !ev.policy.Forensic? && ev.unresolved != [] {
        forall j | 0 <= j < |ts| ensures ts[j] in ev.quarantined {
          assert ts[j] in ts;
          ConfirmedMember(ev, ts[j]);
        }
        AddMissingResume(ev.quarantined, ts, |ts|);
      }
      var q := if ev.policy.Forensic? then ev.quarantined else AddMissing(ev.quarantined, ts);
      SettleFacts(Ledger(q, ev.unresolved), OpenDecisions(ds),
                  ShouldQuarantineOpen(ev.policy, ev.severity, p.balancedQuarantinesOpen));
      forall t | t in ts ensures exists d :: d in ds && d.target == t {
        TargetDecided(ds, t);
      }
    }
  }

  lemma {:induction false} TargetDecided(ds: seq<Decision>, t: Id)
    requires t in ConfirmedTargets(ds)
    ensures exists d :: d in ds && d.target == t
  {
    if !(IsConfirmed(ds[0]) && ds[0].target == t) {
      TargetDecided(ds[1..], t);
      var d :| d in ds[1..] && d.target == t;
      assert d in ds;
    } else {
      assert ds[0] in ds;
    }
  }

  // ----- where a call can go

  /** A run that has been through planning or rebuilding can only end through
      verification. */
  predicate Unfinishable(s: State) {
    s in {RebuildPlanning, State.Rebuilding}
  }

  /** The states a call with these parameters cannot leave. */
  predicate Stuck(p: Params, s: State) {
    !Terminal(s) && (!Running(s) || (Unfinishable(s) && !p.attemptRebuild))
  }

  // ----- the relation between two points of a run

  ghost predicate ServingSame(a: Db, b: Db) {
    a.artifacts == b.artifacts && a.quarantine == b.quarantine
  }

  predicate SameRequest(a: Event, b: Event) {
    a.key == b.key && a.roots == b.roots && a.policy == b.policy && a.severity == b.severity
  }

  /** Log rows are only ever appended. */
  ghost predicate LogExtends(a: seq<Step>, b: seq<Step>) {
    |a| <= |b| && forall i :: 0 <= i < |a| ==> b[i] == a[i]
  }

  ghost predicate OthersKept(a: Db, b: Db, key: Key) {
    forall k :: k != key ==>
      (k in a.events <==> k in b.events) && (k in a.events ==> a.events[k] == b.events[k]) && a.LogOf(k) == b.LogOf(k)
  }

  /** No target has been rebuilt in between. */
  ghost predicate RebuiltSame(a: Db, b: Db, key: Key) {
    key in a.events && key in b.events && a.events[key].rebuilt == b.events[key].rebuilt
  }

  /** Every quarantined target is accounted for exactly once, and the final state
      says whether anything was left open. */
  ghost predicate Accounted(p: Params, ev: Event) {
    && Distinct(ev.quarantined)
    && Tidy(Progress(ev.rebuilt, ev.unresolved), ev.quarantined)
    && (Rebuilds(p, ev.policy) ==>
          forall t :: t in ev.quarantined ==> (t in Originals(ev.rebuilt) <==> t !in OpenTargets(ev.unresolved)))
    && (ev.policy.Forensic? ==> ev.quarantined == [] && ev.rebuilt == [])
    && ev.state == FinalState(ev.unresolved)
  }

  /** A finished event never changes again, and finishes accounted for. */
  ghost predicate Ends(p: Params, a: Event, b: Event) {
    && (Terminal(a.state) ==> b == a)
    && (Terminal(b.state) && !Terminal(a.state) ==> Accounted(p, b))
  }
}
