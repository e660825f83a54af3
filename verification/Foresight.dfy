/** What one undisturbed call comes to, as a function of the store and the persisted
    event. Nothing here commits anything: this is the answer the pipeline is measured
    against, from whatever point it starts. */
module Foresight {
  import opened Domain
  import opened Seqs
  import opened StateMachine
  import opened Store
  import opened Planner
  import opened RevocationSpec
  import opened HiddenEvidence
  import opened Attempts

  // ----- the store when rebuild begins

  predicate Joins(id: Id, was: seq<Id>, now: seq<Id>) {
    id in now && id !in was
  }

  /** Every target that joined the list has been quarantined for event `key`. */
  function QuarantinedOn(db: Db, key: Key, was: seq<Id>, now: seq<Id>): Db {
    db.(artifacts := map id | id in db.artifacts ::
          if Joins(id, was, now) then db.artifacts[id].(status := Status.Quarantined) else db.artifacts[id],
        quarantine := map id | id in db.quarantine.Keys + Elements(now) && (id in db.quarantine || Joins(id, was, now)) ::
          if Joins(id, was, now) then Row(key, true) else db.quarantine[id])
  }

  /** The targets a run ends up quarantining. */
  function TargetsOf(db: Db, p: Params, closure: seq<Id>, ev: Event): seq<Id> {
    Settled(p, ev, Decisions(db, p, closure, ev)).quarantined
  }

  /** The evidence the planner will read: recovery first takes back every pair it finds,
      and the replays still to be made then write theirs. */
  function Heard(db: Db, p: Params, closure: seq<Id>, ev: Event): HiddenEdges {
    var h := Swept(db, p, closure);
    if BeforeQuarantine(ev.state)
    then AfterDecisions(h, Decisions(db, p, closure, ev)[|ev.decisions|..])
    else h
  }

  /** The store on which the first target is attempted. */
  function Start(db: Db, p: Params, closure: seq<Id>, ev: Event): Db {
    QuarantinedOn(db, ev.key, ev.quarantined, TargetsOf(db, p, closure, ev)).(hidden := Heard(db, p, closure, ev))
  }

  /** The rebuild loop up to its `i`-th target. */
  function WalkTo(db: Db, p: Params, closure: seq<Id>, ev: Event, i: nat): Walk
    requires i <= |TargetsOf(db, p, closure, ev)|
  {
    AttemptAll(Walk(Start(db, p, closure, ev), Progress(ev.rebuilt, Settled(p, ev, Decisions(db, p, closure, ev)).unresolved)),
               p, ev.key, TargetsOf(db, p, closure, ev)[..i])
  }

  // ----- the whole call

  /** What one uninterrupted call returns for a persisted event. */
  function Outcome(db: Db, p: Params, closure: seq<Id>, ev: Event): Summary {
    if Terminal(ev.state) then SummaryOf(ev)
    else
      var ds := Decisions(db, p, closure, ev);
      var l := Settled(p, ev, ds);
      var g := if Rebuilds(p, ev.policy)
               then WalkTo(db, p, closure, ev, |l.quarantined|).done
               else Progress(ev.rebuilt, l.unresolved);
      Summary(ds, l.quarantined, g.rebuilt, g.unresolved, FinalState(g.unresolved))
  }

  /** The part of the outcome no rebuild has a say in: what replay decides and what
      is quarantined for it. */
  function Findings(db: Db, p: Params, closure: seq<Id>, ev: Event): (seq<Decision>, seq<Id>) {
    if Terminal(ev.state) then (ev.decisions, ev.quarantined)
    else (Decisions(db, p, closure, ev), TargetsOf(db, p, closure, ev))
  }

  lemma WalkNext(db: Db, p: Params, closure: seq<Id>, ev: Event, i: nat)
    requires i < |TargetsOf(db, p, closure, ev)|
    ensures WalkTo(db, p, closure, ev, i + 1) ==
            AttemptNext(WalkTo(db, p, closure, ev, i), p, ev.key, TargetsOf(db, p, closure, ev)[i])
  {
    hide TargetsOf, Start, Settled, Decisions, AttemptAll, AttemptNext;
    AttemptAllNext(Walk(Start(db, p, closure, ev), Progress(ev.rebuilt, Settled(p, ev, Decisions(db, p, closure, ev)).unresolved)),
                   p, ev.key, TargetsOf(db, p, closure, ev), i);
  }
}
