/** The undisturbed run from a fresh event, and what it means for a store some dying
    processes have left to be still on the way to the same end. */
module Track {
  import opened Domain
  import opened Seqs
  import opened StateMachine
  import opened Store
  import opened Planner
  import opened RevocationSpec
  import opened RevocationLaws
  import opened HiddenEvidence
  import opened Attempts
  import opened Frames
  import opened Foresight
  import opened RevocationInv

  /** A store with an event just requested, and the undisturbed run from there. */
  datatype Origin = Origin(db: Db, p: Params, closure: seq<Id>, ev: Event) {
    ghost predicate Fresh() {
      && Good(db, p, ev.key, closure) && db.events[ev.key] == ev
      && ev.state == CandidateRecovery && ev.decisions == []
    }

    function Verdicts(): seq<Decision> {
      Decisions(db, p, closure, ev)
    }

    function Settlement(): Ledger {
      Settled(p, ev, Verdicts())
    }

    function Queue(): seq<Id> {
      TargetsOf(db, p, closure, ev)
    }

    /** The store on which its first target is attempted. */
    function Base(): Db {
      Start(db, p, closure, ev)
    }

    /** The store and the progress when its `i`-th target is attempted. */
    function At(i: nat): Walk
      requires i <= |Queue()|
    {
      WalkTo(db, p, closure, ev, i)
    }

    function End(): Summary {
      Outcome(db, p, closure, ev)
    }

    /** A recovery pass at this snapshot takes the pair back. */
    ghost predicate Shakes(snap: Snapshot, e: (Id, Id)) {
      Finds(snap, p, ev.roots, e)
    }

    /** The run goes through this snapshot while it deals with its `i`-th target. */
    ghost predicate Passes(i: nat, snap: Snapshot)
      requires i < |Queue()|
    {
      var b, t := At(i).db, Queue()[i];
      || snap == SnapshotOf(b)
      || (!AttemptOn(b, p, t).Unavailable? && exists k :: CutOf(b, p, t, snap, k))
    }

    /** Evidence the planner of target `i` goes by, and no pass at any snapshot up to
        then would take back. */
    ghost predicate Lasting(i: nat, e: (Id, Id))
      requires i < |Queue()|
    {
      && Confirms(Base().hidden, e)
      && forall j: nat, snap :: j <= i && Passes(j, snap) ==> !Shakes(snap, e)
    }

    /** The exclusion of support `s` from the plan of target `i` does not depend on
        evidence a repeated pass could take back. */
    ghost predicate Holds(i: nat, s: Id)
      requires i < |Queue()|
    {
      exists e: (Id, Id) :: e.1 == s && Lasting(i, e)
    }

    /** Every support a plan of the undisturbed run excludes for its evidence would stay
        excluded however often recovery is run again on the way there, plans without a
        recipe aside. */
    ghost predicate Firm() {
      Rebuilds(p, ev.policy) ==>
        forall i: nat, s :: i < |Queue()| && ExcludedAt(i, s) ==> Holds(i, s)
    }

    ghost predicate ExcludedAt(i: nat, s: Id)
      requires i < |Queue()|
    {
      var b, t := At(i).db, Queue()[i];
      && t in b.derivations && Runnable(p, b.derivations[t])
      && s in Pool(b.derivations[t]) && Screen(b, p.now, s) == Contaminated
    }
  }

  /** There is a recipe for it, whatever supports are clean. */
  ghost predicate Runnable(p: Params, d: Derivation) {
    exists clean :: (p.recipe)(d, clean).Some?
  }

  ghost predicate CutOf(b: Db, p: Params, t: Id, snap: Snapshot, k: nat)
    requires !AttemptOn(b, p, t).Unavailable?
  {
    var n, clean := SuccessorOf(b, p, t), CleanOf(b, p, t);
    k <= |Links(t, n, clean)| + 2 && snap == Cut(SnapshotOf(b), n, Heir(b, t, clean), Links(t, n, clean), k)
  }

  // ----- facts about the undisturbed run

  lemma OriginFacts(o: Origin)
    requires o.Fresh()
    ensures Apart(o.Settlement()) && Distinct(o.Queue()) && o.Queue() == o.Settlement().quarantined
    ensures o.ev.quarantined == [] && o.ev.unresolved == [] && o.ev.rebuilt == []
    ensures forall t :: t in o.Queue() ==> t in o.db.artifacts
    ensures o.ev.policy.Forensic? ==> o.Queue() == []
  {
    SettledApart(o.p, o.ev, o.Verdicts());
  }

  lemma {:induction false} UndecidedAll(cs: seq<Candidate>)
    ensures Undecided(cs, {}) == cs
  {
    if cs != [] {
      UndecidedAll(cs[1..]);
    }
  }

  lemma {:induction false} DecideAllAt(derivations: map<Id, Derivation>, p: Params, selected: set<(Id, Id)>,
                                       cs: seq<Candidate>, i: nat)
    requires i < |cs|
    ensures |DecideAll(derivations, p, selected, cs)| == |cs|
    ensures DecideAll(derivations, p, selected, cs)[i] == Decide(derivations, p, selected, cs[i])
  {
    if i > 0 {
      DecideAllAt(derivations, p, selected, cs[1..], i - 1);
    } else if |cs| > 1 {
      DecideAllAt(derivations, p, selected, cs[1..], 0);
    }
  }

  lemma VerdictsAre(o: Origin, i: nat)
    requires o.Fresh()
    ensures var cs := Hidden(o.db, o.p, o.closure);
      && (i < |cs| ==> |o.Verdicts()| == |cs| && o.Verdicts()[i] == Decide(o.db.derivations, o.p, (o.p.select)(cs), cs[i]))
      && (cs == [] ==> o.Verdicts() == [])
  {
    var cs := Hidden(o.db, o.p, o.closure);
    assert Decided([]) == {};
    UndecidedAll(cs);
    if i < |cs| {
      DecideAllAt(o.db.derivations, o.p, (o.p.select)(cs), cs, i);
    }
  }

  /** Each pair is decided once, and every decided pair is one recovery finds. */
  lemma VerdictPairs(o: Origin, e: (Id, Id))
    requires o.Fresh()
    ensures DecidedOnce(o.Verdicts())
    ensures e in Decided(o.Verdicts()) ==> o.Shakes(SnapshotOf(o.db), e)
  {
    var cs, ds := Hidden(o.db, o.p, o.closure), o.Verdicts();
    if cs != [] {
      VerdictsAre(o, 0);
      forall i, j | 0 <= i < j < |ds| ensures PairDecided(ds[i]) != PairDecided(ds[j]) {
        VerdictsAre(o, i);
        VerdictsAre(o, j);
        assert PairOf(cs[i]) != PairOf(cs[j]);
      }
    } else {
      VerdictsAre(o, 0);
    }
    if e in Decided(ds) {
      var d :| d in ds && (d.member, d.target) == e;
      var i :| 0 <= i < |ds| && ds[i] == d;
      VerdictsAre(o, i);
      CandidatesFound(o.db, o.p, o.ev.roots, o.closure, cs[i]);
    }
  }

  /** The evidence on which targets are planned: what recovery does not take back, and
      what replay confirms. */
  lemma BaseConfirms(o: Origin, e: (Id, Id))
    requires o.Fresh()
    ensures Confirms(o.Base().hidden, e) <==>
              (Confirms(o.db.hidden, e) && !o.Shakes(SnapshotOf(o.db), e)) || ConfirmedPair(o.Verdicts(), e)
    ensures ConfirmedPair(o.Verdicts(), e) ==> o.Shakes(SnapshotOf(o.db), e)
  {
    hide Confirms, Decisions, Finds;
    var ds := o.Verdicts();
    assert ds[0..] == ds;
    VerdictPairs(o, e);
    SweptConfirms(o.db, o.p, o.ev.roots, o.closure, e);
    DecisionsConfirm(Swept(o.db, o.p, o.closure), ds, e);
    assert ConfirmedPair(ds, e) ==> e in Decided(ds);
  }

  lemma QuarantinedAtBase(db: Db, key: Key, was: seq<Id>, now: seq<Id>, id: Id)
    ensures var b := QuarantinedOn(db, key, was, now);
      && b == db.(artifacts := b.artifacts, quarantine := b.quarantine)
      && (id in b.artifacts <==> id in db.artifacts)
      && (id in db.artifacts ==>
            && b.artifacts[id].supersededBy == db.artifacts[id].supersededBy
            && b.artifacts[id].status == if Joins(id, was, now) then Status.Quarantined else db.artifacts[id].status)
      && (b.RowActive(id) <==> db.RowActive(id) || Joins(id, was, now))
  {
  }

  /** What every store of the undisturbed run has in common. */
  ghost predicate Steady(o: Origin, w: Walk) {
    && Tables(w.db) && w.db.hidden == o.Base().hidden && w.db.waivers == o.db.waivers
    && forall t :: t in o.Queue() ==> t in w.db.artifacts && w.db.artifacts[t].status != Revoked
  }

  lemma BaseFacts(o: Origin)
    requires o.Fresh()
    ensures Steady(o, o.At(0)) && o.At(0).db == o.Base() && o.At(0).done == Progress([], o.Settlement().unresolved)
    ensures SnapshotOf(o.Base()) == SnapshotOf(o.db) && o.Base().waivers == o.db.waivers
  {
    hide Heard;
    OriginFacts(o);
    assert o.Queue()[..0] == [];
    forall id {
      QuarantinedAtBase(o.db, o.ev.key, [], o.Queue(), id);
    }
  }

  lemma AttemptedStatus(a: Db, p: Params, key: Key, t: Id, id: Id)
    requires Tables(a) && id in a.artifacts && a.artifacts[id].status != Revoked
    ensures id in Attempted(a, p, key, t).artifacts && Attempted(a, p, key, t).artifacts[id].status != Revoked
  {
    hide PlanFor, AttemptOn, BuiltOn, PublishedOn;
    if !AttemptOn(a, p, t).Unavailable? {
      AttemptedIs(a, p, key, t);
      var n, clean := SuccessorOf(a, p, t), CleanOf(a, p, t);
      var b := BuiltOn(a, key, t, n, clean);
      BuiltHolds(a, key, t, n, clean);
      HousedAt(a, key, n, id);
      assert id in b.artifacts && b.artifacts[id].status != Revoked;
      if AttemptOn(a, p, t).Passes? {
        PublishedStatus(b, t, n, id);
      }
    }
  }

  lemma PublishedStatus(b: Db, t: Id, n: Id, id: Id)
    requires t in b.artifacts && n in b.artifacts && id in b.artifacts && b.artifacts[id].status != Revoked
    ensures id in PublishedOn(b, t, n).artifacts && PublishedOn(b, t, n).artifacts[id].status != Revoked
  {
    hide PublishedOn;
    PublishedIs(b, t, n);
    var c := PublishedOn(b, t, n);
    if id != t && id != n {
      assert SameServing(b.artifacts[id], c.artifacts[id]);
    }
  }

  lemma SteadyNext(o: Origin, w: Walk, t: Id)
    requires o.Fresh() && Steady(o, w)
    ensures Steady(o, AttemptNext(w, o.p, o.ev.key, t))
  {
    hide Attempted, AttemptOn, Tables;
    if !Done(w.done, t) {
      AttemptedRest(w.db, o.p, o.ev.key, t);
      AttemptedTables(w.db, o.p, o.ev.key, t);
      forall s | s in o.Queue()
        ensures s in Attempted(w.db, o.p, o.ev.key, t).artifacts && Attempted(w.db, o.p, o.ev.key, t).artifacts[s].status != Revoked
      {
        AttemptedStatus(w.db, o.p, o.ev.key, t, s);
      }
    }
  }

  lemma AttemptedTables(a: Db, p: Params, key: Key, t: Id)
    requires Tables(a)
    ensures Tables(Attempted(a, p, key, t))
  {
    if !AttemptOn(a, p, t).Unavailable? {
      AttemptedFrame(a, p, key, t);
    }
  }

  lemma {:induction false} AtSteady(o: Origin, i: nat)
    requires o.Fresh() && i <= |o.Queue()|
    ensures Steady(o, o.At(i))
  {
    hide Steady, Good, TargetsOf, Start, AttemptNext, WalkTo;
    if i == 0 {
      BaseFacts(o);
    } else {
      AtSteady(o, i - 1);
      WalkNext(o.db, o.p, o.closure, o.ev, i - 1);
      SteadyNext(o, o.At(i - 1), o.Queue()[i - 1]);
    }
  }

  /** The undisturbed run deals with its targets one after the other, skipping none. */
  lemma AtPending(o: Origin, i: nat)
    requires o.Fresh() && i <= |o.Queue()|
    ensures Pending(o.At(i).done, o.Queue()) == i
    ensures Tidy(o.At(i).done, o.Queue())
    ensures forall t :: t in o.Queue()[..i] ==> Done(o.At(i).done, t)
  {
    hide AttemptAll;
    OriginFacts(o);
    var q, g := o.Queue(), Progress([], o.Settlement().unresolved);
    assert forall t :: t in q[..i] ==> t in q;
    AttemptAllFacts(Walk(o.Base(), g), o.p, o.ev.key, q, q[..i]);
    forall j | 0 <= j < i ensures Done(o.At(i).done, q[j]) {
      assert q[..i][j] == q[j];
    }
    if i < |q| {
      assert q[i] !in q[..i] && q[i] !in OpenTargets(g.unresolved);
    }
    PendingIs(o.At(i).done, q, i);
  }

  lemma AtNext(o: Origin, i: nat)
    requires o.Fresh() && i < |o.Queue()|
    ensures var w, t := o.At(i), o.Queue()[i];
      && !Done(w.done, t)
      && o.At(i + 1) == Walk(Attempted(w.db, o.p, o.ev.key, t), Record(w.done, t, AttemptOn(w.db, o.p, t)))
  {
    hide Attempted, AttemptOn;
    AtPending(o, i);
    WalkNext(o.db, o.p, o.closure, o.ev, i);
  }

  // ----- still on the way

  /** What the quarantine stage may have done to artifact `id` so far: `hit` says it is
      a target of the run, `full` that the event already lists it. */
  ghost predicate EarlyAt(z: Db, x: Db, id: Id, hit: bool, full: bool) {
    && (id in x.artifacts <==> id in z.artifacts)
    && (id in z.artifacts ==>
          && x.artifacts[id].supersededBy == z.artifacts[id].supersededBy
          && (x.artifacts[id].status == z.artifacts[id].status || (hit && x.artifacts[id].status == Status.Quarantined))
          && (full ==> x.artifacts[id].status == Status.Quarantined))
    && (x.RowActive(id) == z.RowActive(id) || (hit && x.RowActive(id)))
    && (full ==> x.RowActive(id))
  }

  /** Before rebuild: what has been decided and quarantined is part of what the run
      decides and quarantines, and no evidence is lost that recovery does not find. */
  ghost predicate Early(o: Origin, x: Db, ev: Event) {
    && SnapshotOf(x) == SnapshotOf(o.db) && x.waivers == o.db.waivers
    && Decisions(x, o.p, o.closure, ev) == o.Verdicts()
    && Settled(o.p, ev, o.Verdicts()) == o.Settlement()
    && ev.rebuilt == []
    && (forall id :: EarlyAt(o.db, x, id, id in o.Queue(), id in ev.quarantined))
    && (forall e :: Confirms(x.hidden, e) ==> Confirms(o.db.hidden, e) || ConfirmedPair(o.Verdicts(), e))
    && (forall e :: Confirms(o.db.hidden, e) && !o.Shakes(SnapshotOf(o.db), e) ==> Confirms(x.hidden, e))
    && (StageIndex(ev.state) >= 3 ==> forall e :: Confirms(x.hidden, e) ==> Confirms(o.Base().hidden, e))
  }

  /** Where an attempt begun on `b` may have got. */
  ghost predicate InAttempt(b: Db, x: Db, p: Params, t: Id) {
    if AttemptOn(b, p, t).Unavailable? then Like(b, x)
    else Framed(b, x, t, SuccessorOf(b, p, t), CleanOf(b, p, t), AttemptOn(b, p, t).Passes?)
  }

  ghost predicate LateAt(o: Origin, x: Db, i: nat)
    requires i <= |o.Queue()|
  {
    i < |o.Queue()| ==>
      && InAttempt(o.At(i).db, x, o.p, o.Queue()[i])
      && forall e :: Lasts(o, i, e) ==> Confirms(x.hidden, e)
  }

  ghost predicate Lasts(o: Origin, i: nat, e: (Id, Id)) {
    i < |o.Queue()| && o.Lasting(i, e)
  }

  /** During rebuild: the targets dealt with so far have ended as in the undisturbed run,
      the one in hand is at most begun, and no lasting evidence is lost. */
  ghost predicate Late(o: Origin, x: Db, ev: Event) {
    && Rebuilds(o.p, ev.policy)
    && ev.decisions == o.Verdicts() && ev.quarantined == o.Queue()
    && ProgressOf(ev) == o.At(Pending(ProgressOf(ev), o.Queue())).done
    && (forall e :: Confirms(x.hidden, e) ==> Confirms(o.Base().hidden, e))
    && LateAt(o, x, Pending(ProgressOf(ev), o.Queue()))
  }

  /** From `x` the run still ends as the undisturbed run from `o` does. */
  ghost predicate OnTrack(o: Origin, x: Db) {
    && o.Fresh() && Addressed(o.p) && o.Firm()
    && o.ev.key in x.events && SameRequest(o.ev, x.events[o.ev.key])
    && var ev := x.events[o.ev.key];
       if Terminal(ev.state) then SummaryOf(ev) == o.End()
       else if StageIndex(ev.state) <= 5 then Early(o, x, ev)
       else Late(o, x, ev)
  }

  /** A fresh event is where its own run begins. */
  lemma OriginOnTrack(o: Origin)
    requires o.Fresh() && Addressed(o.p) && o.Firm()
    ensures OnTrack(o, o.db)
  {
    hide Shape, Scannable, TargetsExist, Decisions, Settled, TargetsOf, Confirms, Finds;
    OriginFacts(o);
    forall id ensures EarlyAt(o.db, o.db, id, id in o.Queue(), id in o.ev.quarantined) {
    }
    assert o.db.events[o.ev.key] == o.ev;
    assert Early(o, o.db, o.ev);
  }
}
