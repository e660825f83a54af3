/** What a death during rebuild can cost: when re-running candidate recovery changes a
    plan, what a run that dies at a given target comes to, and exactly when it comes to
    something else than the undisturbed run. */
module Exposure {
  import opened Domain
  import opened Seqs
  import opened StateMachine
  import opened Store
  import opened Planner
  import opened RevocationSpec
  import opened HiddenEvidence
  import opened Attempts
  import opened Foresight
  import opened RevocationInv
  import opened Track
  import opened TrackSteps
  import opened Publication
  import opened RevocationSteps
  import opened Pipeline
  import opened Revocation

  // ----- plans under re-run recovery

  /** `b` is `a` with evidence that confirms nothing new. */
  ghost predicate Weaker(a: Db, b: Db) {
    && b == a.(hidden := b.hidden)
    && forall e :: Confirms(b.hidden, e) ==> Confirms(a.hidden, e)
  }

  lemma WeakerScreen(a: Db, b: Db, now: int, s: Id)
    requires Weaker(a, b)
    ensures if Screen(a, now, s) == Contaminated && !b.HasConfirmedIn(s) then Screen(b, now, s) == Clean
            else Screen(b, now, s) == Screen(a, now, s)
  {
    ConfirmedInto(a, s);
    ConfirmedInto(b, s);
    assert a.Waived(s, {RebuildSupport}, now) == b.Waived(s, {RebuildSupport}, now);
  }

  /** Weaker evidence leaves a plan alone exactly when every support excluded for its
      evidence keeps a confirmed edge. */
  lemma PlanSameIff(a: Db, b: Db, now: int, t: Id)
    requires Weaker(a, b) && t in a.derivations
    ensures PlanFor(a, now, t) == PlanFor(b, now, t) <==>
              forall s :: s in Pool(a.derivations[t]) && Screen(a, now, s) == Contaminated ==> b.HasConfirmedIn(s)
  {
    hide Screen;
    var pool := Pool(a.derivations[t]);
    forall s ensures if Screen(a, now, s) == Contaminated && !b.HasConfirmedIn(s) then Screen(b, now, s) == Clean
                     else Screen(b, now, s) == Screen(a, now, s) {
      WeakerScreen(a, b, now, s);
    }
    var f, g := (s: Id) => Screen(a, now, s), (s: Id) => Screen(b, now, s);
    if forall s :: s in pool && Screen(a, now, s) == Contaminated ==> b.HasConfirmedIn(s) {
      SplitCongruent(pool, f, g);
    } else {
      var s :| s in pool && Screen(a, now, s) == Contaminated && !b.HasConfirmedIn(s);
      assert g(s) == Clean && f(s) == Contaminated;
      assert s in Keep(pool, g) && s !in Keep(pool, f);
    }
  }

  /** The store a resumed call works on once it has re-run recovery. */
  function Rescanned(db: Db, p: Params, closure: seq<Id>): Db {
    db.(hidden := Swept(db, p, closure))
  }

  /** A confirmed edge into `s` that a pass over the store as it is does not find. */
  ghost predicate Stays(db: Db, p: Params, roots: seq<Id>, s: Id) {
    exists e: (Id, Id) :: e.1 == s && Confirms(db.hidden, e) && !Finds(SnapshotOf(db), p, roots, e)
  }

  lemma RescannedConfirms(db: Db, p: Params, roots: seq<Id>, c: seq<Id>, s: Id)
    requires IsClosure(db, roots, c)
    ensures Weaker(db, Rescanned(db, p, c))
    ensures Rescanned(db, p, c).HasConfirmedIn(s) <==> Stays(db, p, roots, s)
  {
    hide Confirms, Finds, IsClosure, Swept;
    forall e ensures Confirms(Rescanned(db, p, c).hidden, e) <==> Confirms(db.hidden, e) && !Finds(SnapshotOf(db), p, roots, e) {
      SweptConfirms(db, p, roots, c, e);
    }
    ConfirmedInto(Rescanned(db, p, c), s);
  }

  /** A resumed call plans as the interrupted one would have exactly when every support
      excluded for its evidence has a confirmed edge the re-run recovery does not find. */
  lemma ResumedPlanIff(db: Db, p: Params, roots: seq<Id>, c: seq<Id>, t: Id)
    requires IsClosure(db, roots, c) && t in db.derivations
    ensures PlanFor(Rescanned(db, p, c), p.now, t) == PlanFor(db, p.now, t) <==>
              forall s :: s in Pool(db.derivations[t]) && Screen(db, p.now, s) == Contaminated ==> Stays(db, p, roots, s)
  {
    hide IsClosure, Stays, Screen, PlanFor, Rescanned, Pool;
    forall s ensures Rescanned(db, p, c).HasConfirmedIn(s) <==> Stays(db, p, roots, s) {
      RescannedConfirms(db, p, roots, c, s);
    }
    RescannedConfirms(db, p, roots, c, t);
    PlanSameIff(db, Rescanned(db, p, c), p.now, t);
  }

  /** A plan is safe from every re-run, whatever recovery finds, exactly when no
      support is excluded for its evidence. */
  lemma PlanStableIff(db: Db, now: int, t: Id)
    requires t in db.derivations
    ensures (forall b :: Weaker(db, b) ==> PlanFor(b, now, t) == PlanFor(db, now, t)) <==>
              (forall s :: s in Pool(db.derivations[t]) ==> Screen(db, now, s) != Contaminated)
  {
    if forall s :: s in Pool(db.derivations[t]) ==> Screen(db, now, s) != Contaminated {
      forall b | Weaker(db, b) ensures PlanFor(b, now, t) == PlanFor(db, now, t) {
        PlanSameIff(db, b, now, t);
      }
    } else {
      var bare := db.(hidden := map[]);
      assert Weaker(db, bare);
      PlanSameIff(db, bare, now, t);
    }
  }

  // ----- a run that dies where it takes up a target

  lemma RootsNeeded(o: Origin)
    requires o.Fresh() && o.Queue() != []
    ensures o.ev.roots != []
  {
    OriginFacts(o);
    var t := SomeMember(o.Queue());
    if o.ev.roots == [] {
      NoClosure(o.db, o.closure);
      NoCandidates(SnapshotOf(o.db), o.p, Listed(o.db.order));
      VerdictsAre(o, 0);
      SettledApart(o.p, o.ev, o.Verdicts());
    }
  }

  lemma NoClosure(db: Db, c: seq<Id>)
    requires IsClosure(db, [], c)
    ensures c == []
  {
    if c != [] {
      var n := SomeMember(c);
      assert false;
    }
  }

  lemma {:induction false} NoCandidates(snap: Snapshot, p: Params, ids: seq<Id>)
    ensures HiddenFrom(snap, p, [], ids) == []
  {
    if ids != [] {
      NoCandidates(snap, p, ids[1..]);
      NoMatches(ids[0], (p.recover)(snap, ids[0]));
    }
  }

  lemma {:induction false} NoMatches(target: Id, results: seq<Scored>)
    ensures Matches([], target, results) == []
  {
    if results != [] {
      NoMatches(target, results[1..]);
    }
  }

  /** The event of `x` says that the run has come to its `i`-th target. */
  ghost predicate Handed(o: Origin, i: nat, x: Db)
    requires i <= |o.Queue()|
  {
    && o.ev.key in x.events
    && var ev := x.events[o.ev.key];
    && 7 <= StageIndex(ev.state) <= 8 && SameRequest(o.ev, ev)
    && ev.decisions == o.Verdicts() && ev.quarantined == o.Queue() && ProgressOf(ev) == o.At(i).done
  }

  lemma ReachedHanded(o: Origin, i: nat, k: nat, x: Db)
    requires i < |o.Queue()| && k <= Steps(o.db, o.p, o.closure, o.ev, i)
    requires Reached(o.db, o.p, o.closure, o.ev, i, k, x)
    ensures Handed(o, i, x) && (k == 0 ==> SameTables(o.At(i).db, x))
  {
    hide WalkTo, TargetsOf, PartOf;
  }

  /** The call that follows takes the run up where it was left, on the rescanned store. */
  lemma ResumesAt(o: Origin, i: nat, left: Db, c: seq<Id>)
    requires o.Fresh() && i < |o.Queue()| && Good(left, o.p, o.ev.key, o.closure) && Handed(o, i, left)
    ensures var ev := left.events[o.ev.key];
      && Decisions(left, o.p, c, ev) == o.Verdicts() && TargetsOf(left, o.p, c, ev) == o.Queue()
      && WalkTo(left, o.p, c, ev, i) == Walk(Rescanned(left, o.p, c), o.At(i).done)
  {
    hide Swept, WalkTo, Settled;
    var ev := left.events[o.ev.key];
    LateStageDone(ev);
    StageDoneSettles(o.p, ev);
    assert Decisions(left, o.p, c, ev) == ev.decisions;
    UnchangedStart(left, o.p, c, ev);
    AtPending(o, i);
    forall j | 0 <= j < i ensures Done(o.At(i).done, o.Queue()[..i][j]) {
      assert o.Queue()[..i][j] in o.Queue()[..i];
    }
    ResumedWalk(left, o.p, c, ev, i);
  }

  lemma UnchangedStart(db: Db, p: Params, c: seq<Id>, ev: Event)
    requires 7 <= StageIndex(ev.state) <= 8 && Settled(p, ev, ev.decisions) == LedgerOf(ev)
    ensures Start(db, p, c, ev) == Rescanned(db, p, c)
  {
    hide Swept, Settled;
    var b := QuarantinedOn(db, ev.key, ev.quarantined, ev.quarantined);
    assert b.artifacts == db.artifacts && b.quarantine == db.quarantine;
  }

  lemma ResumedWalk(db: Db, p: Params, c: seq<Id>, ev: Event, i: nat)
    requires 7 <= StageIndex(ev.state) <= 8 && Settled(p, ev, ev.decisions) == LedgerOf(ev)
    requires i <= |ev.quarantined| && forall j :: 0 <= j < i ==> Done(ProgressOf(ev), ev.quarantined[..i][j])
    ensures TargetsOf(db, p, c, ev) == ev.quarantined
    ensures WalkTo(db, p, c, ev, i) == Walk(Rescanned(db, p, c), ProgressOf(ev))
  {
    hide Rescanned, AttemptAll, Settled, Start;
    UnchangedStart(db, p, c, ev);
    AttemptAllResume(Walk(Rescanned(db, p, c), ProgressOf(ev)), p, ev.key, ev.quarantined[..i]);
  }

  // ----- how the ledger tells the two ends apart

  /** The ledger says this and nothing else of the attempt on `t`. */
  ghost predicate TellsOnly(g: Progress, t: Id, a: Attempt) {
    Done(g, t) && forall x :: Told(g, t, x) <==> x == a
  }

  lemma TellsFirst(g: Progress, t: Id, a: Attempt)
    requires !Done(g, t)
    ensures TellsOnly(Record(g, t, a), t, a)
  {
    var g' := Record(g, t, a);
    forall x ensures Told(g', t, x) <==> x == a {
      NotTold(g, t, x);
    }
    assert match a case Unavailable => Open(t, RebuildUnavailable) in g'.unresolved
                   case Fails => Open(t, VerificationFailed) in g'.unresolved
                   case Passes(n) => Rebuilt(t, n) in g'.rebuilt;
  }

  lemma NotTold(g: Progress, t: Id, x: Attempt)
    requires !Done(g, t)
    ensures !Told(g, t, x)
  {
  }

  lemma TellsNext(w: Walk, p: Params, key: Key, x: Id, t: Id, a: Attempt)
    requires TellsOnly(w.done, t, a)
    ensures TellsOnly(AttemptNext(w, p, key, x).done, t, a)
  {
    hide AttemptOn, Attempted;
    if !Done(w.done, x) {
      RecordTells(w.done, x, AttemptOn(w.db, p, x), t, a);
    }
  }

  lemma RecordTells(g: Progress, x: Id, att: Attempt, t: Id, a: Attempt)
    requires TellsOnly(g, t, a) && !Done(g, x)
    ensures TellsOnly(Record(g, x, att), t, a)
  {
    var g' := Record(g, x, att);
    forall y ensures Told(g', t, y) <==> Told(g, t, y) {
    }
    assert Told(g', t, a);
  }

  /** Whatever comes after, the finished ledger tells how target `i` ended. */
  lemma {:induction false} WalkTells(db: Db, p: Params, c: seq<Id>, ev: Event, i: nat, n: nat)
    requires i < n <= |TargetsOf(db, p, c, ev)|
    requires !Done(WalkTo(db, p, c, ev, i).done, TargetsOf(db, p, c, ev)[i])
    ensures var t := TargetsOf(db, p, c, ev)[i];
      TellsOnly(WalkTo(db, p, c, ev, n).done, t, AttemptOn(WalkTo(db, p, c, ev, i).db, p, t))
    decreases n
  {
    hide WalkTo, AttemptOn, Attempted, TargetsOf, TellsOnly, Record;
    var t := TargetsOf(db, p, c, ev)[i];
    WalkNext(db, p, c, ev, n - 1);
    if n - 1 == i {
      TellsFirst(WalkTo(db, p, c, ev, i).done, t, AttemptOn(WalkTo(db, p, c, ev, i).db, p, t));
    } else {
      WalkTells(db, p, c, ev, i, n - 1);
      TellsNext(WalkTo(db, p, c, ev, n - 1), p, ev.key, TargetsOf(db, p, c, ev)[n - 1], t,
                AttemptOn(WalkTo(db, p, c, ev, i).db, p, t));
    }
  }

  /** The evidence a death at target `i` leaves the next call changes the attempt on it. */
  ghost predicate Shaken(o: Origin, i: nat, c: seq<Id>)
    requires i < |o.Queue()|
  {
    AttemptOn(Rescanned(o.At(i).db, o.p, c), o.p, o.Queue()[i]) != AttemptOn(o.At(i).db, o.p, o.Queue()[i])
  }

  lemma RescannedSame(a: Db, b: Db, p: Params, c: seq<Id>, t: Id)
    requires SameTables(a, b)
    ensures AttemptOn(Rescanned(a, p, c), p, t) == AttemptOn(Rescanned(b, p, c), p, t)
  {
    hide AttemptOn, Swept;
    SweptSame(a, b, p, c);
    SameTablesAttempt(Rescanned(a, p, c), Rescanned(b, p, c), p, t);
  }

  lemma SweptSame(a: Db, b: Db, p: Params, c: seq<Id>)
    requires SameTables(a, b)
    ensures Swept(a, p, c) == Swept(b, p, c)
  {
  }

  /** Both ends tell how target `i` fared, so a changed attempt shows in the summary. */
  lemma EndsDiffer(o: Origin, i: nat, left: Db, c: seq<Id>)
    requires o.Fresh() && Rebuilds(o.p, o.ev.policy) && i < |o.Queue()|
    requires Good(left, o.p, o.ev.key, o.closure) && Handed(o, i, left)
    requires AttemptOn(Rescanned(left, o.p, c), o.p, o.Queue()[i]) != AttemptOn(o.At(i).db, o.p, o.Queue()[i])
    ensures Outcome(left, o.p, c, left.events[o.ev.key]) != o.End()
  {
    hide WalkTo, AttemptOn, Rescanned, Start, Settled, Decisions, TargetsOf, TellsOnly, Good;
    var t, ev := o.Queue()[i], left.events[o.ev.key];
    ResumesAt(o, i, left, c);
    AtPending(o, i);
    WalkTells(o.db, o.p, o.closure, o.ev, i, |o.Queue()|);
    WalkTells(left, o.p, c, ev, i, |o.Queue()|);
    EndIs(o);
    EndIs(Origin(left, o.p, c, ev));
    if Outcome(left, o.p, c, ev) == o.End() {
      TellsSame(o.At(|o.Queue()|).done, WalkTo(left, o.p, c, ev, |o.Queue()|).done, t,
                AttemptOn(o.At(i).db, o.p, t), AttemptOn(Rescanned(left, o.p, c), o.p, t));
    }
  }

  lemma TellsSame(g: Progress, h: Progress, t: Id, a: Attempt, b: Attempt)
    requires TellsOnly(g, t, a) && TellsOnly(h, t, b) && g == h
    ensures a == b
  {
    assert Told(g, t, a) && Told(h, t, b);
  }

  /** The points at which a process is to die: `k` steps into its `i`-th target. */
  predicate StepsInto(db: Db, p: Params, c: seq<Id>, ev: Event, i: nat, k: nat, y: Db) {
    i < |TargetsOf(db, p, c, ev)| && k <= Steps(db, p, c, ev, i) && Reached(db, p, c, ev, i, k, y)
  }

  lemma CannotOutlive(db: Db, p: Params, c: seq<Id>, ev: Event, i: nat, k: nat, doom: Db -> bool)
    requires i < |TargetsOf(db, p, c, ev)| && k <= Steps(db, p, c, ev, i)
    requires !Done(WalkTo(db, p, c, ev, i).done, TargetsOf(db, p, c, ev)[i])
    requires forall y :: doom(y) == StepsInto(db, p, c, ev, i, k, y)
    ensures !OutlivedAll(doom, db, p, c, ev)
  {
    hide Reached, WalkTo, TargetsOf, Steps;
    assert !OutlivedAt(doom, db, p, c, ev, i, k);
    assert !Outlived(doom, db, p, c, ev, i);
  }

  lemma OriginIs(o: Origin)
    requires o.Fresh()
    ensures IsClosure(o.db, o.ev.roots, o.closure) && !Stuck(o.p, o.ev.state) && !Terminal(o.ev.state)
    ensures o.ev.key in o.db.events && o.db.events[o.ev.key] == o.ev
  {
  }

  lemma KeptGoing(a: Db, b: Db, p: Params, key: Key, closure: seq<Id>)
    requires Kept(a, b, p, key, closure)
    ensures Good(b, p, key, closure) && key in a.events && key in b.events && b.events[key].key == key
    ensures b.events[key].roots == a.events[key].roots
    ensures Stuck(p, a.events[key].state) == Stuck(p, b.events[key].state)
  {
    hide TrackKept, PublishedKept, Findings;
  }

  lemma GoodKey(db: Db, p: Params, key: Key, closure: seq<Id>)
    requires Good(db, p, key, closure)
    ensures key in db.events && db.events[key].key == key
  {
  }

  /** One process that nothing kills. */
  method RunUndisturbed(db: Db, p: Params, key: Key, closure: seq<Id>) returns (r: Result<Event>)
    requires Good(db, p, key, closure) && db.events[key].roots != [] && !Stuck(p, db.events[key].state)
    ensures r.Ok?
    ensures forall c :: IsClosure(db, db.events[key].roots, c) ==>
              SummaryOf(r.value) == Outcome(db, p, c, db.events[key])
  {
    hide Good, Kept, Outcome, Findings, IsClosure, Accounted, OutlivedAll, PathInTable, Stuck, Sourced;
    KeptSelf(db, p, key, closure);
    KeptGoing(db, db, p, key, closure);
    var ws := new Workspace(db);
    r := RunRevocation(ws, p, db.events[key], closure);
  }

  /** One process that dies `k` steps into its `i`-th target, and what it leaves. */
  method DieThere(db: Db, p: Params, key: Key, ghost closure: seq<Id>, c: seq<Id>, i: nat, k: nat) returns (left: Db)
    requires Good(db, p, key, closure) && IsClosure(db, db.events[key].roots, c)
    requires var ev := db.events[key]; ev.roots != [] && !Terminal(ev.state) && !Stuck(p, ev.state) && Rebuilds(p, ev.policy)
    requires var ev := db.events[key];
      && i < |TargetsOf(db, p, c, ev)| && k <= Steps(db, p, c, ev, i)
      && !Done(WalkTo(db, p, c, ev, i).done, TargetsOf(db, p, c, ev)[i])
    ensures Kept(db, left, p, key, closure) && Reached(db, p, c, db.events[key], i, k, left)
  {
    hide Good, Kept, Outcome, Findings, IsClosure, Accounted, OutlivedAll, PathInTable, Reached, TargetsOf, Stuck,
      Sourced, Steps, WalkTo;
    GoodKey(db, p, key, closure);
    var ev := db.events[key];
    var ws := new Workspace(db);
    ws.doom := y => StepsInto(db, p, c, ev, i, k, y);
    CannotOutlive(db, p, c, ev, i, k, ws.doom);
    var died := RunRevocation(ws, p, ev, closure);
    left := ws.db;
    assert StepsInto(db, p, c, ev, i, k, left);
  }

  /** Two runs from the same fresh event: one undisturbed; one whose first process dies
      where it takes up target `i`, its second one undisturbed. The first ends as
      foreseen; the second as foreseen from where the first process was when it died. If
      the attempt on that target is another one under the evidence a repeated recovery
      pass leaves, the two runs end differently. */
  method DieAt(db: Db, p: Params, key: Key, closure: seq<Id>, i: nat)
    returns (one: Result<Event>, many: Result<Event>, left: Db, c: seq<Id>)
    requires Good(db, p, key, closure)
    requires var o := Origin(db, p, closure, db.events[key]);
      o.Fresh() && Rebuilds(p, o.ev.policy) && i < |o.Queue()|
    ensures one.Ok? && SummaryOf(one.value) == Outcome(db, p, closure, db.events[key])
    ensures Good(left, p, key, closure) && Reached(db, p, closure, db.events[key], i, 0, left)
    ensures IsClosure(left, db.events[key].roots, c)
    ensures key in left.events && many.Ok? && SummaryOf(many.value) == Outcome(left, p, c, left.events[key])
    ensures Shaken(Origin(db, p, closure, db.events[key]), i, c) ==> SummaryOf(one.value) != SummaryOf(many.value)
  {
    hide Good, Kept, Outcome, IsClosure, Shaken, Reached, TargetsOf, Stuck, WalkTo;
    GoodKey(db, p, key, closure);
    ghost var o := Origin(db, p, closure, db.events[key]);
    OriginIs(o);
    RootsNeeded(o);
    AtPending(o, i);
    one := RunUndisturbed(db, p, key, closure);
    left := DieThere(db, p, key, closure, closure, i, 0);
    KeptGoing(db, left, p, key, closure);
    var found := RecordedDescendants(left, db.events[key].roots);
    c := found.value;
    many := RunUndisturbed(left, p, key, closure);
    ReachedHanded(o, i, 0, left);
    if Shaken(o, i, c) {
      ShakenThere(o, i, left, c);
      EndsDiffer(o, i, left, c);
    }
  }

  lemma ShakenThere(o: Origin, i: nat, left: Db, c: seq<Id>)
    requires i < |o.Queue()| && Shaken(o, i, c) && SameTables(o.At(i).db, left)
    ensures AttemptOn(Rescanned(left, o.p, c), o.p, o.Queue()[i]) != AttemptOn(o.At(i).db, o.p, o.Queue()[i])
  {
    hide WalkTo, TargetsOf, AttemptOn, Rescanned;
    RescannedSame(o.At(i).db, left, o.p, c, o.Queue()[i]);
  }
}
