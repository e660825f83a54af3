/** Whether any series of dying processes can plan a target otherwise than the
    undisturbed run: found out by letting one process after the other die, each one step
    further on than the last. */
module Probes {
  import opened Domain
  import opened Seqs
  import opened StateMachine
  import opened Store
  import opened Planner
  import opened RevocationSpec
  import opened HiddenEvidence
  import opened Attempts
  import opened Frames
  import opened Foresight
  import opened RevocationInv
  import opened Track
  import opened TrackSteps
  import opened RevocationSteps
  import opened Pipeline
  import opened Revocation
  import opened Exposure

  // ----- the places where a process can die during rebuild

  function StepsOf(o: Origin, i: nat): nat
    requires i < |o.Queue()|
  {
    Steps(o.db, o.p, o.closure, o.ev, i)
  }

  /** What recovery finds there: the snapshot `m` steps into target `j`. */
  ghost function SnapAt(o: Origin, j: nat, m: nat): Snapshot
    requires j < |o.Queue()| && m <= StepsOf(o, j)
  {
    var b, t := o.At(j).db, o.Queue()[j];
    if m == 0 then SnapshotOf(b)
    else
      AttemptedIs(b, o.p, o.ev.key, t);
      Cut(SnapshotOf(b), SuccessorOf(b, o.p, t), Heir(b, t, CleanOf(b, o.p, t)), Links(t, SuccessorOf(b, o.p, t), CleanOf(b, o.p, t)), m)
  }

  predicate Before(j: nat, m: nat, i: nat, k: nat) {
    j < i || (j == i && m < k)
  }

  /** No pass at a place before the `k`-th step of target `i` takes the pair back. */
  ghost predicate Unshaken(o: Origin, e: (Id, Id), i: nat, k: nat) {
    forall j: nat, m: nat :: j < |o.Queue()| && m <= StepsOf(o, j) && Before(j, m, i, k) ==> !o.Shakes(SnapAt(o, j, m), e)
  }

  lemma UnshakenNext(o: Origin, e: (Id, Id), i: nat, k: nat)
    requires i < |o.Queue()| && k <= StepsOf(o, i)
    ensures Unshaken(o, e, i, k + 1) <==> Unshaken(o, e, i, k) && !o.Shakes(SnapAt(o, i, k), e)
  {
    hide StepsOf, SnapAt, Finds, TargetsOf;
    assert Before(i, k, i, k + 1);
    assert forall j: nat, m: nat :: Before(j, m, i, k + 1) <==> Before(j, m, i, k) || (j == i && m == k);
  }

  lemma UnshakenTurn(o: Origin, e: (Id, Id), i: nat)
    requires i < |o.Queue()|
    ensures Unshaken(o, e, i + 1, 0) <==> Unshaken(o, e, i, StepsOf(o, i) + 1)
  {
    hide StepsOf, SnapAt, Finds, TargetsOf;
  }

  lemma UnshakenAtFirst(o: Origin, e: (Id, Id))
    ensures Unshaken(o, e, 0, 0)
  {
  }

  /** The snapshots the run goes through while it deals with a target are those at which
      a process can die there. */
  lemma PassesAt(o: Origin, j: nat, snap: Snapshot)
    requires j < |o.Queue()|
    ensures o.Passes(j, snap) <==> exists m: nat :: m <= StepsOf(o, j) && SnapAt(o, j, m) == snap
  {
    hide WalkTo, TargetsOf, AttemptOn, PlanFor, Links, Joined;
    var b, t := o.At(j).db, o.Queue()[j];
    if o.Passes(j, snap) {
      if snap == SnapshotOf(b) {
        assert SnapAt(o, j, 0) == snap;
      } else {
        var k: nat :| CutOf(b, o.p, t, snap, k);
        assert SnapAt(o, j, k) == snap;
      }
    }
    if m: nat :| m <= StepsOf(o, j) && SnapAt(o, j, m) == snap {
      if m > 0 {
        assert CutOf(b, o.p, t, snap, m);
      }
    }
  }

  /** Evidence lasts exactly when it confirms and no place up to the end of the target
      takes it back. */
  lemma LastingAt(o: Origin, i: nat, e: (Id, Id))
    requires i < |o.Queue()|
    ensures o.Lasting(i, e) <==> Confirms(o.Base().hidden, e) && Unshaken(o, e, i, StepsOf(o, i) + 1)
  {
    hide WalkTo, TargetsOf, StepsOf, SnapAt, Finds, Start, Confirms;
    if o.Lasting(i, e) {
      forall j: nat, m: nat | j < |o.Queue()| && m <= StepsOf(o, j) && Before(j, m, i, StepsOf(o, i) + 1)
        ensures !o.Shakes(SnapAt(o, j, m), e)
      {
        PassesAt(o, j, SnapAt(o, j, m));
      }
    }
    if Confirms(o.Base().hidden, e) && Unshaken(o, e, i, StepsOf(o, i) + 1) {
      forall j: nat, snap | j <= i && o.Passes(j, snap) ensures !o.Shakes(snap, e) {
        PassesAt(o, j, snap);
        var m: nat :| m <= StepsOf(o, j) && SnapAt(o, j, m) == snap;
        assert Before(j, m, i, StepsOf(o, i) + 1);
      }
    }
  }

  // ----- a store such deaths leave

  /** The attempt on `t` begun on `b` has been carried `k` steps. */
  ghost predicate Begun(b: Db, x: Db, p: Params, t: Id, k: nat) {
    if AttemptOn(b, p, t).Unavailable? then Like(b, x)
    else
      var n, clean := SuccessorOf(b, p, t), CleanOf(b, p, t);
      Framed(b, x, t, n, clean, false) && CutAt(b, x, t, n, clean, k)
  }

  /** Processes have died at every place up to the `k`-th step of target `i`, the last of
      them there, and nothing has changed but for the evidence they took back. */
  ghost predicate Come(o: Origin, i: nat, k: nat, x: Db)
    requires i < |o.Queue()| && k <= StepsOf(o, i)
  {
    && Handed(o, i, x) && Begun(o.At(i).db, x, o.p, o.Queue()[i], k)
    && forall e :: Confirms(x.hidden, e) <==> Confirms(o.Base().hidden, e) && Unshaken(o, e, i, k)
  }

  lemma BegunSnap(o: Origin, i: nat, k: nat, x: Db)
    requires i < |o.Queue()| && k <= StepsOf(o, i) && Begun(o.At(i).db, x, o.p, o.Queue()[i], k)
    ensures SnapshotOf(x) == SnapAt(o, i, k)
  {
    hide WalkTo, TargetsOf, PlanFor, Links, AttemptOn, Joined;
  }

  /** The evidence the next call goes by. */
  lemma NextEvidence(o: Origin, i: nat, k: nat, x: Db, c: seq<Id>, e: (Id, Id))
    requires i < |o.Queue()| && k <= StepsOf(o, i) && Come(o, i, k, x) && IsClosure(x, o.ev.roots, c)
    ensures Confirms(Rescanned(x, o.p, c).hidden, e) <==> Confirms(o.Base().hidden, e) && Unshaken(o, e, i, k + 1)
  {
    hide WalkTo, TargetsOf, StepsOf, SnapAt, Finds, Start, Confirms, IsClosure, Begun, Swept, Handed, Unshaken;
    BegunSnap(o, i, k, x);
    SweptConfirms(x, o.p, o.ev.roots, c, e);
    UnshakenNext(o, e, i, k);
  }

  // ----- planning on what they leave

  /** The next call plans target `i` as the undisturbed run does, if there is a recipe. */
  ghost predicate Agrees(o: Origin, i: nat, r: Db)
    requires i < |o.Queue()|
  {
    var b, t := o.At(i).db, o.Queue()[i];
    t in b.derivations && Runnable(o.p, b.derivations[t]) ==>
      t in r.derivations && PlanFor(r, o.p.now, t) == PlanFor(b, o.p.now, t)
  }

  /** The store left, with the evidence of the undisturbed run put back. */
  function Reheard(b: Db, x: Db): Db {
    x.(hidden := b.hidden)
  }

  lemma BegunFramed(b: Db, x: Db, p: Params, t: Id, k: nat)
    requires Begun(b, x, p, t, k) && Tables(b) && t in b.derivations
    ensures Framed(b, Reheard(b, x), t, SuccessorOf(b, p, t), if AttemptOn(b, p, t).Unavailable? then [] else CleanOf(b, p, t), false)
  {
    hide Framed, AttemptOn, PlanFor;
    if AttemptOn(b, p, t).Unavailable? {
      LikeFramed(b, x, t, SuccessorOf(b, p, t), []);
      FramedOn(b, x, Reheard(b, x), t, SuccessorOf(b, p, t), [], false);
    } else {
      FramedOn(b, x, Reheard(b, x), t, SuccessorOf(b, p, t), CleanOf(b, p, t), false);
    }
  }

  /** With it the planner would see what the undisturbed run sees. */
  lemma ReheardPlan(b: Db, x: Db, p: Params, t: Id, k: nat)
    requires Addressed(p) && Begun(b, x, p, t, k) && Tables(b) && t in b.derivations
    requires t in b.artifacts && b.artifacts[t].status != Revoked
    ensures t in x.derivations && x.derivations[t] == b.derivations[t]
    ensures PlanFor(Reheard(b, x), p.now, t) == PlanFor(b, p.now, t)
    ensures forall s :: s in Pool(b.derivations[t]) ==> Screen(Reheard(b, x), p.now, s) == Screen(b, p.now, s)
  {
    hide Framed, AttemptOn, PlanFor, Screen, Begun, Pool;
    BegunFramed(b, x, p, t, k);
    var n, clean := SuccessorOf(b, p, t), if AttemptOn(b, p, t).Unavailable? then [] else CleanOf(b, p, t);
    OutsidePool(b, p, t);
    FramedPlan(b, Reheard(b, x), p, t, n, clean, false);
    forall s | s in Pool(b.derivations[t]) ensures Screen(Reheard(b, x), p.now, s) == Screen(b, p.now, s) {
      FramedPlaced(b, Reheard(b, x), t, n, clean);
      FramedScreen(b, Reheard(b, x), p.now, t, n, false, s);
    }
  }

  lemma FramedPlaced(a: Db, b: Db, t: Id, n: Id, clean: seq<Id>)
    requires Framed(a, b, t, n, clean, false)
    ensures Placed(a, b, t, n, false) && a.waivers == b.waivers
  {
  }

  /** Evidence only ever gets less. */
  lemma Lessens(o: Origin, i: nat, k: nat, x: Db, c: seq<Id>)
    requires o.Fresh() && i < |o.Queue()| && k <= StepsOf(o, i) && Come(o, i, k, x) && IsClosure(x, o.ev.roots, c)
    ensures Weaker(Reheard(o.At(i).db, x), Rescanned(x, o.p, c))
  {
    hide WalkTo, TargetsOf, StepsOf, Confirms, IsClosure, Begun, Swept, Handed, Unshaken, Good, Come, Start;
    AtSteady(o, i);
    forall e | Confirms(Rescanned(x, o.p, c).hidden, e) ensures Confirms(o.At(i).db.hidden, e) {
      NextEvidence(o, i, k, x, c, e);
    }
  }

  /** The next call plans alike exactly when every support the undisturbed run excludes
      for its evidence keeps some. */
  lemma AgreesIff(o: Origin, i: nat, k: nat, x: Db, c: seq<Id>)
    requires o.Fresh() && Addressed(o.p) && i < |o.Queue()| && k <= StepsOf(o, i)
    requires Come(o, i, k, x) && IsClosure(x, o.ev.roots, c)
    ensures Agrees(o, i, Rescanned(x, o.p, c)) <==> forall s :: o.ExcludedAt(i, s) ==>
              Rescanned(x, o.p, c).HasConfirmedIn(s)
  {
    hide WalkTo, TargetsOf, StepsOf, IsClosure, Begun, Swept, Handed, Unshaken, Good, Weaker, Screen, PlanFor,
      Pool, Runnable, Addressed;
    var b, t := o.At(i).db, o.Queue()[i];
    AtSteady(o, i);
    if t in b.derivations && Runnable(o.p, b.derivations[t]) {
      ReheardPlan(b, x, o.p, t, k);
      Lessens(o, i, k, x, c);
      PlanSameIff(Reheard(b, x), Rescanned(x, o.p, c), o.p.now, t);
    }
  }

  lemma EvidenceInto(o: Origin, i: nat, k: nat, x: Db, c: seq<Id>, s: Id)
    requires i < |o.Queue()| && k <= StepsOf(o, i) && Come(o, i, k, x) && IsClosure(x, o.ev.roots, c)
    ensures Rescanned(x, o.p, c).HasConfirmedIn(s) <==>
              exists e: (Id, Id) :: e.1 == s && Confirms(o.Base().hidden, e) && Unshaken(o, e, i, k + 1)
  {
    hide WalkTo, TargetsOf, StepsOf, IsClosure, Swept, Unshaken, Come, Start, Confirms, Rescanned;
    ConfirmedInto(Rescanned(x, o.p, c), s);
    forall e: (Id, Id) ensures Confirms(Rescanned(x, o.p, c).hidden, e) <==> Confirms(o.Base().hidden, e) && Unshaken(o, e, i, k + 1) {
      NextEvidence(o, i, k, x, c, e);
    }
  }

  /** Where the condition holds, no such deaths change a plan. */
  lemma FirmAgrees(o: Origin, i: nat, k: nat, x: Db, c: seq<Id>)
    requires o.Fresh() && Addressed(o.p) && Rebuilds(o.p, o.ev.policy) && o.Firm()
    requires i < |o.Queue()| && k <= StepsOf(o, i) && Come(o, i, k, x) && IsClosure(x, o.ev.roots, c)
    ensures Agrees(o, i, Rescanned(x, o.p, c))
  {
    hide WalkTo, TargetsOf, StepsOf, IsClosure, Unshaken, Come, Start, Confirms, Rescanned, Agrees, Good, Addressed;
    AgreesIff(o, i, k, x, c);
    forall s | o.ExcludedAt(i, s) ensures Rescanned(x, o.p, c).HasConfirmedIn(s) {
      assert o.Holds(i, s);
      var e: (Id, Id) :| e.1 == s && o.Lasting(i, e);
      LastingAt(o, i, e);
      UnshakenBefore(o, e, i, k + 1, StepsOf(o, i) + 1);
      EvidenceInto(o, i, k, x, c, s);
    }
  }

  lemma UnshakenBefore(o: Origin, e: (Id, Id), i: nat, k: nat, m: nat)
    requires Unshaken(o, e, i, m) && k <= m
    ensures Unshaken(o, e, i, k)
  {
    hide StepsOf, SnapAt, Finds, TargetsOf;
  }

  /** Deaths at every step of target `i` that leave its plan alone show that no excluded
      support of it rests on evidence recovery takes back. */
  lemma AgreedHolds(o: Origin, i: nat, x: Db, c: seq<Id>, s: Id)
    requires o.Fresh() && Addressed(o.p) && i < |o.Queue()|
    requires Come(o, i, StepsOf(o, i), x) && IsClosure(x, o.ev.roots, c) && Agrees(o, i, Rescanned(x, o.p, c))
    requires o.ExcludedAt(i, s)
    ensures o.Holds(i, s)
  {
    hide WalkTo, TargetsOf, StepsOf, IsClosure, Unshaken, Come, Start, Confirms, Rescanned, Agrees, Good, Addressed;
    AgreesIff(o, i, StepsOf(o, i), x, c);
    EvidenceInto(o, i, StepsOf(o, i), x, c, s);
    var e: (Id, Id) :| e.1 == s && Confirms(o.Base().hidden, e) && Unshaken(o, e, i, StepsOf(o, i) + 1);
    LastingAt(o, i, e);
  }

  // ----- the next death

  lemma AgreedEvidence(o: Origin, i: nat, k: nat, x: Db, c: seq<Id>)
    requires o.Fresh() && Addressed(o.p) && i < |o.Queue()| && k <= StepsOf(o, i)
    requires Come(o, i, k, x) && IsClosure(x, o.ev.roots, c) && Agrees(o, i, Rescanned(x, o.p, c))
    ensures var b, t := o.At(i).db, o.Queue()[i];
      t in b.derivations && Runnable(o.p, b.derivations[t]) ==> SameEvidence(b, Rescanned(x, o.p, c), o.p.now, t)
  {
    hide WalkTo, TargetsOf, StepsOf, IsClosure, Begun, Swept, Handed, Unshaken, Good, PlanFor, Pool, Runnable,
      Addressed, Come, Confirms;
    var b, t, r := o.At(i).db, o.Queue()[i], Rescanned(x, o.p, c);
    AtSteady(o, i);
    AgreesIff(o, i, k, x, c);
    Lessens(o, i, k, x, c);
    if t in b.derivations && Runnable(o.p, b.derivations[t]) {
      forall s | s in Pool(b.derivations[t]) && Screen(b, o.p.now, s) in {Contaminated, Clean}
        ensures b.HasConfirmedIn(s) <==> r.HasConfirmedIn(s)
      {
        if Screen(b, o.p.now, s) == Contaminated {
          assert o.ExcludedAt(i, s);
        } else {
          CleanHere(b, r, o.p.now, s);
        }
      }
    }
  }

  /** On the store left, evidence aside, the attempt may have begun. */
  lemma BegunRescanned(b: Db, x: Db, p: Params, c: seq<Id>, t: Id, k: nat)
    requires Begun(b, x, p, t, k)
    ensures Begun(b, Rescanned(x, p, c), p, t, k)
  {
    hide Swept, AttemptOn, PlanFor, Links, Cut;
    if !AttemptOn(b, p, t).Unavailable? {
      FramedOn(b, x, Rescanned(x, p, c), t, SuccessorOf(b, p, t), CleanOf(b, p, t), false);
    }
  }

  /** The next call attempts target `i` as the undisturbed run does, in as many steps, and
      leaves the same store. */
  lemma AgreedSame(o: Origin, i: nat, k: nat, x: Db, c: seq<Id>)
    requires o.Fresh() && Addressed(o.p) && i < |o.Queue()| && k <= StepsOf(o, i)
    requires Come(o, i, k, x) && IsClosure(x, o.ev.roots, c) && Agrees(o, i, Rescanned(x, o.p, c))
    ensures var b, t, r := o.At(i).db, o.Queue()[i], Rescanned(x, o.p, c);
      && AttemptOn(r, o.p, t) == AttemptOn(b, o.p, t) && Positions(r, o.p, t) == StepsOf(o, i)
      && Like(Attempted(b, o.p, o.ev.key, t), Attempted(r, o.p, o.ev.key, t))
      && (!AttemptOn(b, o.p, t).Unavailable? ==>
            t in r.derivations && t in b.derivations && PlanFor(r, o.p.now, t) == PlanFor(b, o.p.now, t))
  {
    hide WalkTo, TargetsOf, IsClosure, Begun, Swept, Handed, Unshaken, Good, PlanFor, Addressed, Confirms, AttemptOn, SameEvidence,
      Framed, Attempted, Like, Links, Rescanned, Agrees;
    var b, t, r := o.At(i).db, o.Queue()[i], Rescanned(x, o.p, c);
    AtSteady(o, i);
    AgreedEvidence(o, i, k, x, c);
    BegunRescanned(b, x, o.p, c, t, k);
    if AttemptOn(b, o.p, t).Unavailable? {
      BegunLike(b, r, o.p, t, k);
      StaysUnavailable(b, r, o.p, t);
      UnavailableStays(b, o.p, o.ev.key, t);
      UnavailableStays(r, o.p, o.ev.key, t);
    } else {
      AttemptedIs(b, o.p, o.ev.key, t);
      AvailableRuns(b, o.p, t);
      BegunMay(b, r, o.p, t, k);
      ResumeSame(b, r, o.p, t);
      ResumeLike(b, r, o.p, o.ev.key, t);
    }
  }

  lemma BegunLike(b: Db, x: Db, p: Params, t: Id, k: nat)
    requires Begun(b, x, p, t, k) && AttemptOn(b, p, t).Unavailable?
    ensures Like(b, x)
  {
  }

  lemma BegunMay(b: Db, x: Db, p: Params, t: Id, k: nat)
    requires Begun(b, x, p, t, k) && !AttemptOn(b, p, t).Unavailable? && t in b.derivations
    ensures Framed(b, x, t, SuccessorOf(b, p, t), CleanOf(b, p, t), AttemptOn(b, p, t).Passes?)
  {
    hide AttemptOn, PlanFor, Framed;
    FramedMay(b, x, t, SuccessorOf(b, p, t), CleanOf(b, p, t), AttemptOn(b, p, t).Passes?);
  }

  /** One more step of the attempt. */
  lemma BegunNext(b: Db, r: Db, y: Db, p: Params, key: Key, t: Id, k: nat)
    requires Begun(b, r, p, t, k) && Tables(b)
    requires AttemptOn(r, p, t) == AttemptOn(b, p, t) && k < Positions(b, p, t) && k < Positions(r, p, t)
    requires t in r.derivations && t in b.derivations && PlanFor(r, p.now, t) == PlanFor(b, p.now, t)
    requires SameTables(Part(r, p, key, t, k + 1), y)
    ensures Begun(b, y, p, t, k + 1) && y.hidden == r.hidden
  {
    hide PlanFor, AttemptOn, Links, Cut, Framed, Worked, PartOf;
    var n, clean := SuccessorOf(b, p, t), CleanOf(b, p, t);
    var d := Part(r, p, key, t, k + 1);
    FramedTables(b, r, t, n, clean, false);
    PartFrame(r, key, t, n, clean, k + 1);
    WorkedFrames(r, d, t, n, clean, false);
    FramedTwice(b, r, d, t, n, clean, false, false);
    FramedOn(b, d, y, t, n, clean, false);
    HeirIs(b, r, t, n, clean, k);
    CutTwice(SnapshotOf(b), n, Heir(b, t, clean), Links(t, n, clean), k, k + 1);
  }

  lemma WorkedFrames(a: Db, b: Db, t: Id, n: Id, clean: seq<Id>, published: bool)
    requires Worked(a, b, t, n, clean, published)
    ensures Framed(a, b, t, n, clean, published) && a.hidden == b.hidden
  {
  }

  /** The first process dies where it takes up the first target. */
  lemma ComeFirst(o: Origin, y: Db)
    requires o.Fresh() && 0 < |o.Queue()| && Reached(o.db, o.p, o.closure, o.ev, 0, 0, y)
    ensures Come(o, 0, 0, y)
  {
    hide WalkTo, TargetsOf, StepsOf, Confirms, Begun, Unshaken, Good, Reached, Handed, Start;
    AtSteady(o, 0);
    ReachedHanded(o, 0, 0, y);
    BegunSame(o.At(0).db, o.At(0).db, y, o.p, o.Queue()[0]);
    forall e ensures Unshaken(o, e, 0, 0) {
      UnshakenAtFirst(o, e);
    }
  }

  lemma LikeSelf(b: Db)
    ensures Like(b, b)
  {
  }

  lemma BegunSame(b: Db, x: Db, y: Db, p: Params, t: Id)
    requires Tables(b) && SameTables(x, y) && (x == b || Like(b, x))
    ensures Begun(b, y, p, t, 0)
  {
    hide AttemptOn, PlanFor, Links, Framed, Like;
    LikeSelf(b);
    LikeOn(b, x, y);
    if !AttemptOn(b, p, t).Unavailable? {
      AttemptedIs(b, p, 0, t);
      LikeFramed(b, y, t, SuccessorOf(b, p, t), CleanOf(b, p, t));
      LikeSnapshot(b, y);
    }
  }

  lemma LikeSnapshot(a: Db, b: Db)
    requires Like(a, b)
    ensures SnapshotOf(a) == SnapshotOf(b)
  {
  }

  lemma Resumed(o: Origin, i: nat, k: nat, x: Db, c: seq<Id>)
    requires o.Fresh() && Addressed(o.p) && i < |o.Queue()| && k <= StepsOf(o, i) && Good(x, o.p, o.ev.key, o.closure)
    requires Come(o, i, k, x) && IsClosure(x, o.ev.roots, c) && Agrees(o, i, Rescanned(x, o.p, c))
    ensures var ev := x.events[o.ev.key];
      && TargetsOf(x, o.p, c, ev) == o.Queue() && Steps(x, o.p, c, ev, i) == StepsOf(o, i)
      && !Done(WalkTo(x, o.p, c, ev, i).done, o.Queue()[i])
  {
    hide WalkTo, TargetsOf, StepsOf, IsClosure, Begun, Unshaken, Good, Agrees, Rescanned, Decisions;
    ResumesAt(o, i, x, c);
    AgreedSame(o, i, k, x, c);
    AtPending(o, i);
  }

  lemma ReachedAgain(o: Origin, i: nat, k: nat, x: Db, c: seq<Id>, y: Db)
    requires o.Fresh() && i < |o.Queue()| && Good(x, o.p, o.ev.key, o.closure) && Handed(o, i, x)
    requires var ev := x.events[o.ev.key];
      && i < |TargetsOf(x, o.p, c, ev)| && k <= Steps(x, o.p, c, ev, i) && Reached(x, o.p, c, ev, i, k, y)
    ensures Handed(o, i, y)
    ensures var r, t := Rescanned(x, o.p, c), o.Queue()[i]; k <= Positions(r, o.p, t) && SameTables(Part(r, o.p, o.ev.key, t, k), y)
  {
    hide WalkTo, TargetsOf, Good, Rescanned, Decisions, Part, Positions;
    ResumesAt(o, i, x, c);
  }

  /** The next process dies one step further on. */
  lemma ComeNext(o: Origin, i: nat, k: nat, x: Db, c: seq<Id>, y: Db)
    requires o.Fresh() && Addressed(o.p) && i < |o.Queue()| && k < StepsOf(o, i) && Good(x, o.p, o.ev.key, o.closure)
    requires Come(o, i, k, x) && IsClosure(x, o.ev.roots, c) && Agrees(o, i, Rescanned(x, o.p, c))
    requires var ev := x.events[o.ev.key];
      && i < |TargetsOf(x, o.p, c, ev)| && k + 1 <= Steps(x, o.p, c, ev, i) && Reached(x, o.p, c, ev, i, k + 1, y)
    ensures Come(o, i, k + 1, y)
  {
    hide WalkTo, TargetsOf, IsClosure, Begun, Unshaken, Good, Agrees, Rescanned, Confirms, Decisions, AttemptOn, PlanFor, Part, Start,
      Handed, Reached, Attempted, Like, SameTables;
    var b, t, r := o.At(i).db, o.Queue()[i], Rescanned(x, o.p, c);
    AtSteady(o, i);
    ReachedAgain(o, i, k + 1, x, c, y);
    AgreedSame(o, i, k, x, c);
    BegunRescanned(b, x, o.p, c, t, k);
    BegunNext(b, r, y, o.p, o.ev.key, t, k);
    forall e ensures Confirms(y.hidden, e) <==> Confirms(o.Base().hidden, e) && Unshaken(o, e, i, k + 1) {
      NextEvidence(o, i, k, x, c, e);
    }
  }

  /** It dies where it takes up the next target. */
  lemma ComeTurn(o: Origin, i: nat, x: Db, c: seq<Id>, y: Db)
    requires o.Fresh() && Addressed(o.p) && i + 1 < |o.Queue()| && Good(x, o.p, o.ev.key, o.closure)
    requires Come(o, i, StepsOf(o, i), x) && IsClosure(x, o.ev.roots, c) && Agrees(o, i, Rescanned(x, o.p, c))
    requires var ev := x.events[o.ev.key];
      && i + 1 < |TargetsOf(x, o.p, c, ev)| && Reached(x, o.p, c, ev, i + 1, 0, y)
    ensures Come(o, i + 1, 0, y)
  {
    hide WalkTo, TargetsOf, IsClosure, Begun, Unshaken, Good, Agrees, Rescanned, Confirms, Decisions, AttemptOn, PlanFor, PartOf,
      Attempted, Like, Record, Start, StepsOf, Positions;
    var b, t, r, ev := o.At(i).db, o.Queue()[i], Rescanned(x, o.p, c), x.events[o.ev.key];
    AtSteady(o, i + 1);
    SteadyTables(o, o.At(i + 1));
    ResumesAt(o, i, x, c);
    AgreedSame(o, i, StepsOf(o, i), x, c);
    AtPending(o, i);
    AtNext(o, i);
    WalkNext(x, o.p, c, ev, i);
    AttemptedRest(r, o.p, o.ev.key, t);
    BegunSame(o.At(i + 1).db, Attempted(r, o.p, o.ev.key, t), y, o.p, o.Queue()[i + 1]);
    forall e ensures Confirms(y.hidden, e) <==> Confirms(o.Base().hidden, e) && Unshaken(o, e, i + 1, 0) {
      NextEvidence(o, i, StepsOf(o, i), x, c, e);
      UnshakenTurn(o, e, i);
    }
  }

  // ----- the search

  /** Whether there is a recipe does not depend on the supports it is given. */
  ghost predicate Regular(p: Params) {
    forall d, a, b :: (p.recipe)(d, a).Some? == (p.recipe)(d, b).Some?
  }

  /** The two stores plan `t` differently, and there is a recipe to follow. */
  predicate PlansDiffer(b: Db, r: Db, p: Params, t: Id) {
    && t in b.derivations && (p.recipe)(b.derivations[t], {}).Some?
    && (t in r.derivations ==> PlanFor(r, p.now, t) != PlanFor(b, p.now, t))
  }

  lemma DifferIff(o: Origin, i: nat, r: Db)
    requires i < |o.Queue()| && Regular(o.p)
    ensures PlansDiffer(o.At(i).db, r, o.p, o.Queue()[i]) <==> !Agrees(o, i, r)
  {
    hide WalkTo, TargetsOf, PlanFor;
  }

  ghost predicate HoldsUpTo(o: Origin, i: nat)
    requires i <= |o.Queue()|
  {
    forall j: nat, s :: j < i && o.ExcludedAt(j, s) ==> o.Holds(j, s)
  }

  lemma HoldsOn(o: Origin, i: nat, x: Db, c: seq<Id>)
    requires o.Fresh() && Addressed(o.p) && i < |o.Queue()| && HoldsUpTo(o, i)
    requires Come(o, i, StepsOf(o, i), x) && IsClosure(x, o.ev.roots, c) && Agrees(o, i, Rescanned(x, o.p, c))
    ensures HoldsUpTo(o, i + 1)
  {
    hide WalkTo, TargetsOf, StepsOf, IsClosure, Come, Rescanned, Agrees, Good, Addressed;
    forall s | o.ExcludedAt(i, s) ensures o.Holds(i, s) {
      AgreedHolds(o, i, x, c, s);
    }
  }

  /** Where a search has come to: a store left by a series of dying processes, each of
      which got one step further than the one before. */
  ghost predicate Probing(o: Origin, x: Db, i: nat, k: nat) {
    && i < |o.Queue()| && k <= StepsOf(o, i)
    && Kept(o.db, x, o.p, o.ev.key, o.closure) && Come(o, i, k, x) && HoldsUpTo(o, i)
  }

  lemma ProbingFacts(o: Origin, x: Db, i: nat, k: nat)
    requires o.Fresh() && Rebuilds(o.p, o.ev.policy) && Probing(o, x, i, k)
    ensures Good(x, o.p, o.ev.key, o.closure) && o.ev.key in x.events
    ensures var ev := x.events[o.ev.key];
      && ev.key == o.ev.key && ev.roots == o.ev.roots && ev.roots != [] && !Terminal(ev.state) && !Stuck(o.p, ev.state)
      && Rebuilds(o.p, ev.policy)
  {
    hide WalkTo, TargetsOf, StepsOf, Kept, HoldsUpTo, Good, Begun;
    RootsNeeded(o);
    KeptGoing(o.db, x, o.p, o.ev.key, o.closure);
  }

  /** The next process, one step further. */
  method DieNext(o: Origin, x: Db, i: nat, k: nat, c: seq<Id>) returns (y: Db)
    requires o.Fresh() && Addressed(o.p) && Rebuilds(o.p, o.ev.policy) && Probing(o, x, i, k)
    requires IsClosure(x, o.ev.roots, c) && Agrees(o, i, Rescanned(x, o.p, c)) && k < StepsOf(o, i)
    ensures Probing(o, y, i, k + 1)
  {
    hide WalkTo, TargetsOf, StepsOf, Kept, HoldsUpTo, Good, Come, Agrees, Rescanned, IsClosure, Stuck, Steps,
      Reached, Addressed;
    ProbingFacts(o, x, i, k);
    Resumed(o, i, k, x, c);
    y := DieThere(x, o.p, o.ev.key, o.closure, c, i, k + 1);
    KeptTwice(o.db, x, y, o.p, o.ev.key, o.closure);
    ComeNext(o, i, k, x, c, y);
  }

  /** The next process, which finishes the target and dies where it takes up the next. */
  method DieTurn(o: Origin, x: Db, i: nat, c: seq<Id>) returns (y: Db)
    requires o.Fresh() && Addressed(o.p) && Rebuilds(o.p, o.ev.policy) && i + 1 < |o.Queue()| && Probing(o, x, i, StepsOf(o, i))
    requires IsClosure(x, o.ev.roots, c) && Agrees(o, i, Rescanned(x, o.p, c))
    ensures Probing(o, y, i + 1, 0)
  {
    hide WalkTo, TargetsOf, StepsOf, Kept, HoldsUpTo, Good, Come, Agrees, Rescanned, IsClosure, Stuck, Steps,
      Reached, Addressed;
    ProbingFacts(o, x, i, StepsOf(o, i));
    Resumed(o, i, StepsOf(o, i), x, c);
    TurnPending(o, i, x, c);
    HoldsOn(o, i, x, c);
    y := DieThere(x, o.p, o.ev.key, o.closure, c, i + 1, 0);
    KeptTwice(o.db, x, y, o.p, o.ev.key, o.closure);
    ComeTurn(o, i, x, c, y);
  }

  lemma TurnPending(o: Origin, i: nat, x: Db, c: seq<Id>)
    requires o.Fresh() && Addressed(o.p) && i + 1 < |o.Queue()| && Good(x, o.p, o.ev.key, o.closure)
    requires Come(o, i, StepsOf(o, i), x) && IsClosure(x, o.ev.roots, c) && Agrees(o, i, Rescanned(x, o.p, c))
    ensures var ev := x.events[o.ev.key];
      TargetsOf(x, o.p, c, ev) == o.Queue() && !Done(WalkTo(x, o.p, c, ev, i + 1).done, o.Queue()[i + 1])
  {
    hide WalkTo, TargetsOf, StepsOf, IsClosure, Good, Begun, Unshaken, Agrees, Rescanned, Decisions, AttemptOn,
      Attempted, Record, Done, Like;
    ResumesAt(o, i, x, c);
    AgreedSame(o, i, StepsOf(o, i), x, c);
    AtPending(o, i);
    AtPending(o, i + 1);
    AtNext(o, i);
    WalkNext(x, o.p, c, x.events[o.ev.key], i);
  }

  method DieFirst(o: Origin) returns (y: Db)
    requires o.Fresh() && Rebuilds(o.p, o.ev.policy) && 0 < |o.Queue()|
    ensures Probing(o, y, 0, 0)
  {
    hide WalkTo, TargetsOf, Kept, Good, Come, IsClosure, Stuck, Steps, Reached;
    OriginIs(o);
    RootsNeeded(o);
    AtPending(o, 0);
    y := DieThere(o.db, o.p, o.ev.key, o.closure, o.closure, 0, 0);
    ComeFirst(o, y);
  }

  /** A store some dying processes have left, the closure the next call computes there,
      and the target it will plan differently. */
  datatype Flip = Flip(left: Db, closure: seq<Id>, target: nat)

  ghost predicate Flips(o: Origin, f: Flip) {
    && f.target < |o.Queue()|
    && Rebuilds(o.p, o.ev.policy) && Kept(o.db, f.left, o.p, o.ev.key, o.closure)
    && Handed(o, f.target, f.left) && IsClosure(f.left, o.ev.roots, f.closure)
    && var b, t := o.At(f.target).db, o.Queue()[f.target];
    && PlansDiffer(b, Rescanned(f.left, o.p, f.closure), o.p, t)
    && t in f.left.derivations && f.left.derivations[t] == b.derivations[t]
  }

  /** Process after process dies, each one step further into the rebuild, until one of
      them would plan its target otherwise than the undisturbed run does. None ever would
      exactly when no plan of the undisturbed run excludes a support on evidence that a
      repeated recovery pass takes back. */
  method Probe(o: Origin) returns (flip: Option<Flip>)
    requires o.Fresh() && Addressed(o.p) && Regular(o.p)
    ensures flip.None? <==> o.Firm()
    ensures flip.Some? ==> Flips(o, flip.value)
  {
    hide WalkTo, TargetsOf, StepsOf, Kept, HoldsUpTo, Good, Agrees, Rescanned, IsClosure, Stuck, Addressed,
      Probing, Regular, PlansDiffer;
    if !Rebuilds(o.p, o.ev.policy) || o.Queue() == [] {
      return None;
    }
    var x := DieFirst(o);
    var i, k := 0, 0;
    while true
      invariant i < |o.Queue()| && k <= StepsOf(o, i) && Probing(o, x, i, k)
      decreases |o.Queue()| - i, StepsOf(o, i) - k
    {
      ProbingFacts(o, x, i, k);
      var found := RecordedDescendants(x, o.ev.roots);
      var c := found.value;
      ProbedPlan(o, x, i, k, c);
      if PlansDiffer(o.At(i).db, Rescanned(x, o.p, c), o.p, o.Queue()[i]) {
        return Some(Flip(x, c, i));
      }
      if k < StepsOf(o, i) {
        x := DieNext(o, x, i, k, c);
        k := k + 1;
      } else if i + 1 < |o.Queue()| {
        x := DieTurn(o, x, i, c);
        i, k := i + 1, 0;
      } else {
        AllHold(o, x, i, c);
        return None;
      }
    }
  }

  lemma ProbedPlan(o: Origin, x: Db, i: nat, k: nat, c: seq<Id>)
    requires o.Fresh() && Addressed(o.p) && Regular(o.p) && Rebuilds(o.p, o.ev.policy)
    requires Probing(o, x, i, k) && IsClosure(x, o.ev.roots, c)
    ensures PlansDiffer(o.At(i).db, Rescanned(x, o.p, c), o.p, o.Queue()[i]) <==> !Agrees(o, i, Rescanned(x, o.p, c))
    ensures o.Firm() ==> Agrees(o, i, Rescanned(x, o.p, c))
    ensures Handed(o, i, x) && Kept(o.db, x, o.p, o.ev.key, o.closure)
    ensures var b, t := o.At(i).db, o.Queue()[i];
      PlansDiffer(b, Rescanned(x, o.p, c), o.p, t) ==>
        t in b.derivations && t in x.derivations && x.derivations[t] == b.derivations[t]
  {
    hide WalkTo, TargetsOf, StepsOf, Kept, HoldsUpTo, Good, Agrees, Rescanned, IsClosure, Addressed, Regular,
      PlanFor, Begun, Unshaken;
    DifferIff(o, i, Rescanned(x, o.p, c));
    AtSteady(o, i);
    if o.Queue()[i] in o.At(i).db.derivations {
      ReheardPlan(o.At(i).db, x, o.p, o.Queue()[i], k);
    }
    if o.Firm() {
      FirmAgrees(o, i, k, x, c);
    }
  }

  lemma AllHold(o: Origin, x: Db, i: nat, c: seq<Id>)
    requires o.Fresh() && Addressed(o.p) && Rebuilds(o.p, o.ev.policy)
    requires i + 1 == |o.Queue()| && Probing(o, x, i, StepsOf(o, i))
    requires IsClosure(x, o.ev.roots, c) && Agrees(o, i, Rescanned(x, o.p, c))
    ensures o.Firm()
  {
    hide WalkTo, TargetsOf, StepsOf, Kept, Good, Come, Agrees, Rescanned, IsClosure, Addressed;
    HoldsOn(o, i, x, c);
  }

  // ----- and what it means for the end

  /** The digest that names a successor covers the two lists of the plan, sorted. */
  ghost predicate Named(p: Params) {
    forall t, a, b :: (p.successor)(t, a) == (p.successor)(t, b) ==>
      Elements(a.clean) == Elements(b.clean) && Elements(a.excluded) == Elements(b.excluded)
  }

  /** Plans over one pool keep its order, so they are the same if their lists have the
      same members. */
  lemma SameLists(a: Db, b: Db, now: int, t: Id)
    requires t in a.derivations && t in b.derivations && a.derivations[t] == b.derivations[t]
    requires Elements(PlanFor(a, now, t).clean) == Elements(PlanFor(b, now, t).clean)
    requires Elements(PlanFor(a, now, t).excluded) == Elements(PlanFor(b, now, t).excluded)
    ensures PlanFor(a, now, t) == PlanFor(b, now, t)
  {
    hide Screen, Pool;
    var pool := Pool(a.derivations[t]);
    var f, g := (s: Id) => Screen(a, now, s), (s: Id) => Screen(b, now, s);
    forall s | s in pool ensures f(s) == g(s) {
      assert s in Elements(Keep(pool, f)) <==> s in Elements(Keep(pool, g));
      assert (s, f(s)) in Elements(Drop(pool, f)) <==> (s, f(s)) in Elements(Drop(pool, g));
    }
    SplitCongruent(pool, f, g);
  }

  /** The attempt of the undisturbed run on its `i`-th target. */
  function Undisturbed(o: Origin, i: nat): Attempt
    requires i < |o.Queue()|
  {
    AttemptOn(o.At(i).db, o.p, o.Queue()[i])
  }

  /** The attempt the survivor makes on the target it plans differently. */
  function Survivor(o: Origin, f: Flip): Attempt
    requires f.target < |o.Queue()|
  {
    AttemptOn(Rescanned(f.left, o.p, f.closure), o.p, o.Queue()[f.target])
  }

  /** A changed plan shows for every target the undisturbed run rebuilds. */
  lemma ChangedPlanShows(o: Origin, f: Flip)
    requires Named(o.p) && Flips(o, f) && Undisturbed(o, f.target).Passes?
    ensures Survivor(o, f) != Undisturbed(o, f.target)
  {
    hide WalkTo, TargetsOf, PlanFor, Swept, Kept, IsClosure, Handed;
    var b, r, t := o.At(f.target).db, Rescanned(f.left, o.p, f.closure), o.Queue()[f.target];
    if Survivor(o, f) == Undisturbed(o, f.target) {
      SameLists(r, b, o.p.now, t);
    }
  }

  /** Either no series of deaths changes the end of the run (`CompareRuns`), or there is
      one whose survivor plans some target differently; and if the undisturbed run
      rebuilds that target, or the attempt on it is otherwise another one, the survivor
      ends differently. */
  method DeathsMatter(o: Origin) returns (one: Result<Event>, flip: Option<Flip>, many: Result<Event>)
    requires o.Fresh() && Addressed(o.p) && Regular(o.p) && Named(o.p) && o.ev.roots != []
    ensures one.Ok? && SummaryOf(one.value) == o.End()
    ensures flip.None? <==> o.Firm()
    ensures flip.Some? ==> Flips(o, flip.value) && many.Ok?
    ensures flip.Some? ==>
              SummaryOf(many.value) == Outcome(flip.value.left, o.p, flip.value.closure, flip.value.left.events[o.ev.key])
    ensures flip.Some? ==>
              var a := Undisturbed(o, flip.value.target);
              a.Passes? || Survivor(o, flip.value) != a ==> SummaryOf(many.value) != SummaryOf(one.value)
  {
    hide WalkTo, TargetsOf, Good, Kept, Rescanned, IsClosure, Stuck, Addressed, Regular, Named, PlansDiffer,
      Outcome, AttemptOn;
    OriginIs(o);
    one := RunUndisturbed(o.db, o.p, o.ev.key, o.closure);
    many := one;
    flip := Probe(o);
    if flip.Some? {
      var f := flip.value;
      FlipGoing(o, f);
      many := RunUndisturbed(f.left, o.p, o.ev.key, o.closure);
      if Undisturbed(o, f.target).Passes? {
        ChangedPlanShows(o, f);
      }
      if Survivor(o, f) != Undisturbed(o, f.target) {
        EndsDiffer(o, f.target, f.left, f.closure);
      }
    }
  }

  lemma FlipGoing(o: Origin, f: Flip)
    requires o.Fresh() && Flips(o, f)
    ensures Good(f.left, o.p, o.ev.key, o.closure)
    ensures var ev := f.left.events[o.ev.key]; ev.roots == o.ev.roots && !Stuck(o.p, ev.state)
  {
    hide WalkTo, TargetsOf, PlansDiffer, IsClosure, Good, Kept;
    KeptGoing(o.db, f.left, o.p, o.ev.key, o.closure);
  }
}
