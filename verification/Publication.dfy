/** What a published successor stands on, and that later work of the same run leaves
    it standing. */
module Publication {
  import opened Domain
  import opened Store
  import opened Planner
  import opened RevocationSpec
  import opened Attempts
  import opened Frames
  import opened TrackSteps

  // ----- the moment of publication

  /** Whatever attempt publishes a successor: every support it was built from existed,
      carried no replay-confirmed edge, was either free of quarantine or waived, and
      was neither revoked nor quarantined, which a waiver cannot override. */
  lemma PublishedSupportsAreSafe(db: Db, p: Params, t: Id, s: Id)
    requires AttemptOn(db, p, t).Passes? && s in CleanOf(db, p, t)
    ensures s in Pool(db.derivations[t]) && s in db.artifacts && !db.HasConfirmedIn(s)
    ensures db.artifacts[s].status !in {Revoked, Status.Quarantined}
    ensures db.RowActive(s) ==> db.Waived(s, {RebuildSupport}, p.now)
    ensures s != AttemptOn(db, p, t).successor
  {
  }

  /** A waiver lets a quarantined support into the plan, and the suite then fails it:
      nothing is ever published on top of a quarantined or revoked support. */
  lemma WaivedSupportFails(db: Db, p: Params, t: Id, s: Id)
    requires !AttemptOn(db, p, t).Unavailable? && s in Pool(db.derivations[t])
    requires s in db.artifacts && db.artifacts[s].status == Status.Quarantined
    requires db.Waived(s, {RebuildSupport}, p.now) && !db.HasConfirmedIn(s)
    ensures s in CleanOf(db, p, t) && AttemptOn(db, p, t).Fails?
  {
    var clean := CleanOf(db, p, t);
    assert Screen(db, p.now, s) == Clean;
    assert s in clean && Forbidden(db, s);
  }

  /** The store after a successful attempt: the successor is served and stands for
      the original, and every recorded support of it is free of quarantine. */
  lemma PublishedStore(db: Db, p: Params, key: Key, t: Id, e: Edge)
    requires AttemptOn(db, p, t).Passes? && AttemptOn(db, p, t).successor != t
    ensures var n, b := AttemptOn(db, p, t).successor, Attempted(db, p, key, t);
      && n in b.artifacts && b.artifacts[n].status == Active && !b.RowActive(n)
      && t in b.artifacts && b.artifacts[t].status == Superseded && b.artifacts[t].supersededBy == Some(n)
      && (e in b.recorded && e.relation.CleanSupport? && e.target == n ==> !Forbidden(b, e.source))
  {
    hide BuiltOn, PublishedOn, PlanFor;
    AttemptedIs(db, p, key, t);
    var n, clean := SuccessorOf(db, p, t), CleanOf(db, p, t);
    var b := BuiltOn(db, key, t, n, clean);
    BuiltFacts(db, key, t, n, clean);
    PublishedIs(b, t, n);
    PublishedForbids(b, t, n, e.source);
  }

  lemma PublishedForbids(b: Db, t: Id, n: Id, s: Id)
    requires t in b.artifacts && n in b.artifacts && t != n
    ensures Forbidden(PublishedOn(b, t, n), s) ==> Forbidden(b, s)
    ensures PublishedOn(b, t, n).recorded == b.recorded
  {
    hide PublishedOn;
    PublishedIs(b, t, n);
    var c := PublishedOn(b, t, n);
    if s in b.artifacts && s != t && s != n {
      assert SameServing(b.artifacts[s], c.artifacts[s]);
    }
  }

  // ----- and afterwards

  /** The successors of the targets are no targets themselves, nothing the targets could
      be rebuilt from, and belong to one target each. */
  ghost predicate Unrelated(db: Db, p: Params, q: seq<Id>) {
    && (forall t, plan :: t in q ==> (p.successor)(t, plan) !in q)
    && (forall t, plan, x :: t in q && x in q && x in db.derivations ==> (p.successor)(t, plan) !in Pool(db.derivations[x]))
    && (forall t, plan, t', plan' :: t != t' ==> (p.successor)(t, plan) != (p.successor)(t', plan'))
  }

  ghost predicate HeirOf(p: Params, r: Rebuilt) {
    exists plan :: r.successor == (p.successor)(r.original, plan)
  }

  /** The successor is served, the original superseded by it, and no support it was built
      from is revoked or quarantined. */
  ghost predicate PublishedAt(db: Db, p: Params, q: seq<Id>, r: Rebuilt) {
    && r.original in q && HeirOf(p, r)
    && r.original in db.artifacts && db.artifacts[r.original].status == Superseded
    && db.artifacts[r.original].supersededBy == Some(r.successor)
    && r.successor in db.artifacts && db.artifacts[r.successor].status == Active && !db.RowActive(r.successor)
    && r.original in db.derivations
    && forall s :: s in Pool(db.derivations[r.original]) && Edge(s, r.successor, CleanSupport) in db.recorded ==> !Forbidden(db, s)
  }

  ghost predicate AllPublished(db: Db, p: Params, ev: Event) {
    Unrelated(db, p, ev.quarantined) ==> forall r :: r in ev.rebuilt ==> PublishedAt(db, p, ev.quarantined, r)
  }

  ghost predicate PublishedKept(a: Db, b: Db, p: Params, key: Key) {
    key in a.events && key in b.events && AllPublished(a, p, a.events[key]) ==> AllPublished(b, p, b.events[key])
  }

  /** Only the serving tables, derivations and recorded edges matter. */
  lemma PublishedReads(a: Db, b: Db, p: Params, ev: Event, ev': Event)
    requires AllPublished(a, p, ev) && ev'.quarantined == ev.quarantined && ev'.rebuilt == ev.rebuilt
    requires a.artifacts == b.artifacts && a.quarantine == b.quarantine && a.derivations == b.derivations && a.recorded == b.recorded
    ensures AllPublished(b, p, ev')
  {
    hide Forbidden, Pool;
    if Unrelated(b, p, ev'.quarantined) {
      UnrelatedReads(a, b, p, ev.quarantined);
      forall r | r in ev'.rebuilt ensures PublishedAt(b, p, ev'.quarantined, r) {
        assert PublishedAt(a, p, ev.quarantined, r);
        forall s ensures Forbidden(a, s) == Forbidden(b, s) {
          ForbiddenReads(a, b, s);
        }
      }
    }
  }

  lemma UnrelatedReads(a: Db, b: Db, p: Params, q: seq<Id>)
    requires forall t :: t in q ==> (t in a.derivations <==> t in b.derivations)
    requires forall t :: t in q && t in a.derivations ==> a.derivations[t] == b.derivations[t]
    ensures Unrelated(a, p, q) <==> Unrelated(b, p, q)
  {
    hide Pool;
  }

  lemma ForbiddenReads(a: Db, b: Db, s: Id)
    requires a.artifacts == b.artifacts
    ensures Forbidden(a, s) == Forbidden(b, s)
  {
  }

  lemma NothingPublished(db: Db, p: Params, ev: Event)
    requires ev.rebuilt == []
    ensures AllPublished(db, p, ev)
  {
  }

  /** Work on another target disturbs no publication. */
  lemma PublishedWork(a: Db, b: Db, p: Params, q: seq<Id>, t: Id, plan: Plan, clean: seq<Id>, published: bool, r: Rebuilt)
    requires Framed(a, b, t, (p.successor)(t, plan), clean, published) && Unrelated(a, p, q)
    requires t in q && r.original != t && PublishedAt(a, p, q, r)
    ensures PublishedAt(b, p, q, r)
  {
    hide Links, Pool, Placed, Forbidden;
    var n := (p.successor)(t, plan);
    var k: nat :| CutAt(a, b, t, n, clean, k);
    HeirSame(a, b, t, n, clean, k);
    HeirApart(p, q, t, plan, r);
    PlacedStands(a, b, t, n, published, r.original);
    PlacedStands(a, b, t, n, published, r.successor);
    forall s | s in Pool(b.derivations[r.original]) && Edge(s, r.successor, CleanSupport) in b.recorded ensures !Forbidden(b, s) {
      LinksTarget(t, n, clean, Edge(s, r.successor, CleanSupport));
      assert s != n;
      PlacedForbidsNoMore(a, b, t, n, published, s);
    }
  }

  lemma HeirApart(p: Params, q: seq<Id>, t: Id, plan: Plan, r: Rebuilt)
    requires forall t, plan :: t in q ==> (p.successor)(t, plan) !in q
    requires forall t, plan, t', plan' :: t != t' ==> (p.successor)(t, plan) != (p.successor)(t', plan')
    requires t in q && r.original in q && r.original != t && HeirOf(p, r)
    ensures r.successor != (p.successor)(t, plan) && r.original != (p.successor)(t, plan) && r.successor != t
  {
    var own :| r.successor == (p.successor)(r.original, own);
  }

  lemma PlacedStands(a: Db, b: Db, t: Id, n: Id, published: bool, id: Id)
    requires Placed(a, b, t, n, published) && id in a.artifacts && id != t && id != n
    ensures id in b.artifacts && SameServing(a.artifacts[id], b.artifacts[id]) && b.RowActive(id) == a.RowActive(id)
  {
  }

  lemma PlacedForbidsNoMore(a: Db, b: Db, t: Id, n: Id, published: bool, s: Id)
    requires Placed(a, b, t, n, published) && s != n && !Forbidden(a, s)
    ensures !Forbidden(b, s)
  {
    if s in b.artifacts && s != t {
      assert SameServing(a.artifacts[s], b.artifacts[s]);
    }
  }

  lemma LinksTarget(t: Id, n: Id, clean: seq<Id>, e: Edge)
    ensures e in Links(t, n, clean) && e.relation.CleanSupport? ==> e.target == n
  {
  }

  /** A build or a publication, whole or cut short. */
  lemma WorkPublished(a: Db, b: Db, p: Params, ev: Event, ev': Event, t: Id, clean: seq<Id>, published: bool)
    requires AllPublished(a, p, ev) && ev'.quarantined == ev.quarantined && ev'.rebuilt == ev.rebuilt
    requires t in ev.quarantined && t !in Originals(ev.rebuilt) && t in a.derivations
    requires Framed(a, b, t, SuccessorOf(a, p, t), clean, published)
    ensures AllPublished(b, p, ev')
  {
    hide Framed, PlanFor, Unrelated;
    var q := ev.quarantined;
    if Unrelated(b, p, q) {
      FramedUnrelated(a, b, p, q, t, PlanFor(a, p.now, t), clean, published);
      forall r | r in ev'.rebuilt ensures PublishedAt(b, p, q, r) {
        assert r.original in Originals(ev.rebuilt);
        PublishedWork(a, b, p, q, t, PlanFor(a, p.now, t), clean, published, r);
      }
    }
  }

  lemma FramedUnrelated(a: Db, b: Db, p: Params, q: seq<Id>, t: Id, plan: Plan, clean: seq<Id>, published: bool)
    requires Framed(a, b, t, (p.successor)(t, plan), clean, published) && t in q && Unrelated(b, p, q)
    ensures Unrelated(a, p, q)
  {
    hide Links, Placed, Pool;
    var n := (p.successor)(t, plan);
    var k: nat :| CutAt(a, b, t, n, clean, k);
    HeirSame(a, b, t, n, clean, k);
    UnrelatedReads(a, b, p, q);
  }

  /** Recording a successful attempt adds one publication. */
  lemma RecordPublished(a: Db, b: Db, p: Params, key: Key, ev: Event, t: Id)
    requires AllPublished(a, p, ev) && t in ev.quarantined && t !in Originals(ev.rebuilt)
    requires Tables(a) && SameTables(Attempted(a, p, key, t), b)
    ensures AllPublished(b, p, WithAttempt(ev, t, AttemptOn(a, p, t)))
  {
    hide AttemptOn, Attempted, PlanFor, Framed, Unrelated, PublishedAt;
    var att := AttemptOn(a, p, t);
    var ev' := WithAttempt(ev, t, att);
    if att.Unavailable? {
      UnavailableStays(a, p, key, t);
      PublishedReads(a, b, p, ev, ev');
    } else {
      AttemptedIs(a, p, key, t);
      AttemptedFrame(a, p, key, t);
      var c := Attempted(a, p, key, t);
      WorkPublished(a, c, p, ev, ev, t, CleanOf(a, p, t), att.Passes?);
      PublishedReads(c, b, p, ev, ev);
      if att.Passes? && Unrelated(b, p, ev.quarantined) {
        UnrelatedReads(b, c, p, ev.quarantined);
        OneMorePublished(a, p, key, ev.quarantined, t);
        PublishedCarries(c, b, p, ev.quarantined, Rebuilt(t, att.successor));
        assert forall r :: r in ev'.rebuilt ==> r in ev.rebuilt || r == Rebuilt(t, att.successor);
      }
    }
  }

  lemma PublishedCarries(a: Db, b: Db, p: Params, q: seq<Id>, r: Rebuilt)
    requires PublishedAt(a, p, q, r) && SameTables(a, b)
    ensures PublishedAt(b, p, q, r)
  {
    hide Pool, Forbidden;
    forall s ensures Forbidden(a, s) == Forbidden(b, s) {
      ForbiddenReads(a, b, s);
    }
  }

  lemma OneMorePublished(a: Db, p: Params, key: Key, q: seq<Id>, t: Id)
    requires AttemptOn(a, p, t).Passes? && t in q && Tables(a) && t in a.derivations
    requires Unrelated(Attempted(a, p, key, t), p, q)
    ensures PublishedAt(Attempted(a, p, key, t), p, q, Rebuilt(t, AttemptOn(a, p, t).successor))
  {
    hide AttemptOn, Attempted, PlanFor, Framed, Forbidden, Pool;
    AttemptedIs(a, p, key, t);
    AttemptedFrame(a, p, key, t);
    var n, c, r := SuccessorOf(a, p, t), Attempted(a, p, key, t), Rebuilt(t, AttemptOn(a, p, t).successor);
    assert HeirOf(p, r);
    FramedDerives(a, c, t, n, CleanOf(a, p, t), true);
    PublishedStore(a, p, key, t, Edge(n, n, CleanSupport));
    forall s | s in Pool(c.derivations[t]) && Edge(s, n, CleanSupport) in c.recorded ensures !Forbidden(c, s) {
      PublishedStore(a, p, key, t, Edge(s, n, CleanSupport));
    }
  }

  lemma FramedDerives(a: Db, b: Db, t: Id, n: Id, clean: seq<Id>, published: bool)
    requires Framed(a, b, t, n, clean, published)
    ensures t in b.derivations
  {
    hide Links, Placed;
    var k: nat :| CutAt(a, b, t, n, clean, k);
    HeirSame(a, b, t, n, clean, k);
  }

  // ----- exactly when a later attempt undoes a publication

  /** The attempt on `t` builds nothing over the original or, failing, over the successor
      or one of its supports, and does not replace the successor. */
  predicate Spares(db: Db, p: Params, t: Id, r: Rebuilt)
    requires r.original in db.derivations
  {
    var att := AttemptOn(db, p, t);
    att.Unavailable? || (
      var n := SuccessorOf(db, p, t);
      && n != r.original
      && (att.Passes? ==> t != r.successor)
      && (att.Fails? ==> n != r.successor && !StandsOn(db, n, r)))
  }

  predicate StandsOn(db: Db, s: Id, r: Rebuilt)
    requires r.original in db.derivations
  {
    s in Pool(db.derivations[r.original]) && Edge(s, r.successor, CleanSupport) in db.recorded
  }

  /** The standing of one artifact after an attempt that was not unavailable. */
  lemma StandingAfter(db: Db, p: Params, key: Key, t: Id, id: Id)
    requires Tables(db) && !AttemptOn(db, p, t).Unavailable? && id in db.artifacts && SuccessorOf(db, p, t) != t
    ensures var n, pass, b := SuccessorOf(db, p, t), AttemptOn(db, p, t).Passes?, Attempted(db, p, key, t);
      && id in b.artifacts
      && (id == n ==> b.artifacts[id].status == if pass then Active else Status.Quarantined)
      && (id == n ==> b.RowActive(id) == !pass)
      && (id == t && pass ==> b.artifacts[id].status == Superseded)
      && (id != n && !(id == t && pass) ==> SameServing(db.artifacts[id], b.artifacts[id]))
      && (id != n ==> b.RowActive(id) == db.RowActive(id))
  {
    hide AttemptOn, PlanFor, BuiltOn, PublishedOn, Housed;
    AttemptedIs(db, p, key, t);
    var n, clean := SuccessorOf(db, p, t), CleanOf(db, p, t);
    var b := BuiltOn(db, key, t, n, clean);
    BuiltHolds(db, key, t, n, clean);
    HousedAt(db, key, n, id);
    if AttemptOn(db, p, t).Passes? {
      PublishedIs(b, t, n);
      if id != t && id != n {
        assert SameServing(b.artifacts[id], PublishedOn(b, t, n).artifacts[id]);
      }
    }
  }

  /** Clean-support edges into `x` after an attempt. */
  lemma EdgesAfter(db: Db, p: Params, key: Key, t: Id, s: Id, x: Id)
    requires !AttemptOn(db, p, t).Unavailable?
    ensures t in db.derivations
    ensures var n, b := SuccessorOf(db, p, t), Attempted(db, p, key, t);
      && (Edge(s, x, CleanSupport) in b.recorded <==>
            Edge(s, x, CleanSupport) in db.recorded || (x == n && s in CleanOf(db, p, t)))
      && b.derivations == db.derivations[n := Heir(db, t, CleanOf(db, p, t))]
  {
    hide AttemptOn, PlanFor, BuiltOn, PublishedOn;
    AttemptedIs(db, p, key, t);
    var n, clean := SuccessorOf(db, p, t), CleanOf(db, p, t);
    BuiltHolds(db, key, t, n, clean);
    PublishedIs(BuiltOn(db, key, t, n, clean), t, n);
  }

  lemma PassingClean(db: Db, p: Params, t: Id, s: Id)
    requires AttemptOn(db, p, t).Passes? && s in CleanOf(db, p, t)
    ensures s in db.artifacts && !Forbidden(db, s)
  {
    PublishedSupportsAreSafe(db, p, t, s);
  }

  /** A publication survives an attempt on another target exactly when that attempt
      spares it. */
  lemma PublicationStands(db: Db, p: Params, key: Key, q: seq<Id>, t: Id, r: Rebuilt)
    requires Tables(db) && Addressed(p) && PublishedAt(db, p, q, r) && t != r.original
    ensures PublishedAt(Attempted(db, p, key, t), p, q, r) <==> Spares(db, p, t, r)
  {
    hide AttemptOn, PlanFor, Attempted, Pool, Forbidden, Addressed;
    if AttemptOn(db, p, t).Unavailable? {
      UnavailableStays(db, p, key, t);
    } else {
      var b := Attempted(db, p, key, t);
      EdgesAfter(db, p, key, t, t, t);
      OutsidePool(db, p, t);
      StandingAfter(db, p, key, t, r.original);
      StandingAfter(db, p, key, t, r.successor);
      var n := SuccessorOf(db, p, t);
      if Spares(db, p, t, r) {
        forall s | s in Pool(b.derivations[r.original]) && Edge(s, r.successor, CleanSupport) in b.recorded
          ensures !Forbidden(b, s)
        {
          SparedSupport(db, p, key, t, r, s);
        }
      } else if n != r.original && AttemptOn(db, p, t).Fails? && n != r.successor && StandsOn(db, n, r) {
        EdgesAfter(db, p, key, t, n, r.successor);
        BuiltForbidden(db, p, key, t);
      }
    }
  }

  lemma BuiltForbidden(db: Db, p: Params, key: Key, t: Id)
    requires AttemptOn(db, p, t).Fails? && t in db.derivations
    ensures Forbidden(Attempted(db, p, key, t), SuccessorOf(db, p, t))
  {
    hide AttemptOn, PlanFor, BuiltOn;
    AttemptedIs(db, p, key, t);
    BuiltFacts(db, key, t, SuccessorOf(db, p, t), CleanOf(db, p, t));
  }

  lemma SparedSupport(db: Db, p: Params, key: Key, t: Id, r: Rebuilt, s: Id)
    requires Tables(db) && !AttemptOn(db, p, t).Unavailable? && t in db.derivations && SuccessorOf(db, p, t) != t
    requires r.original in db.derivations && Spares(db, p, t, r)
    requires forall s :: StandsOn(db, s, r) ==> !Forbidden(db, s)
    requires s in Pool(db.derivations[r.original]) && Edge(s, r.successor, CleanSupport) in Attempted(db, p, key, t).recorded
    ensures !Forbidden(Attempted(db, p, key, t), s)
  {
    hide AttemptOn, PlanFor, Attempted, Pool;
    EdgesAfter(db, p, key, t, s, r.successor);
    var b, n := Attempted(db, p, key, t), SuccessorOf(db, p, t);
    if Edge(s, r.successor, CleanSupport) in db.recorded {
      assert StandsOn(db, s, r);
    } else {
      PassingClean(db, p, t, s);
    }
    if s in db.artifacts {
      StandingAfter(db, p, key, t, s);
    } else if s in b.artifacts {
      AttemptedFrame(db, p, key, t);
      NewArtifact(db, b, t, n, CleanOf(db, p, t), AttemptOn(db, p, t).Passes?, s);
      AttemptedIs(db, p, key, t);
      if AttemptOn(db, p, t).Passes? {
        PublishedStore(db, p, key, t, Edge(s, n, CleanSupport));
      }
    }
  }

  lemma NewArtifact(a: Db, b: Db, t: Id, n: Id, clean: seq<Id>, published: bool, s: Id)
    requires Framed(a, b, t, n, clean, published) && s in b.artifacts && s !in a.artifacts
    ensures s == n
  {
    hide CutAt;
  }

  // ----- where the successors of a run come from

  /** Every successor newly listed comes from an attempt that passes on one of these
      stores. */
  ghost predicate Sourced(stores: set<Db>, p: Params, was: Event, now: Event) {
    forall r :: r in now.rebuilt ==> r in was.rebuilt || SourcedFrom(stores, p, r)
  }

  ghost predicate SourcedFrom(stores: set<Db>, p: Params, r: Rebuilt) {
    exists z :: z in stores && AttemptOn(z, p, r.original) == Passes(r.successor)
  }

  lemma SourcedOn(less: set<Db>, more: set<Db>, p: Params, was: Event, now: Event, next: Event)
    requires Sourced(less, p, was, now) && less <= more && next.rebuilt == now.rebuilt
    ensures Sourced(more, p, was, next)
  {
    hide AttemptOn;
    forall r | r in next.rebuilt && r !in was.rebuilt ensures SourcedFrom(more, p, r) {
      assert SourcedFrom(less, p, r);
    }
  }

  lemma NothingSourced(stores: set<Db>, p: Params, event: Event)
    ensures Sourced(stores, p, event, event)
  {
  }

  lemma SourcedFromEvent(stores: set<Db>, p: Params, was: Event, event: Event, now: Event)
    requires Sourced(stores, p, was, now) && was.rebuilt == event.rebuilt
    ensures Sourced(stores, p, event, now)
  {
  }

  lemma SourcedTwice(less: set<Db>, more: set<Db>, p: Params, a: Event, b: Event, c: Event)
    requires Sourced(less, p, a, b) && Sourced(more, p, b, c) && less <= more
    ensures Sourced(more, p, a, c)
  {
    hide AttemptOn;
    forall r | r in c.rebuilt && r !in a.rebuilt ensures SourcedFrom(more, p, r) {
      if r in b.rebuilt {
        assert SourcedFrom(less, p, r);
      }
    }
  }

  /** The successor was built from supports that existed, carried no replay-confirmed
      edge, were free of quarantine or waived, and were neither revoked nor quarantined. */
  ghost predicate BuiltSafely(z: Db, p: Params, r: Rebuilt) {
    && AttemptOn(z, p, r.original) == Passes(r.successor) && r.original in z.derivations
    && forall s :: s in CleanOf(z, p, r.original) ==>
         && s in Pool(z.derivations[r.original]) && s in z.artifacts && !z.HasConfirmedIn(s) && s != r.successor
         && z.artifacts[s].status !in {Revoked, Status.Quarantined} && (z.RowActive(s) ==> z.Waived(s, {RebuildSupport}, p.now))
  }

  /** Every successor an event lists was built safely on one of these stores. */
  ghost predicate AllBuiltSafely(stores: set<Db>, p: Params, ev: Event) {
    forall r :: r in ev.rebuilt ==> exists z :: z in stores && BuiltSafely(z, p, r)
  }

  lemma PassingIsSafe(z: Db, p: Params, r: Rebuilt)
    requires AttemptOn(z, p, r.original) == Passes(r.successor)
    ensures BuiltSafely(z, p, r)
  {
    hide PlanFor;
    AttemptedIs(z, p, 0, r.original);
    forall s | s in CleanOf(z, p, r.original)
      ensures s in Pool(z.derivations[r.original]) && s in z.artifacts && !z.HasConfirmedIn(s) && s != r.successor
      ensures z.artifacts[s].status !in {Revoked, Status.Quarantined} && (z.RowActive(s) ==> z.Waived(s, {RebuildSupport}, p.now))
    {
      PublishedSupportsAreSafe(z, p, r.original, s);
    }
  }

  lemma SourcedSafely(stores: set<Db>, p: Params, was: Event, now: Event)
    requires Sourced(stores, p, was, now) && was.rebuilt == []
    ensures AllBuiltSafely(stores, p, now)
  {
    hide AttemptOn, BuiltSafely;
    forall r | r in now.rebuilt ensures exists z :: z in stores && BuiltSafely(z, p, r) {
      assert SourcedFrom(stores, p, r);
      var z :| z in stores && AttemptOn(z, p, r.original) == Passes(r.successor);
      PassingIsSafe(z, p, r);
    }
  }
}
