/** How far a build or a publication cut short can have got, and why resuming it on
    what it left comes to the same thing. */
module Frames {
  import opened Domain
  import opened Store
  import opened Planner
  import opened RevocationSpec
  import opened Attempts

  // ----- what recovery can see of a build cut short

  /** The snapshot after `k` steps of a build: the artifact, its derivation, and then
      its edges one by one. */
  function Cut(s: Snapshot, n: Id, d: Derivation, links: seq<Edge>, k: nat): Snapshot
    requires k <= |links| + 2
  {
    if k == 0 then s
    else
      var order := if n in s.order then s.order else s.order + [n];
      if k == 1 then s.(order := order)
      else Snapshot(order, Joined(s.recorded, links[..k - 2]), s.derivations[n := d])
  }

  lemma {:induction false} JoinedCovered(rows: seq<Edge>, links: seq<Edge>)
    requires forall e :: e in links ==> e in rows
    ensures Joined(rows, links) == rows
  {
    if links != [] {
      JoinedCovered(rows, links[..|links| - 1]);
    }
  }

  lemma {:induction false} JoinedTwice(rows: seq<Edge>, links: seq<Edge>, i: nat, j: nat)
    requires i <= |links| && j <= |links|
    ensures Joined(Joined(rows, links[..i]), links[..j]) == Joined(rows, links[..if i < j then j else i])
    decreases j
  {
    hide Joined;
    if j <= i {
      JoinedBefore(rows, links, i, j);
    } else {
      JoinedTwice(rows, links, i, j - 1);
      JoinedLast(Joined(rows, links[..i]), links, j);
      JoinedLast(rows, links, j);
    }
  }

  lemma JoinedBefore(rows: seq<Edge>, links: seq<Edge>, i: nat, j: nat)
    requires j <= i <= |links|
    ensures Joined(Joined(rows, links[..i]), links[..j]) == Joined(rows, links[..i])
  {
    forall e | e in links[..j] ensures e in links[..i] {
      var m :| 0 <= m < j && links[m] == e;
      assert links[..i][m] == e;
    }
    JoinedCovered(Joined(rows, links[..i]), links[..j]);
  }

  lemma JoinedLast(rows: seq<Edge>, links: seq<Edge>, j: nat)
    requires 0 < j <= |links|
    ensures var r := Joined(rows, links[..j - 1]);
      Joined(rows, links[..j]) == if links[j - 1] in r then r else r + [links[j - 1]]
  {
    assert links[..j][..j - 1] == links[..j - 1];
  }

  lemma CutTwice(s: Snapshot, n: Id, d: Derivation, links: seq<Edge>, k: nat, m: nat)
    requires k <= |links| + 2 && m <= |links| + 2
    ensures Cut(Cut(s, n, d, links, k), n, d, links, m) == Cut(s, n, d, links, if k < m then m else k)
  {
    hide Joined;
    if k < 2 {
    } else if m < 2 {
    } else {
      CutTwiceLate(s, n, d, links, k, m);
    }
  }

  lemma CutTwiceLate(s: Snapshot, n: Id, d: Derivation, links: seq<Edge>, k: nat, m: nat)
    requires 2 <= k <= |links| + 2 && 2 <= m <= |links| + 2
    ensures Cut(Cut(s, n, d, links, k), n, d, links, m) == Cut(s, n, d, links, if k < m then m else k)
  {
    hide Joined;
    JoinedTwice(s.recorded, links, k - 2, m - 2);
    var c := Cut(s, n, d, links, k);
    assert n in c.order && c.recorded == Joined(s.recorded, links[..k - 2]) && c.derivations == s.derivations[n := d];
    var e := Cut(c, n, d, links, m);
    assert e.order == c.order;
    assert e.derivations == c.derivations;
    assert e.recorded == Joined(c.recorded, links[..m - 2]);
  }

  ghost predicate CutAt(a: Db, b: Db, t: Id, n: Id, clean: seq<Id>, k: nat)
    requires t in a.derivations
  {
    k <= |Links(t, n, clean)| + 2 && SnapshotOf(b) == Cut(SnapshotOf(a), n, Heir(a, t, clean), Links(t, n, clean), k)
  }

  // ----- the footprint of one attempt

  /** The artifacts and rows a rebuild of `t` as `n` may have changed: those of `n`, and
      `t` itself by being superseded, which is the last step of publication. */
  ghost predicate Placed(a: Db, b: Db, t: Id, n: Id, published: bool) {
    && (forall id :: id in b.artifacts <==> id in a.artifacts || (id == n && n in b.order))
    && (forall id :: id in a.artifacts && id != n && id != t ==> SameServing(a.artifacts[id], b.artifacts[id]))
    && (t in a.artifacts && t != n ==>
          SameServing(a.artifacts[t], b.artifacts[t]) ||
          (published && b.artifacts[t].status == Superseded && b.artifacts[t].supersededBy == Some(n)))
    && (n in b.artifacts && n != t ==>
          b.artifacts[n].supersededBy == if n in a.artifacts then a.artifacts[n].supersededBy else None)
    && (forall id :: id != n ==> b.RowActive(id) == a.RowActive(id))
  }

  ghost predicate Framed(a: Db, b: Db, t: Id, n: Id, clean: seq<Id>, published: bool) {
    && t in a.derivations
    && a.waivers == b.waivers
    && Placed(a, b, t, n, published)
    && exists k: nat :: CutAt(a, b, t, n, clean, k)
  }

  /** A stretch of one attempt within one call: evidence, events and logs are left alone. */
  ghost predicate Worked(a: Db, b: Db, t: Id, n: Id, clean: seq<Id>, published: bool) {
    && b == a.(order := b.order, artifacts := b.artifacts, quarantine := b.quarantine,
               derivations := b.derivations, recorded := b.recorded)
    && Framed(a, b, t, n, clean, published)
  }

  /** As far as any later step can tell, the same serving state and lineage. */
  ghost predicate Like(a: Db, b: Db) {
    && SnapshotOf(a) == SnapshotOf(b) && a.waivers == b.waivers
    && (forall id :: id in b.artifacts <==> id in a.artifacts)
    && (forall id :: id in a.artifacts ==> SameServing(a.artifacts[id], b.artifacts[id]))
    && (forall id :: b.RowActive(id) == a.RowActive(id))
  }

  lemma LikeFramed(a: Db, b: Db, t: Id, n: Id, clean: seq<Id>)
    requires Like(a, b) && t in a.derivations && Tables(a)
    ensures Framed(a, b, t, n, clean, false)
  {
    hide Links;
    assert CutAt(a, b, t, n, clean, 0);
  }

  lemma HeirSame(a: Db, b: Db, t: Id, n: Id, clean: seq<Id>, k: nat)
    requires t in a.derivations && CutAt(a, b, t, n, clean, k)
    ensures t in b.derivations && Heir(b, t, clean) == Heir(a, t, clean)
    ensures forall id :: id != n ==> (id in a.derivations <==> id in b.derivations)
    ensures forall id :: id != n && id in a.derivations ==> a.derivations[id] == b.derivations[id]
    ensures forall id :: id in b.order <==> id in a.order || (id == n && n in b.order)
    ensures forall e :: e in a.recorded ==> e in b.recorded
    ensures forall e :: e in b.recorded ==> e in a.recorded || e in Links(t, n, clean)
  {
    hide Links;
  }

  lemma FramedTwice(a: Db, b: Db, c: Db, t: Id, n: Id, clean: seq<Id>, x: bool, y: bool)
    requires Framed(a, b, t, n, clean, x) && Framed(b, c, t, n, clean, y)
    requires Tables(a)
    ensures Framed(a, c, t, n, clean, x || y)
  {
    hide Placed, Links, Cut;
    var k: nat :| CutAt(a, b, t, n, clean, k);
    var m: nat :| CutAt(b, c, t, n, clean, m);
    HeirIs(a, b, t, n, clean, k);
    CutTwice(SnapshotOf(a), n, Heir(a, t, clean), Links(t, n, clean), k, m);
    assert CutAt(a, c, t, n, clean, if k < m then m else k);
    OrderGrows(b, c, t, n, clean, m);
    PlacedTwice(a, b, c, t, n, x, y);
  }

  lemma HeirIs(a: Db, b: Db, t: Id, n: Id, clean: seq<Id>, k: nat)
    requires t in a.derivations && CutAt(a, b, t, n, clean, k)
    ensures t in b.derivations && Heir(b, t, clean) == Heir(a, t, clean)
  {
    hide Links, Joined;
  }

  lemma OrderGrows(a: Db, b: Db, t: Id, n: Id, clean: seq<Id>, k: nat)
    requires t in a.derivations && CutAt(a, b, t, n, clean, k)
    ensures n in a.order ==> n in b.order
  {
    hide Links, Joined;
  }

  lemma PlacedTwice(a: Db, b: Db, c: Db, t: Id, n: Id, x: bool, y: bool)
    requires Placed(a, b, t, n, x) && Placed(b, c, t, n, y) && Tables(a)
    requires n in b.order ==> n in c.order
    ensures Placed(a, c, t, n, x || y)
  {
    forall id | id in a.artifacts && id != n && id != t ensures SameServing(a.artifacts[id], c.artifacts[id]) {
      assert SameServing(a.artifacts[id], b.artifacts[id]) && SameServing(b.artifacts[id], c.artifacts[id]);
    }
    forall id ensures id in c.artifacts <==> id in a.artifacts || (id == n && n in c.order) {
      assert id in b.artifacts <==> id in a.artifacts || (id == n && n in b.order);
      assert id in c.artifacts <==> id in b.artifacts || (id == n && n in c.order);
    }
  }

  lemma FramedTables(a: Db, b: Db, t: Id, n: Id, clean: seq<Id>, published: bool)
    requires Framed(a, b, t, n, clean, published) && Tables(a)
    ensures Tables(b)
  {
    hide Links, Joined;
    var k: nat :| CutAt(a, b, t, n, clean, k);
  }

  // ----- the commits of a build, from its start

  lemma NoFrame(a: Db, t: Id, n: Id, clean: seq<Id>)
    requires t in a.derivations && Tables(a)
    ensures Worked(a, a, t, n, clean, false)
  {
    hide Links;
    assert CutAt(a, a, t, n, clean, 0);
  }

  /** The steps that house the successor. */
  lemma HouseFrames(a: Db, key: Key, t: Id, n: Id, clean: seq<Id>)
    requires t in a.derivations && Tables(a)
    ensures Worked(a, a.WithArtifact(n), t, n, clean, false)
    ensures Worked(a, a.WithArtifact(n).WithRow(n, key), t, n, clean, false)
    ensures Worked(a, Housed(a, key, n), t, n, clean, false)
  {
    hide Placed, Housed;
    IngestPlaced(a, key, t, n);
    HousedIs(a, key, n);
    var b := a.WithArtifact(n);
    HouseFrame(a, b, t, n, clean);
    HouseFrame(a, b.WithRow(n, key), t, n, clean);
    HouseFrame(a, Housed(a, key, n), t, n, clean);
  }

  /** Only the standing of `n` differs. */
  lemma OneArtifact(a: Db, b: Db, t: Id, n: Id, x: Artifact, published: bool)
    requires Tables(a) && n in b.order && b.artifacts == a.artifacts[n := x]
    requires x.supersededBy == if n in a.artifacts then a.artifacts[n].supersededBy else None
    requires forall id :: id != n ==> b.RowActive(id) == a.RowActive(id)
    ensures Placed(a, b, t, n, published)
  {
  }

  lemma IngestPlaced(a: Db, key: Key, t: Id, n: Id)
    requires Tables(a)
    ensures var b := a.WithArtifact(n);
      && b == a.(order := b.order, artifacts := b.artifacts)
      && b.order == (if n in a.order then a.order else a.order + [n])
      && Placed(a, b, t, n, false) && Placed(a, b.WithRow(n, key), t, n, false) && Placed(a, Housed(a, key, n), t, n, false)
      && Housed(a, key, n).order == b.order
  {
    hide Placed, Tables;
    var x := if n in a.artifacts then a.artifacts[n] else Artifact(Active, None, None);
    IngestIs(a, n, x);
    var b := a.WithArtifact(n);
    var c := b.WithRow(n, key);
    var h := Housed(a, key, n);
    assert h.artifacts == b.artifacts[n := x.(status := Status.Quarantined)];
    assert a.artifacts[n := x][n := x.(status := Status.Quarantined)] == a.artifacts[n := x.(status := Status.Quarantined)];
    OneArtifact(a, b, t, n, x, false);
    OneArtifact(a, c, t, n, x, false);
    OneArtifact(a, h, t, n, x.(status := Status.Quarantined), false);
  }

  lemma IngestIs(a: Db, n: Id, x: Artifact)
    requires Tables(a) && x == if n in a.artifacts then a.artifacts[n] else Artifact(Active, None, None)
    ensures var b := a.WithArtifact(n);
      && b == a.(order := b.order, artifacts := b.artifacts)
      && b.order == (if n in a.order then a.order else a.order + [n]) && n in b.order
      && b.artifacts == a.artifacts[n := x]
  {
  }

  lemma HouseFrame(a: Db, b: Db, t: Id, n: Id, clean: seq<Id>)
    requires t in a.derivations && Placed(a, b, t, n, false)
    requires b == a.(order := b.order, artifacts := b.artifacts, quarantine := b.quarantine)
    requires b.order == if n in a.order then a.order else a.order + [n]
    ensures Worked(a, b, t, n, clean, false)
  {
    hide Placed, Links, Joined;
    assert CutAt(a, b, t, n, clean, 1);
  }

  /** The derivation and then the edges. */
  lemma LinkFrame(a: Db, key: Key, t: Id, n: Id, clean: seq<Id>, i: nat)
    requires t in a.derivations && Tables(a) && i <= |Links(t, n, clean)|
    ensures Worked(a, Linked(Housed(a, key, n).WithDerivation(n, Heir(a, t, clean)), Links(t, n, clean)[..i]), t, n, clean, false)
  {
    hide Links, Joined;
    HouseFrames(a, key, t, n, clean);
    var h := Housed(a, key, n);
    var b := Linked(h.WithDerivation(n, Heir(a, t, clean)), Links(t, n, clean)[..i]);
    HousedIs(a, key, n);
    IngestPlaced(a, key, t, n);
    assert CutAt(a, b, t, n, clean, i + 2);
    PlacedSame(a, h, b, t, n, false);
  }

  lemma PlacedSame(a: Db, h: Db, b: Db, t: Id, n: Id, published: bool)
    requires Placed(a, h, t, n, published)
    requires b.artifacts == h.artifacts && b.quarantine == h.quarantine && b.order == h.order
    ensures Placed(a, b, t, n, published)
  {
  }

  /** After `k` steps the snapshot is cut at `k`, and only the successor is touched. */
  lemma PartFrame(a: Db, key: Key, t: Id, n: Id, clean: seq<Id>, k: nat)
    requires t in a.derivations && Tables(a) && k <= |Links(t, n, clean)| + 2
    ensures var b := PartOf(a, key, t, n, clean, k);
      Worked(a, b, t, n, clean, false) && CutAt(a, b, t, n, clean, k)
  {
    hide Links, Joined, Worked, Placed;
    NoFrame(a, t, n, clean);
    HouseFrames(a, key, t, n, clean);
    HousedIs(a, key, n);
    IngestPlaced(a, key, t, n);
    if k >= 2 {
      LinkFrame(a, key, t, n, clean, k - 2);
    }
  }

  lemma BuiltFrame(a: Db, key: Key, t: Id, n: Id, clean: seq<Id>)
    requires t in a.derivations && Tables(a)
    ensures Worked(a, BuiltOn(a, key, t, n, clean), t, n, clean, false)
  {
    hide Worked;
    LinkFrame(a, key, t, n, clean, |Links(t, n, clean)|);
    assert Links(t, n, clean)[..|Links(t, n, clean)|] == Links(t, n, clean);
  }

  // ----- the commits of a publication, from its start

  lemma ServingFrame(b: Db, c: Db, t: Id, n: Id, clean: seq<Id>, published: bool)
    requires t in b.derivations && Tables(b) && n in b.artifacts
    requires c == b.(artifacts := c.artifacts, quarantine := c.quarantine) && Placed(b, c, t, n, published)
    ensures Worked(b, c, t, n, clean, published)
  {
    hide Links, Placed;
    assert CutAt(b, c, t, n, clean, 0);
  }

  lemma ServeFrames(b: Db, t: Id, n: Id, clean: seq<Id>, alias: Option<Alias>)
    requires t in b.derivations && Tables(b) && n in b.artifacts
    ensures Worked(b, b.WithRowOff(n), t, n, clean, true)
    ensures Worked(b, Served(b, n), t, n, clean, true)
    ensures Worked(b, Renamed(Served(b, n), n, alias), t, n, clean, true)
    ensures alias.Some? ==> Worked(b, Served(b, n).WithoutAlias(alias.value), t, n, clean, true)
  {
    hide Worked, Placed, Renamed;
    ServePlaced(b, t, n);
    RenamePlaced(b, t, n, alias);
    ServingFrame(b, b.WithRowOff(n), t, n, clean, true);
    ServingFrame(b, Served(b, n), t, n, clean, true);
    ServingFrame(b, Renamed(Served(b, n), n, alias), t, n, clean, true);
    if alias.Some? {
      ServingFrame(b, Served(b, n).WithoutAlias(alias.value), t, n, clean, true);
    }
  }

  lemma ServePlaced(b: Db, t: Id, n: Id)
    requires Tables(b) && n in b.artifacts
    ensures Placed(b, b.WithRowOff(n), t, n, true)
    ensures Placed(b, Served(b, n), t, n, true)
  {
    hide Placed, Served;
    assert n in b.order;
    ServedIs(b, n);
    RowOffIs(b, n);
    OneArtifact(b, b.WithRowOff(n), t, n, b.artifacts[n], true);
    OneArtifact(b, Served(b, n), t, n, b.artifacts[n].(status := Active), true);
  }

  lemma RowOffIs(b: Db, n: Id)
    requires n in b.artifacts
    ensures var c := b.WithRowOff(n);
      && c == b.(quarantine := c.quarantine) && c.artifacts == b.artifacts[n := b.artifacts[n]]
      && forall id :: id != n ==> c.RowActive(id) == b.RowActive(id)
  {
  }

  lemma RenamePlaced(b: Db, t: Id, n: Id, alias: Option<Alias>)
    requires Tables(b) && n in b.artifacts
    ensures Placed(b, Renamed(Served(b, n), n, alias), t, n, true)
    ensures Renamed(Served(b, n), n, alias) ==
            b.(artifacts := Renamed(Served(b, n), n, alias).artifacts, quarantine := Renamed(Served(b, n), n, alias).quarantine)
    ensures alias.Some? ==> Placed(b, Served(b, n).WithoutAlias(alias.value), t, n, true)
  {
    hide Served, Renamed;
    var c := Served(b, n);
    ServePlaced(b, t, n);
    ServedIs(b, n);
    RenamedIs(c, n, alias);
    PlacedAlias(b, c, Renamed(c, n, alias), t, n);
    if alias.Some? {
      PlacedAlias(b, c, c.WithoutAlias(alias.value), t, n);
    }
  }

  lemma ServedIs(b: Db, n: Id)
    requires n in b.artifacts
    ensures var c := Served(b, n);
      && c == b.(artifacts := b.artifacts[n := b.artifacts[n].(status := Active)], quarantine := c.quarantine)
      && !c.RowActive(n) && forall id :: id != n ==> c.RowActive(id) == b.RowActive(id)
  {
  }

  lemma PlacedAlias(b: Db, c: Db, d: Db, t: Id, n: Id)
    requires Placed(b, c, t, n, true) && d == c.(artifacts := d.artifacts)
    requires forall id :: id in d.artifacts <==> id in c.artifacts
    requires forall id :: id in c.artifacts ==> SameServing(c.artifacts[id], d.artifacts[id])
    ensures Placed(b, d, t, n, true)
  {
    forall id | id in b.artifacts && id != n && id != t ensures SameServing(b.artifacts[id], d.artifacts[id]) {
      assert SameServing(b.artifacts[id], c.artifacts[id]) && SameServing(c.artifacts[id], d.artifacts[id]);
    }
  }

  lemma PublishFrame(b: Db, t: Id, n: Id, clean: seq<Id>)
    requires t in b.derivations && Tables(b) && n in b.artifacts && t in b.artifacts
    ensures Worked(b, PublishedOn(b, t, n), t, n, clean, true)
  {
    hide PublishedOn, Worked;
    PublishedIs(b, t, n);
    PublishPlaced(b, PublishedOn(b, t, n), t, n);
    ServingFrame(b, PublishedOn(b, t, n), t, n, clean, true);
  }

  lemma PublishPlaced(b: Db, c: Db, t: Id, n: Id)
    requires Tables(b) && n in b.artifacts && t in b.artifacts
    requires c == b.(artifacts := c.artifacts, quarantine := c.quarantine)
    requires forall id :: id in c.artifacts <==> id in b.artifacts
    requires forall id :: id in b.artifacts && id != t && id != n ==> SameServing(b.artifacts[id], c.artifacts[id])
    requires t != n ==> c.artifacts[n].status == Active && c.artifacts[n].supersededBy == b.artifacts[n].supersededBy
    requires c.artifacts[t].status == Superseded && c.artifacts[t].supersededBy == Some(n)
    requires forall id :: id != n ==> c.RowActive(id) == b.RowActive(id)
    ensures Placed(b, c, t, n, true)
  {
  }

  /** The whole attempt is one such stretch. */
  lemma AttemptedFrame(a: Db, p: Params, key: Key, t: Id)
    requires Tables(a) && !AttemptOn(a, p, t).Unavailable?
    ensures Worked(a, Attempted(a, p, key, t), t, SuccessorOf(a, p, t), CleanOf(a, p, t), AttemptOn(a, p, t).Passes?)
    ensures Tables(Attempted(a, p, key, t))
  {
    hide PlanFor, AttemptOn, BuiltOn, PublishedOn, Framed;
    AttemptedIs(a, p, key, t);
    var n, clean := SuccessorOf(a, p, t), CleanOf(a, p, t);
    var b := BuiltOn(a, key, t, n, clean);
    BuiltFrame(a, key, t, n, clean);
    FramedTables(a, b, t, n, clean, false);
    if AttemptOn(a, p, t).Passes? {
      BuiltHolds(a, key, t, n, clean);
      PublishFrame(b, t, n, clean);
      FramedTwice(a, b, PublishedOn(b, t, n), t, n, clean, false, true);
      FramedTables(a, PublishedOn(b, t, n), t, n, clean, true);
    }
  }

  // ----- resuming

  predicate Outside(n: Id, t: Id, plan: Plan) {
    n != t && n !in plan.clean && forall e :: e in plan.excluded ==> e.0 != n
  }

  /** Content addressing: the successor's identifier is a digest over the original and
      over every support the plan keeps or excludes, so it is none of them. */
  ghost predicate Addressed(p: Params) {
    forall t, plan :: Outside((p.successor)(t, plan), t, plan)
  }

  lemma OutsidePool(db: Db, p: Params, t: Id)
    requires Addressed(p) && t in db.derivations
    ensures SuccessorOf(db, p, t) != t && SuccessorOf(db, p, t) !in Pool(db.derivations[t])
  {
    var plan := PlanFor(db, p.now, t);
    assert Outside((p.successor)(t, plan), t, plan);
    SplitPartitions(Pool(db.derivations[t]), s => Screen(db, p.now, s));
  }

  /** The two stores agree on the evidence wherever the planner of `t` looks at it. */
  ghost predicate SameEvidence(a: Db, b: Db, now: int, t: Id)
    requires t in a.derivations
  {
    forall s :: s in Pool(a.derivations[t]) && Screen(a, now, s) in {Contaminated, Clean} ==>
      (a.HasConfirmedIn(s) <==> b.HasConfirmedIn(s))
  }

  lemma FramedScreen(a: Db, b: Db, now: int, t: Id, n: Id, published: bool, s: Id)
    requires Placed(a, b, t, n, published) && a.waivers == b.waivers && s != n
    requires t in a.artifacts && a.artifacts[t].status != Revoked
    requires Screen(a, now, s) in {Contaminated, Clean} ==> (a.HasConfirmedIn(s) <==> b.HasConfirmedIn(s))
    ensures Screen(b, now, s) == Screen(a, now, s)
  {
    assert a.Waived(s, {RebuildSupport}, now) == b.Waived(s, {RebuildSupport}, now);
    assert s in b.artifacts <==> s in a.artifacts;
    if s in a.artifacts && s != t {
      assert SameServing(a.artifacts[s], b.artifacts[s]);
    }
  }

  lemma FramedPlan(a: Db, b: Db, p: Params, t: Id, n: Id, clean: seq<Id>, published: bool)
    requires Framed(a, b, t, n, clean, published) && SameEvidence(a, b, p.now, t)
    requires n != t && n !in Pool(a.derivations[t])
    requires t in a.artifacts && a.artifacts[t].status != Revoked
    ensures t in b.derivations && b.derivations[t] == a.derivations[t] && PlanFor(b, p.now, t) == PlanFor(a, p.now, t)
  {
    hide Screen, Placed, Links;
    var k: nat :| CutAt(a, b, t, n, clean, k);
    HeirSame(a, b, t, n, clean, k);
    var pool := Pool(a.derivations[t]);
    forall s | s in pool ensures Screen(b, p.now, s) == Screen(a, p.now, s) {
      FramedScreen(a, b, p.now, t, n, published, s);
    }
    SplitCongruent(pool, s => Screen(b, p.now, s), s => Screen(a, p.now, s));
  }

  /** Planning, building and verifying `t` again, on whatever a crash left of its first
      attempt, comes to the same thing. */
  lemma ResumeSame(a: Db, b: Db, p: Params, t: Id)
    requires Addressed(p) && !AttemptOn(a, p, t).Unavailable? && a.artifacts[t].status != Revoked
    requires Framed(a, b, t, SuccessorOf(a, p, t), CleanOf(a, p, t), AttemptOn(a, p, t).Passes?)
    requires SameEvidence(a, b, p.now, t)
    ensures t in b.derivations && PlanFor(b, p.now, t) == PlanFor(a, p.now, t)
    ensures AttemptOn(b, p, t) == AttemptOn(a, p, t)
  {
    hide Pool, PlanFor, SameEvidence, Links, Placed;
    var n, clean, pub := SuccessorOf(a, p, t), CleanOf(a, p, t), AttemptOn(a, p, t).Passes?;
    OutsidePool(a, p, t);
    FramedPlan(a, b, p, t, n, clean, pub);
    PlacedHolds(a, b, t, n, pub);
    var k: nat :| CutAt(a, b, t, n, clean, k);
    HeirSame(a, b, t, n, clean, k);
    assert forall e: Edge :: e in Links(t, n, clean) && e.relation.CleanSupport? ==> e.source in clean by {
      LinksSupport(t, n, clean);
    }
    forall s | s != t ensures ForbiddenBuilt(b, n, s) == ForbiddenBuilt(a, n, s) {
      PlacedForbids(a, b, t, n, pub, s);
    }
    PlacedForbidsTarget(a, b, t, n, pub);
  }

  lemma LinksSupport(t: Id, n: Id, clean: seq<Id>)
    ensures forall e: Edge :: e in Links(t, n, clean) && e.relation.CleanSupport? ==> e.source in clean
  {
  }

  lemma PlacedHolds(a: Db, b: Db, t: Id, n: Id, published: bool)
    requires Placed(a, b, t, n, published) && t in a.artifacts
    ensures t in b.artifacts
  {
  }

  lemma PlacedForbids(a: Db, b: Db, t: Id, n: Id, published: bool, s: Id)
    requires Placed(a, b, t, n, published) && s != t
    ensures ForbiddenBuilt(b, n, s) == ForbiddenBuilt(a, n, s)
  {
    if s != n && s in a.artifacts {
      assert SameServing(a.artifacts[s], b.artifacts[s]);
    }
  }

  lemma PlacedForbidsTarget(a: Db, b: Db, t: Id, n: Id, published: bool)
    requires Placed(a, b, t, n, published) && t in a.artifacts && t != n
    ensures !published ==> ForbiddenBuilt(b, n, t) == ForbiddenBuilt(a, n, t)
    ensures ForbiddenBuilt(b, n, t) ==> ForbiddenBuilt(a, n, t)
  {
  }

  lemma LikeSame(a: Db, b: Db, p: Params, t: Id)
    requires Addressed(p) && Like(a, b) && Tables(a)
    requires t in a.artifacts && a.artifacts[t].status != Revoked
    requires t in a.derivations ==> SameEvidence(a, b, p.now, t)
    requires AttemptOn(a, p, t).Unavailable?
    ensures AttemptOn(b, p, t) == Unavailable
  {
    hide Pool, PlanFor, SameEvidence;
    if t in a.derivations {
      OutsidePool(a, p, t);
      LikeFramed(a, b, t, SuccessorOf(a, p, t), []);
      FramedPlan(a, b, p, t, SuccessorOf(a, p, t), [], false);
    }
  }

  // ----- and leaves the same store

  /** Alike, but for the standing of `t`. */
  ghost predicate LikeBut(a: Db, b: Db, t: Id) {
    && SnapshotOf(a) == SnapshotOf(b) && a.waivers == b.waivers
    && (forall id :: id in b.artifacts <==> id in a.artifacts)
    && (forall id :: id in a.artifacts && id != t ==> SameServing(a.artifacts[id], b.artifacts[id]))
    && (forall id :: b.RowActive(id) == a.RowActive(id))
  }

  lemma BuiltSnapshot(a: Db, key: Key, t: Id, n: Id, clean: seq<Id>)
    requires t in a.derivations && Tables(a)
    ensures CutAt(a, BuiltOn(a, key, t, n, clean), t, n, clean, |Links(t, n, clean)| + 2)
  {
    hide Links, Joined;
    BuiltHolds(a, key, t, n, clean);
    IngestPlaced(a, key, t, n);
    assert Links(t, n, clean)[..|Links(t, n, clean)|] == Links(t, n, clean);
  }

  lemma BuiltSame(a: Db, b: Db, key: Key, t: Id, n: Id, clean: seq<Id>, published: bool)
    requires Framed(a, b, t, n, clean, published) && Tables(a) && t != n && t in a.artifacts
    ensures t in b.derivations
    ensures LikeBut(BuiltOn(a, key, t, n, clean), BuiltOn(b, key, t, n, clean), t)
    ensures !published ==> Like(BuiltOn(a, key, t, n, clean), BuiltOn(b, key, t, n, clean))
  {
    hide Links, Placed, Cut, BuiltOn, Housed;
    var k: nat :| CutAt(a, b, t, n, clean, k);
    HeirIs(a, b, t, n, clean, k);
    FramedTables(a, b, t, n, clean, published);
    BuiltSnapshot(a, key, t, n, clean);
    BuiltSnapshot(b, key, t, n, clean);
    CutTwice(SnapshotOf(a), n, Heir(a, t, clean), Links(t, n, clean), k, |Links(t, n, clean)| + 2);
    BuiltHolds(a, key, t, n, clean);
    BuiltHolds(b, key, t, n, clean);
    var g, h := BuiltOn(a, key, t, n, clean), BuiltOn(b, key, t, n, clean);
    forall id
      ensures id in h.artifacts <==> id in g.artifacts
      ensures id in g.artifacts && (id != t || !published) ==> SameServing(g.artifacts[id], h.artifacts[id])
      ensures h.RowActive(id) == g.RowActive(id)
    {
      HousedSame(a, b, key, t, n, published, id);
    }
  }

  lemma HousedSame(a: Db, b: Db, key: Key, t: Id, n: Id, published: bool, id: Id)
    requires Placed(a, b, t, n, published) && t != n && Tables(a) && Tables(b)
    ensures var g, h := Housed(a, key, n), Housed(b, key, n);
      && (id in g.artifacts <==> id in h.artifacts)
      && (id in g.artifacts && id != t ==> SameServing(g.artifacts[id], h.artifacts[id]))
      && (id in g.artifacts && !published ==> SameServing(g.artifacts[id], h.artifacts[id]))
      && (h.RowActive(id) == g.RowActive(id))
  {
    hide Housed;
    HousedAt(a, key, n, id);
    HousedAt(b, key, n, id);
    if id != n && id != t && id in a.artifacts {
      assert SameServing(a.artifacts[id], b.artifacts[id]);
    }
  }

  lemma HousedAt(a: Db, key: Key, n: Id, id: Id)
    ensures var h := Housed(a, key, n);
      && n in h.artifacts && (id in h.artifacts <==> id in a.artifacts || id == n)
      && (id in a.artifacts && id != n ==> h.artifacts[id] == a.artifacts[id])
      && h.artifacts[n].status == Status.Quarantined
      && h.artifacts[n].supersededBy == (if n in a.artifacts then a.artifacts[n].supersededBy else None)
      && (h.RowActive(id) <==> a.RowActive(id) || id == n)
  {
  }

  lemma PublishedSame(a: Db, b: Db, t: Id, n: Id)
    requires LikeBut(a, b, t) && t in a.artifacts && n in a.artifacts && t != n
    ensures t in b.artifacts && n in b.artifacts && Like(PublishedOn(a, t, n), PublishedOn(b, t, n))
  {
    hide PublishedOn;
    PublishedIs(a, t, n);
    PublishedIs(b, t, n);
    var c, d := PublishedOn(a, t, n), PublishedOn(b, t, n);
    forall id | id in c.artifacts ensures SameServing(c.artifacts[id], d.artifacts[id]) {
      if id != t && id != n {
        assert SameServing(a.artifacts[id], c.artifacts[id]) && SameServing(b.artifacts[id], d.artifacts[id]);
      }
      assert id != t ==> SameServing(a.artifacts[id], b.artifacts[id]);
    }
  }

  /** The store a resumed attempt leaves is the one the undisturbed attempt leaves, but
      for aliases. */
  lemma ResumeLike(a: Db, b: Db, p: Params, key: Key, t: Id)
    requires Addressed(p) && Tables(a)
    requires !AttemptOn(a, p, t).Unavailable? && a.artifacts[t].status != Revoked
    requires Framed(a, b, t, SuccessorOf(a, p, t), CleanOf(a, p, t), AttemptOn(a, p, t).Passes?)
    requires SameEvidence(a, b, p.now, t)
    ensures Like(Attempted(a, p, key, t), Attempted(b, p, key, t))
  {
    hide PlanFor, AttemptOn, BuiltOn, PublishedOn, Framed, SameEvidence, Like, LikeBut, Attempted, Pool;
    AttemptedIs(a, p, key, t);
    var n, clean := SuccessorOf(a, p, t), CleanOf(a, p, t);
    OutsidePool(a, p, t);
    ResumeSame(a, b, p, t);
    AttemptedIs(b, p, key, t);
    BuiltSame(a, b, key, t, n, clean, AttemptOn(a, p, t).Passes?);
    if AttemptOn(a, p, t).Passes? {
      PublishedSame(BuiltOn(a, key, t, n, clean), BuiltOn(b, key, t, n, clean), t, n);
    } else {
      assert AttemptOn(b, p, t) == AttemptOn(a, p, t);
    }
  }
}
