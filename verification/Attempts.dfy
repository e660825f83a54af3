/** One rebuild attempt, and a queue of them, as functions of the store: the plan the
    code makes there, the successor it builds, the verdict of the suite, and the store
    each attempt leaves behind. */
module Attempts {
  import opened Domain
  import opened Seqs
  import opened Store
  import opened Planner
  import opened RevocationSpec
  import opened RevocationLaws

  // ----- building

  function Supports(clean: seq<Id>, n: Id): (r: seq<Edge>)
    ensures forall e :: e in r <==> e.target == n && e.relation.CleanSupport? && e.source in clean
  {
    if clean == [] then []
    else
      assert clean == clean[..|clean| - 1] + [clean[|clean| - 1]];
      Supports(clean[..|clean| - 1], n) + [Edge(clean[|clean| - 1], n, CleanSupport)]
  }

  /** The recorded edges of a rebuild, in the order they are written. */
  function Links(t: Id, n: Id, clean: seq<Id>): seq<Edge> {
    [Edge(n, t, RebuiltFrom), Edge(n, t, Replaces)] + Supports(clean, n)
  }

  function Joined(rows: seq<Edge>, links: seq<Edge>): (r: seq<Edge>)
    ensures forall e :: e in r <==> e in rows || e in links
  {
    if links == [] then rows
    else
      assert links == links[..|links| - 1] + [links[|links| - 1]];
      var r := Joined(rows, links[..|links| - 1]);
      if links[|links| - 1] in r then r else r + [links[|links| - 1]]
  }

  /** The new artifact, in quarantine from the start. */
  function Housed(db: Db, key: Key, n: Id): Db {
    db.WithArtifact(n).WithRow(n, key).WithStatus(n, Status.Quarantined)
  }

  function Heir(db: Db, t: Id, clean: seq<Id>): Derivation
    requires t in db.derivations
  {
    Derivation(clean, clean, db.derivations[t].recipe)
  }

  function Linked(db: Db, links: seq<Edge>): Db {
    db.(recorded := Joined(db.recorded, links))
  }

  /** The store after a completed build: the successor housed, derived from the clean
      supports, and linked to them and to the original. */
  function BuiltOn(db: Db, key: Key, t: Id, n: Id, clean: seq<Id>): Db
    requires t in db.derivations
  {
    Linked(Housed(db, key, n).WithDerivation(n, Heir(db, t, clean)), Links(t, n, clean))
  }

  // ----- publishing

  function Served(db: Db, n: Id): Db
    requires n in db.artifacts
  {
    db.WithRowOff(n).WithStatus(n, Active)
  }

  function Renamed(db: Db, n: Id, alias: Option<Alias>): Db
    requires n in db.artifacts
  {
    if alias.None? then db else db.WithoutAlias(alias.value).WithAlias(n, alias.value)
  }

  /** The store after a completed publication. */
  function PublishedOn(db: Db, t: Id, n: Id): Db
    requires t in db.artifacts && n in db.artifacts
  {
    Renamed(Served(db, n), n, db.artifacts[t].alias).WithSuccessor(t, n)
  }

  // ----- one attempt

  /** Once built, the successor itself is quarantined. */
  predicate ForbiddenBuilt(db: Db, n: Id, s: Id) {
    s == n || Forbidden(db, s)
  }

  /** One rebuild of `t` exactly as the code carries it out on `db`: the plan it
      makes there, the recipe, and the suite over the supports it finds there. */
  function AttemptOn(db: Db, p: Params, t: Id): Attempt {
    if t !in db.derivations || t !in db.artifacts then Unavailable
    else
      var plan := PlanFor(db, p.now, t);
      var out := (p.recipe)(db.derivations[t], Elements(plan.clean));
      var n := (p.successor)(t, plan);
      if out.None? then Unavailable
      else if (forall k :: k in p.canaryKeys ==> k !in out.value.observed)
              && (forall s :: s in plan.clean ==> !ForbiddenBuilt(db, n, s))
              && (forall e :: e in db.recorded && e.relation.CleanSupport? && e.target == n ==> !ForbiddenBuilt(db, n, e.source))
      then Passes(n)
      else Fails
  }

  /** The successor an attempt builds. */
  function SuccessorOf(db: Db, p: Params, t: Id): Id
    requires t in db.derivations
  {
    (p.successor)(t, PlanFor(db, p.now, t))
  }

  function CleanOf(db: Db, p: Params, t: Id): seq<Id>
    requires t in db.derivations
  {
    PlanFor(db, p.now, t).clean
  }

  /** The store after `k` steps of a build, the next commit still to come: nothing yet,
      the artifact, and then its derivation and its edges one by one. */
  function PartOf(b: Db, key: Key, t: Id, n: Id, clean: seq<Id>, k: nat): Db
    requires t in b.derivations && k <= |Links(t, n, clean)| + 2
  {
    if k == 0 then b
    else if k == 1 then b.WithArtifact(n)
    else Linked(Housed(b, key, n).WithDerivation(n, Heir(b, t, clean)), Links(t, n, clean)[..k - 2])
  }

  /** How many steps recovery could see an attempt take before it publishes. */
  function Positions(b: Db, p: Params, t: Id): nat {
    if AttemptOn(b, p, t).Unavailable? then 0 else |Links(t, SuccessorOf(b, p, t), CleanOf(b, p, t))| + 2
  }

  function Part(b: Db, p: Params, key: Key, t: Id, k: nat): Db
    requires k <= Positions(b, p, t)
  {
    if k == 0 then b else PartOf(b, key, t, SuccessorOf(b, p, t), CleanOf(b, p, t), k)
  }

  /** The store after one attempt, whatever it came to. */
  function Attempted(db: Db, p: Params, key: Key, t: Id): Db {
    var att := AttemptOn(db, p, t);
    if att.Unavailable? then db
    else
      var n := SuccessorOf(db, p, t);
      var b := BuiltOn(db, key, t, n, CleanOf(db, p, t));
      BuiltHolds(db, key, t, n, CleanOf(db, p, t));
      if att.Fails? then b else PublishedOn(b, t, n)
  }

  lemma BuiltHolds(db: Db, key: Key, t: Id, n: Id, clean: seq<Id>)
    requires t in db.derivations
    ensures var b := BuiltOn(db, key, t, n, clean);
      && n in b.artifacts && (t in db.artifacts ==> t in b.artifacts)
      && b == db.(order := b.order, artifacts := b.artifacts, quarantine := b.quarantine,
                  derivations := b.derivations, recorded := b.recorded)
      && b.artifacts == Housed(db, key, n).artifacts && b.quarantine == Housed(db, key, n).quarantine
      && b.order == Housed(db, key, n).order
      && b.derivations == db.derivations[n := Heir(db, t, clean)]
      && b.recorded == Joined(db.recorded, Links(t, n, clean))
  {
    hide Joined, Links;
    HousedIs(db, key, n);
  }

  lemma HousedIs(db: Db, key: Key, n: Id)
    ensures var h := Housed(db, key, n);
      && n in h.artifacts && (forall id :: id in db.artifacts ==> id in h.artifacts)
      && h == db.(order := h.order, artifacts := h.artifacts, quarantine := h.quarantine)
  {
  }

  lemma AttemptedIs(z: Db, p: Params, key: Key, t: Id)
    requires !AttemptOn(z, p, t).Unavailable?
    ensures t in z.derivations && t in z.artifacts
    ensures AttemptOn(z, p, t).Passes? ==> AttemptOn(z, p, t) == Passes(SuccessorOf(z, p, t))
    ensures var b := BuiltOn(z, key, t, SuccessorOf(z, p, t), CleanOf(z, p, t));
      && t in b.artifacts && SuccessorOf(z, p, t) in b.artifacts
      && Attempted(z, p, key, t) == if AttemptOn(z, p, t).Passes? then PublishedOn(b, t, SuccessorOf(z, p, t)) else b
  {
    hide BuiltOn, PlanFor, PublishedOn;
    BuiltHolds(z, key, t, SuccessorOf(z, p, t), CleanOf(z, p, t));
  }

  /** The finished build: the successor is there, in quarantine for the event; it is derived
      from the clean supports by the recipe of the original; it is recorded as rebuilt
      from the original, as replacing it, and as supported by each of them; and nothing
      else in the store has changed. */
  lemma BuiltMeans(a: Db, key: Key, t: Id, n: Id, clean: seq<Id>)
    requires t in a.derivations
    ensures var b := BuiltOn(a, key, t, n, clean);
      && b == a.(order := b.order, artifacts := b.artifacts, quarantine := b.quarantine,
                 derivations := b.derivations, recorded := b.recorded)
      && n in b.artifacts && b.artifacts[n].status == Status.Quarantined
      && n in b.quarantine && b.quarantine[n] == Row(key, true)
      && n in b.derivations && b.derivations[n] == Derivation(clean, clean, a.derivations[t].recipe)
      && (forall id :: id in b.artifacts <==> id in a.artifacts || id == n)
      && (forall id :: id in a.artifacts && id != n ==> b.artifacts[id] == a.artifacts[id])
      && (forall id :: id in b.derivations <==> id in a.derivations || id == n)
      && (forall id :: id in a.derivations && id != n ==> b.derivations[id] == a.derivations[id])
      && b.order == (if n in a.artifacts then a.order else a.order + [n])
      && (forall e :: e in b.recorded <==>
            || e in a.recorded || e == Edge(n, t, RebuiltFrom) || e == Edge(n, t, Replaces)
            || exists s :: s in clean && e == Edge(s, n, CleanSupport))
  {
    hide Joined;
    LinksMean(t, n, clean);
  }

  lemma LinksMean(t: Id, n: Id, clean: seq<Id>)
    ensures forall e :: e in Links(t, n, clean) <==>
              || e == Edge(n, t, RebuiltFrom) || e == Edge(n, t, Replaces)
              || exists s :: s in clean && e == Edge(s, n, CleanSupport)
  {
    forall e ensures e in Supports(clean, n) <==> exists s :: s in clean && e == Edge(s, n, CleanSupport) {
      if e in Supports(clean, n) {
        assert e == Edge(e.source, n, CleanSupport);
      }
    }
  }

  /** How an attempt ends: unavailable without a derivation, an artifact or a recipe for the
      supports the plan keeps; else it passes exactly when no canary key shows in the
      output and neither a support it keeps nor one already recorded is revoked,
      quarantined or the successor itself. */
  lemma AttemptMeans(db: Db, p: Params, t: Id)
    ensures AttemptOn(db, p, t) == Unavailable <==>
              t !in db.derivations || t !in db.artifacts
              || (p.recipe)(db.derivations[t], Elements(PlanFor(db, p.now, t).clean)) == None
    ensures AttemptOn(db, p, t) != Unavailable ==>
              var plan := PlanFor(db, p.now, t);
              var n, out := (p.successor)(t, plan), (p.recipe)(db.derivations[t], Elements(plan.clean)).value;
              var passes :=
                && (forall k :: k in p.canaryKeys ==> k !in out.observed)
                && (forall s :: s in plan.clean || Edge(s, n, CleanSupport) in db.recorded ==>
                      s != n && (s in db.artifacts ==> db.artifacts[s].status != Revoked && db.artifacts[s].status != Status.Quarantined));
              AttemptOn(db, p, t) == if passes then Passes(n) else Fails
  {
    hide PlanFor;
    if AttemptOn(db, p, t) != Unavailable {
      var n := (p.successor)(t, PlanFor(db, p.now, t));
      assert forall e :: e in db.recorded && e.relation.CleanSupport? && e.target == n ==> e == Edge(e.source, n, CleanSupport);
    }
  }

  /** In the finished build exactly the successor has become forbidden, and its
      clean-support edges are those of the plan and those it had before. */
  lemma BuiltFacts(a: Db, key: Key, t: Id, n: Id, clean: seq<Id>)
    requires t in a.derivations
    ensures var b := BuiltOn(a, key, t, n, clean);
      && (forall s :: Forbidden(b, s) <==> ForbiddenBuilt(a, n, s))
      && (forall e: Edge :: e.target == n && e.relation.CleanSupport? ==>
            (e in b.recorded <==> e in a.recorded || e.source in clean))
  {
    hide BuiltOn;
    BuiltHolds(a, key, t, n, clean);
    HousedForbids(a, key, n);
    var b := BuiltOn(a, key, t, n, clean);
    forall s ensures Forbidden(b, s) <==> ForbiddenBuilt(a, n, s) {
      assert Forbidden(b, s) <==> Forbidden(Housed(a, key, n), s);
    }
  }

  lemma HousedForbids(a: Db, key: Key, n: Id)
    ensures forall s :: Forbidden(Housed(a, key, n), s) <==> ForbiddenBuilt(a, n, s)
  {
  }

  lemma SuiteMeans(a: Db, b: Db, n: Id, clean: seq<Id>, keys: seq<int>, out: Output)
    requires forall s :: Forbidden(b, s) <==> ForbiddenBuilt(a, n, s)
    requires forall e: Edge :: e.target == n && e.relation.CleanSupport? ==>
               (e in b.recorded <==> e in a.recorded || e.source in clean)
    ensures SuitePasses(b, n, keys, out) <==>
              && (forall k :: k in keys ==> k !in out.observed)
              && (forall s :: s in clean ==> !ForbiddenBuilt(a, n, s))
              && (forall e :: e in a.recorded && e.relation.CleanSupport? && e.target == n ==> !ForbiddenBuilt(a, n, e.source))
  {
    if forall e :: e in b.recorded ==> !Spoils(b, n, e) {
      forall s | s in clean ensures !ForbiddenBuilt(a, n, s) {
        var e := Edge(s, n, CleanSupport);
        assert e in b.recorded && !Spoils(b, n, e);
      }
      forall e | e in a.recorded && e.relation.CleanSupport? && e.target == n ensures !ForbiddenBuilt(a, n, e.source) {
        assert e in b.recorded && !Spoils(b, n, e);
      }
    }
  }

  // ----- a queue of attempts

  datatype Walk = Walk(db: Db, done: Progress)

  function AttemptNext(w: Walk, p: Params, key: Key, t: Id): Walk {
    if Done(w.done, t) then w
    else Walk(Attempted(w.db, p, key, t), Record(w.done, t, AttemptOn(w.db, p, t)))
  }

  /** The rebuild loop over `todo`: each target not yet dealt with is attempted on the
      store the attempts before it have left. */
  function AttemptAll(w: Walk, p: Params, key: Key, todo: seq<Id>): Walk
    decreases |todo|
  {
    if todo == [] then w
    else AttemptNext(AttemptAll(w, p, key, todo[..|todo| - 1]), p, key, todo[|todo| - 1])
  }

  lemma AttemptAllNext(w: Walk, p: Params, key: Key, q: seq<Id>, i: nat)
    requires i < |q|
    ensures AttemptAll(w, p, key, q[..i + 1]) == AttemptNext(AttemptAll(w, p, key, q[..i]), p, key, q[i])
  {
    assert q[..i + 1][..i] == q[..i];
  }

  // ----- what attempts depend on

  /** Everything but the events and their logs is the same. */
  predicate SameTables(a: Db, b: Db) {
    b == a.(events := b.events, log := b.log)
  }

  lemma SameTablesAttempt(a: Db, b: Db, p: Params, t: Id)
    requires SameTables(a, b)
    ensures t in a.derivations ==> PlanFor(a, p.now, t) == PlanFor(b, p.now, t)
    ensures AttemptOn(a, p, t) == AttemptOn(b, p, t)
  {
    hide PlanFor;
    if t in a.derivations {
      SameTablesPlan(a, b, p.now, t);
    }
  }

  lemma SameTablesPlan(a: Db, b: Db, now: int, t: Id)
    requires SameTables(a, b) && t in a.derivations
    ensures PlanFor(a, now, t) == PlanFor(b, now, t)
  {
    hide Screen;
    forall s ensures Screen(a, now, s) == Screen(b, now, s) {
      SameTablesScreen(a, b, now, s);
    }
    SplitCongruent(Pool(a.derivations[t]), s => Screen(a, now, s), s => Screen(b, now, s));
  }

  lemma SameTablesScreen(a: Db, b: Db, now: int, s: Id)
    requires SameTables(a, b)
    ensures Screen(a, now, s) == Screen(b, now, s)
  {
  }

  lemma SameTablesPart(a: Db, b: Db, p: Params, key: Key, t: Id, k: nat)
    requires SameTables(a, b) && k <= Positions(a, p, t)
    ensures Positions(b, p, t) == Positions(a, p, t)
    ensures SameTables(Part(a, p, key, t, k), Part(b, p, key, t, k))
    ensures Part(b, p, key, t, k).events == b.events
  {
    hide PlanFor, AttemptOn, Links, Joined, Housed;
    SameTablesAttempt(a, b, p, t);
    if !AttemptOn(a, p, t).Unavailable? {
      AttemptedIs(a, p, key, t);
      AttemptedIs(b, p, key, t);
      var n := SuccessorOf(a, p, t);
      HousedIs(b, key, n);
      SameTablesHoused(a, b, key, n);
    }
  }

  lemma SameTablesHoused(a: Db, b: Db, key: Key, n: Id)
    requires SameTables(a, b)
    ensures SameTables(Housed(a, key, n), Housed(b, key, n)) && SameTables(a.WithArtifact(n), b.WithArtifact(n))
    ensures b.WithArtifact(n).events == b.events
  {
  }

  lemma SameTablesAttempted(a: Db, b: Db, p: Params, key: Key, t: Id)
    requires SameTables(a, b)
    ensures SameTables(Attempted(a, p, key, t), Attempted(b, p, key, t))
  {
    hide PlanFor, AttemptOn, BuiltOn, PublishedOn;
    SameTablesAttempt(a, b, p, t);
    if !AttemptOn(a, p, t).Unavailable? {
      AttemptedIs(a, p, key, t);
      AttemptedIs(b, p, key, t);
      var n, clean := SuccessorOf(a, p, t), CleanOf(a, p, t);
      SameTablesBuilt(a, b, key, t, n, clean);
      SameTablesPublished(BuiltOn(a, key, t, n, clean), BuiltOn(b, key, t, n, clean), t, n);
    }
  }

  lemma SameTablesBuilt(a: Db, b: Db, key: Key, t: Id, n: Id, clean: seq<Id>)
    requires SameTables(a, b) && t in a.derivations
    ensures SameTables(BuiltOn(a, key, t, n, clean), BuiltOn(b, key, t, n, clean))
  {
    hide Joined, Links;
  }

  lemma SameTablesPublished(a: Db, b: Db, t: Id, n: Id)
    requires SameTables(a, b) && t in a.artifacts && n in a.artifacts
    ensures SameTables(PublishedOn(a, t, n), PublishedOn(b, t, n))
  {
    hide Renamed;
    SameTablesServed(a, b, n);
    SameTablesRenamed(Served(a, n), Served(b, n), n, a.artifacts[t].alias);
    RenamedIs(Served(a, n), n, a.artifacts[t].alias);
    RenamedIs(Served(b, n), n, a.artifacts[t].alias);
  }

  lemma SameTablesServed(a: Db, b: Db, n: Id)
    requires SameTables(a, b) && n in a.artifacts
    ensures SameTables(Served(a, n), Served(b, n))
  {
  }

  lemma SameTablesRenamed(a: Db, b: Db, n: Id, alias: Option<Alias>)
    requires SameTables(a, b) && n in a.artifacts
    ensures SameTables(Renamed(a, n, alias), Renamed(b, n, alias))
  {
    if alias.Some? {
      assert a.WithoutAlias(alias.value).artifacts == b.WithoutAlias(alias.value).artifacts;
    }
  }

  predicate SameServing(a: Artifact, b: Artifact) {
    a.status == b.status && a.supersededBy == b.supersededBy
  }

  /** Moving an alias changes nothing else about any artifact. */
  lemma RenamedIs(db: Db, n: Id, alias: Option<Alias>)
    requires n in db.artifacts
    ensures var c := Renamed(db, n, alias);
      && c == db.(artifacts := c.artifacts)
      && (forall id :: id in c.artifacts <==> id in db.artifacts)
      && (forall id :: id in db.artifacts ==> SameServing(db.artifacts[id], c.artifacts[id]))
  {
  }

  lemma {:induction false} SameTablesAll(a: Db, b: Db, p: Params, key: Key, g: Progress, todo: seq<Id>)
    requires SameTables(a, b)
    ensures var x, y := AttemptAll(Walk(a, g), p, key, todo), AttemptAll(Walk(b, g), p, key, todo);
      SameTables(x.db, y.db) && x.done == y.done
    decreases |todo|
  {
    hide Attempted, AttemptOn;
    if todo != [] {
      var init, t := todo[..|todo| - 1], todo[|todo| - 1];
      SameTablesAll(a, b, p, key, g, init);
      var x, y := AttemptAll(Walk(a, g), p, key, init), AttemptAll(Walk(b, g), p, key, init);
      SameTablesAttempted(x.db, y.db, p, key, t);
      SameTablesAttempt(x.db, y.db, p, t);
    }
  }

  // ----- laws of the queue

  /** An attempt writes to the artifact, quarantine, derivation and edge tables only. */
  lemma AttemptedRest(db: Db, p: Params, key: Key, t: Id)
    ensures var b := Attempted(db, p, key, t);
      b == db.(order := b.order, artifacts := b.artifacts, quarantine := b.quarantine,
               derivations := b.derivations, recorded := b.recorded)
  {
    hide PlanFor, AttemptOn, BuiltOn, PublishedOn;
    if !AttemptOn(db, p, t).Unavailable? {
      AttemptedIs(db, p, key, t);
      var n := SuccessorOf(db, p, t);
      var b := BuiltOn(db, key, t, n, CleanOf(db, p, t));
      BuiltHolds(db, key, t, n, CleanOf(db, p, t));
      PublishedIs(b, t, n);
    }
  }

  lemma PublishedIs(b: Db, t: Id, n: Id)
    requires t in b.artifacts && n in b.artifacts
    ensures var c := PublishedOn(b, t, n);
      && c == b.(artifacts := c.artifacts, quarantine := c.quarantine)
      && (forall id :: id in c.artifacts <==> id in b.artifacts)
      && (forall id :: id in b.artifacts && id != t && id != n ==> SameServing(b.artifacts[id], c.artifacts[id]))
      && (t != n ==> c.artifacts[n].status == Active && c.artifacts[n].supersededBy == b.artifacts[n].supersededBy)
      && c.artifacts[t].status == Superseded && c.artifacts[t].supersededBy == Some(n)
      && !c.RowActive(n) && (forall id :: id != n ==> c.RowActive(id) == b.RowActive(id))
  {
    hide Renamed;
    RenamedIs(Served(b, n), n, b.artifacts[t].alias);
  }

  /** What becomes of aliases when `n` takes the place of `t`: the alias of `t`, if it has
      one, is held by `n` and by nobody else; every other artifact keeps what it has. */
  ghost predicate AliasPasses(a: Db, b: Db, t: Id, n: Id)
    requires t in a.artifacts
  {
    && (forall id :: id in a.artifacts || id == n <==> id in b.artifacts)
    && (a.artifacts[t].alias.Some? ==>
          && b.artifacts[n].alias == a.artifacts[t].alias
          && (forall id :: id in b.artifacts && id != n ==> b.artifacts[id].alias != a.artifacts[t].alias)
          && (forall id :: id in a.artifacts && id != n && a.artifacts[id].alias != a.artifacts[t].alias ==>
                b.artifacts[id].alias == a.artifacts[id].alias))
    && (a.artifacts[t].alias.None? ==>
          && (forall id :: id in a.artifacts ==> b.artifacts[id].alias == a.artifacts[id].alias)
          && (n !in a.artifacts ==> b.artifacts[n].alias == None))
  }

  ghost predicate AliasesSame(a: Db, b: Db) {
    && (forall id :: id in a.artifacts ==> id in b.artifacts && b.artifacts[id].alias == a.artifacts[id].alias)
    && (forall id :: id in b.artifacts && id !in a.artifacts ==> b.artifacts[id].alias == None)
  }

  lemma PublishedAliases(b: Db, t: Id, n: Id)
    requires t in b.artifacts && n in b.artifacts
    ensures AliasPasses(b, PublishedOn(b, t, n), t, n)
  {
  }

  lemma BuiltAliases(a: Db, key: Key, t: Id, n: Id, clean: seq<Id>)
    requires t in a.derivations
    ensures AliasesSame(a, BuiltOn(a, key, t, n, clean))
    ensures forall id :: id in BuiltOn(a, key, t, n, clean).artifacts <==> id in a.artifacts || id == n
  {
    hide Joined, Links;
  }

  /** A successful attempt hands the alias of the original to the successor; any other
      attempt moves none. */
  lemma AttemptedAliases(db: Db, p: Params, key: Key, t: Id)
    ensures AttemptOn(db, p, t).Passes? ==> AliasPasses(db, Attempted(db, p, key, t), t, AttemptOn(db, p, t).successor)
    ensures !AttemptOn(db, p, t).Passes? ==> AliasesSame(db, Attempted(db, p, key, t))
  {
    hide PlanFor, AttemptOn, BuiltOn, PublishedOn;
    if !AttemptOn(db, p, t).Unavailable? {
      AttemptedIs(db, p, key, t);
      var n, clean := SuccessorOf(db, p, t), CleanOf(db, p, t);
      BuiltAliases(db, key, t, n, clean);
      if AttemptOn(db, p, t).Passes? {
        PublishedAliases(BuiltOn(db, key, t, n, clean), t, n);
      }
    }
  }

  lemma {:induction false} AttemptAllRest(w: Walk, p: Params, key: Key, todo: seq<Id>)
    ensures var b := AttemptAll(w, p, key, todo).db;
      b == w.db.(order := b.order, artifacts := b.artifacts, quarantine := b.quarantine,
                 derivations := b.derivations, recorded := b.recorded)
    decreases |todo|
  {
    hide Attempted;
    if todo != [] {
      AttemptAllRest(w, p, key, todo[..|todo| - 1]);
      AttemptedRest(AttemptAll(w, p, key, todo[..|todo| - 1]).db, p, key, todo[|todo| - 1]);
    }
  }

  /** However the attempts end, each target ends up dealt with, none twice. */
  lemma {:induction false} AttemptAllFacts(w: Walk, p: Params, key: Key, q: seq<Id>, todo: seq<Id>)
    requires Tidy(w.done, q) && forall t :: t in todo ==> t in q
    ensures var r := AttemptAll(w, p, key, todo).done;
      && Tidy(r, q)
      && (forall t :: Done(r, t) <==> t in todo || Done(w.done, t))
    decreases |todo|
  {
    hide Attempted, AttemptOn, Record;
    if todo != [] {
      var init, t := todo[..|todo| - 1], todo[|todo| - 1];
      assert todo == init + [t];
      assert forall x :: x in todo <==> x in init || x == t;
      AttemptAllFacts(w, p, key, q, init);
      var v := AttemptAll(w, p, key, init);
      if !Done(v.done, t) {
        RecordFacts(v.done, q, t, AttemptOn(v.db, p, t));
      }
    }
  }

  /** The loop reports unavailable and failed rebuilds, and nothing else. */
  lemma {:induction false} AttemptAllReports(w: Walk, p: Params, key: Key, todo: seq<Id>)
    ensures var g := AttemptAll(w, p, key, todo).done;
      && (forall u :: u in w.done.unresolved ==> u in g.unresolved)
      && (forall u :: u in g.unresolved ==>
            u in w.done.unresolved || (u.target in todo && u.reason in {RebuildUnavailable, VerificationFailed}))
    decreases |todo|
  {
    hide Attempted, AttemptOn;
    if todo != [] {
      var init, x := todo[..|todo| - 1], todo[|todo| - 1];
      AttemptAllReports(w, p, key, init);
      assert todo == init + [x];
    }
  }

  /** Re-running the loop skips every target already rebuilt or given up. */
  lemma {:induction false} AttemptAllResume(w: Walk, p: Params, key: Key, todo: seq<Id>)
    requires forall j :: 0 <= j < |todo| ==> Done(w.done, todo[j])
    ensures AttemptAll(w, p, key, todo) == w
    decreases |todo|
  {
    if todo != [] {
      AttemptAllResume(w, p, key, todo[..|todo| - 1]);
    }
  }

  /** The finished ledger tells how each attempt ended. */
  predicate Told(g: Progress, t: Id, a: Attempt) {
    match a
    case Unavailable => Open(t, RebuildUnavailable) in g.unresolved
    case Fails => Open(t, VerificationFailed) in g.unresolved
    case Passes(n) => Rebuilt(t, n) in g.rebuilt
  }
}
