/** The rebuild stage: build a successor next to the quarantined original, verify
    it, and only then publish it. */
module RebuildStage {
  import opened Domain
  import opened Seqs
  import opened StateMachine
  import opened Store
  import opened Planner
  import opened RevocationSpec
  import opened Attempts
  import opened Frames
  import opened Foresight
  import opened RevocationInv
  import opened TrackSteps
  import opened Publication
  import opened RevocationSteps
  import opened Pipeline

  datatype Built = Built(successor: Id, plan: Plan, output: Output)

  // ----- building

  /** `rebuild_artifact`. Nothing is written unless the plan, the original and the
      recipe are all there; a build cut short has touched nothing but `n`. */
  method RebuildArtifact(ws: Workspace, p: Params, key: Key, t: Id) returns (r: Result<Built>)
    requires Tables(ws.db)
    modifies ws
    ensures AttemptOn(old(ws.db), p, t).Unavailable? ==> r == Err(NotFound) && ws.db == old(ws.db)
    ensures !AttemptOn(old(ws.db), p, t).Unavailable? ==> Rebuilding(old(ws.db), ws.db, p, key, t, r)
    ensures r.Err? ==> r.Crashed() || r == Err(NotFound)
    ensures r.Ok? ==> BuildPassed(old(ws.doom), old(ws.db), p, key, t)
    ensures ws.Ran(r.Crashed())
  {
    hide Worked, PartOf;
    var plan :- PlanRebuild(ws.db, p.now, t);
    if t !in ws.db.artifacts {
      return Err(NotFound);
    }
    var output := (p.recipe)(ws.db.derivations[t], Elements(plan.clean));
    if output.None? {
      return Err(NotFound);
    }
    var n := (p.successor)(t, plan);
    var made := Build(ws, key, t, n, plan.clean);
    if made.Err? {
      return Err(made.fault);
    }
    BuildSteps(old(ws.doom), old(ws.db), p, key, t);
    return Ok(Built(n, plan, output.value));
  }

  /** Nothing killed the process at any step of the build. */
  ghost predicate BuildPassed(doom: Db -> bool, z: Db, p: Params, key: Key, t: Id) {
    !AttemptOn(z, p, t).Unavailable? && forall k: nat :: k < Positions(z, p, t) ==> !doom(Part(z, p, key, t, k))
  }

  /** Nor where the attempt ends, before it is judged. */
  ghost predicate AttemptPassed(doom: Db -> bool, z: Db, p: Params, key: Key, t: Id) {
    forall k: nat :: k <= Positions(z, p, t) ==> !doom(Part(z, p, key, t, k))
  }

  ghost predicate Rebuilding(a: Db, b: Db, p: Params, key: Key, t: Id, r: Result<Built>) {
    && t in a.derivations
    && var n, clean := SuccessorOf(a, p, t), CleanOf(a, p, t);
    && Worked(a, b, t, n, clean, false)
    && (r.Err? ==> r.Crashed())
    && (r.Ok? ==> (p.recipe)(a.derivations[t], Elements(clean)) == Some(r.value.output))
    && (r.Ok? ==> r.value.plan == PlanFor(a, p.now, t) && r.value.successor == n && b == BuiltOn(a, key, t, n, clean))
  }

  lemma BuildSteps(doom: Db -> bool, z: Db, p: Params, key: Key, t: Id)
    requires !AttemptOn(z, p, t).Unavailable? && t in z.derivations
    requires var n, clean := SuccessorOf(z, p, t), CleanOf(z, p, t);
      forall k: nat :: k < |Links(t, n, clean)| + 2 ==> !doom(PartOf(z, key, t, n, clean, k))
    ensures BuildPassed(doom, z, p, key, t)
  {
    hide AttemptOn, PlanFor, Links, Linked, Housed;
    assert PartOf(z, key, t, SuccessorOf(z, p, t), CleanOf(z, p, t), 0) == z;
  }

  /** The successor is housed in quarantine, then described, then linked. */
  method Build(ws: Workspace, key: Key, t: Id, n: Id, clean: seq<Id>) returns (r: Result<()>)
    requires t in ws.db.derivations && Tables(ws.db)
    modifies ws
    ensures Worked(old(ws.db), ws.db, t, n, clean, false)
    ensures r.Ok? ==> ws.db == BuiltOn(old(ws.db), key, t, n, clean)
    ensures r.Ok? ==> forall k: nat :: k < |Links(t, n, clean)| + 2 ==>
              !old(ws.doom)(PartOf(old(ws.db), key, t, n, clean, k))
    ensures r.Err? ==> r.Crashed()
    ensures ws.Ran(r.Crashed())
  {
    hide Worked, Housed, Links, Joined;
    ghost var a, doom := ws.db, ws.doom;
    var housed := House(ws, key, t, n, clean);
    var _ :- housed;
    HousedIs(a, key, n);
    var d := Heir(ws.db, t, clean);
    ghost var h := ws.db;
    ghost var described := h.WithDerivation(n, d);
    LinkFrame(a, key, t, n, clean, 0);
    NothingLinked(described, Links(t, n, clean));
    var _ :- ws.UpsertDerivation(n, d);
    for i := 0 to |Links(t, n, clean)|
      invariant ws.db == Linked(described, Links(t, n, clean)[..i])
      invariant Worked(a, ws.db, t, n, clean, false)
      invariant forall k: nat :: k < i + 2 ==> !doom(PartOf(a, key, t, n, clean, k))
      invariant ws.Ran(false)
    {
      LinkFrame(a, key, t, n, clean, i + 1);
      LinkedNext(described, Links(t, n, clean), i);
      var _ :- ws.UpsertRecorded(Links(t, n, clean)[i]);
    }
    assert Links(t, n, clean)[..|Links(t, n, clean)|] == Links(t, n, clean);
    return Ok(());
  }

  lemma NothingLinked(db: Db, links: seq<Edge>)
    ensures Linked(db, links[..0]) == db
  {
  }

  lemma LinkedNext(db: Db, links: seq<Edge>, i: nat)
    requires i < |links|
    ensures Linked(db, links[..i]).WithRecorded(links[i]) == Linked(db, links[..i + 1])
  {
    hide Joined;
    JoinedLast(db.recorded, links, i + 1);
  }

  method House(ws: Workspace, key: Key, t: Id, n: Id, clean: seq<Id>) returns (r: Result<()>)
    requires t in ws.db.derivations && Tables(ws.db)
    modifies ws
    ensures Worked(old(ws.db), ws.db, t, n, clean, false)
    ensures r.Ok? ==> ws.db == Housed(old(ws.db), key, n)
    ensures r.Ok? ==> !old(ws.doom)(old(ws.db)) && !old(ws.doom)(old(ws.db).WithArtifact(n))
    ensures r.Err? ==> r.Crashed()
    ensures ws.Ran(r.Crashed())
  {
    hide Worked;
    NoFrame(ws.db, t, n, clean);
    HouseFrames(ws.db, key, t, n, clean);
    var _ :- ws.Ingest(n);
    var _ :- ws.AddQuarantine(n, key);
    r := ws.SetStatus(n, Status.Quarantined);
  }

  // ----- publishing

  /** `publish_successor`: release the successor, hand over the alias, and mark the
      original superseded last. Finished, the successor holds the alias of the original
      and nobody else does. */
  method PublishSuccessor(ws: Workspace, t: Id, n: Id, ghost clean: seq<Id>) returns (r: Result<()>)
    requires t in ws.db.artifacts && n in ws.db.artifacts && t in ws.db.derivations && Tables(ws.db)
    modifies ws
    ensures Worked(old(ws.db), ws.db, t, n, clean, true)
    ensures r.Ok? ==> ws.db == PublishedOn(old(ws.db), t, n)
    ensures r.Ok? ==> AliasPasses(old(ws.db), ws.db, t, n)
    ensures r.Ok? && n != t ==>
              && ws.db.artifacts[n].status == Active && !ws.db.RowActive(n)
              && ws.db.artifacts[t].status == Superseded && ws.db.artifacts[t].supersededBy == Some(n)
    ensures r.Ok? ==> n !in old(ws.db).quarantine || !old(ws.doom)(old(ws.db))
    ensures r.Err? ==> r.Crashed()
    ensures ws.Ran(r.Crashed())
  {
    hide Worked, Served, AliasPasses;
    ghost var b := ws.db;
    PublishedAliases(b, t, n);
    PublishedIs(b, t, n);
    var original := ws.db.artifacts[t];
    MayPublish(b, t, n, clean);
    ServeFrames(b, t, n, clean, original.alias);
    PublishFrame(b, t, n, clean);
    var served := Serve(ws, n);
    var _ :- served;
    ServedIs(b, n);
    if original.alias.Some? {
      var _ :- ws.ClearAlias(original.alias.value);
      var _ :- ws.SetAlias(n, original.alias.value);
    }
    r := ws.SetSupersededBy(t, n);
  }

  lemma MayPublish(b: Db, t: Id, n: Id, clean: seq<Id>)
    requires t in b.derivations && Tables(b)
    ensures Worked(b, b, t, n, clean, true)
  {
    NoFrame(b, t, n, clean);
  }

  method Serve(ws: Workspace, n: Id) returns (r: Result<()>)
    requires n in ws.db.artifacts
    modifies ws
    ensures ws.db == old(ws.db) || ws.db == old(ws.db).WithRowOff(n) || ws.db == Served(old(ws.db), n)
    ensures r.Ok? ==> ws.db == Served(old(ws.db), n)
    ensures r.Ok? ==> n !in old(ws.db).quarantine || !old(ws.doom)(old(ws.db))
    ensures r.Err? ==> r.Crashed()
    ensures ws.Ran(r.Crashed())
  {
    var _ :- ws.RemoveQuarantine(n);
    r := ws.SetStatus(n, Active);
  }

  // ----- one target from plan to publication

  /** The suite run on the finished build says what the attempt comes to. */
  lemma SuiteAgrees(a: Db, b: Db, p: Params, key: Key, t: Id)
    requires !AttemptOn(a, p, t).Unavailable?
    requires t in a.derivations && SameTables(BuiltOn(a, key, t, SuccessorOf(a, p, t), CleanOf(a, p, t)), b)
    ensures var out := (p.recipe)(a.derivations[t], Elements(CleanOf(a, p, t)));
      SuitePasses(b, SuccessorOf(a, p, t), p.canaryKeys, out.value) <==> AttemptOn(a, p, t).Passes?
  {
    hide BuiltOn, SuitePasses, PlanFor, ForbiddenBuilt;
    BuiltFacts(a, key, t, SuccessorOf(a, p, t), CleanOf(a, p, t));
    SuiteMeans(a, b, SuccessorOf(a, p, t), CleanOf(a, p, t), p.canaryKeys,
               (p.recipe)(a.derivations[t], Elements(CleanOf(a, p, t))).value);
  }

  ghost predicate Attempting(ev: Event, ev': Event, t: Id, att: Attempt) {
    && ev' == WithAttempt(ev.(state := ev'.state), t, att)
    && (ev'.state == ev.state || ev'.state == Verifying)
  }

  /** Midway through the work on `t`, begun on `z` with event `ev`. */
  ghost predicate Busy(z: Db, b: Db, p: Params, ev: Event, closure: seq<Id>, t: Id) {
    && Kept(z, b, p, ev.key, closure) && Current(b, ev) && Rebuilds(p, ev.policy)
    && InHand(ev, t) && Tables(z) && AtWork(z, b, p, ev.key, t, false)
  }

  lemma BusyKept(z: Db, b: Db, p: Params, ev: Event, closure: seq<Id>, t: Id)
    requires Busy(z, b, p, ev, closure, t)
    ensures Kept(z, b, p, ev.key, closure) && Good(b, p, ev.key, closure) && Current(b, ev)
    ensures RebuiltSame(z, b, ev.key) && t in z.derivations && !AttemptOn(z, p, t).Unavailable? && Tables(b)
  {
    hide Framed, AttemptOn, Shape, Findings, TrackKept, Scannable, TargetsExist;
  }

  lemma BuildBusy(z: Db, b: Db, p: Params, ev: Event, closure: seq<Id>, t: Id, r: Result<Built>)
    requires Good(z, p, ev.key, closure) && Current(z, ev) && InHand(ev, t) && Rebuilds(p, ev.policy)
    requires !AttemptOn(z, p, t).Unavailable? && Rebuilding(z, b, p, ev.key, t, r)
    ensures Busy(z, b, p, ev, closure, t)
  {
    hide Good, Kept, Framed, AttemptOn, PlanFor, BuiltOn;
    KeptSelf(z, p, ev.key, closure);
    GoodTables(z, p, ev.key, closure);
    AttemptedIs(z, p, ev.key, t);
    NoFrame(z, t, SuccessorOf(z, p, t), CleanOf(z, p, t));
    WorkKept(z, z, b, p, ev.key, closure, t, false);
  }

  lemma GoodTables(z: Db, p: Params, key: Key, closure: seq<Id>)
    requires Good(z, p, key, closure)
    ensures Tables(z)
  {
  }

  /** The move to verifying is not part of the attempt but does not disturb it. */
  lemma MovedBusy(z: Db, b: Db, c: Db, p: Params, ev: Event, closure: seq<Id>, t: Id)
    requires Busy(z, b, p, ev, closure, t) && Kept(b, c, p, ev.key, closure)
    requires ReadsSame(b, c) && b.hidden == c.hidden && Current(c, ev.(state := Verifying))
    ensures Busy(z, c, p, ev.(state := Verifying), closure, t)
  {
    hide Kept, AttemptOn, Framed;
    KeptTwice(z, b, c, p, ev.key, closure);
    FramedOn(z, b, c, t, SuccessorOf(z, p, t), CleanOf(z, p, t), false);
  }

  lemma PublishKept(z: Db, b: Db, c: Db, p: Params, ev: Event, closure: seq<Id>, t: Id)
    requires Busy(z, b, p, ev, closure, t) && AttemptOn(z, p, t).Passes?
    requires Worked(b, c, t, SuccessorOf(z, p, t), CleanOf(z, p, t), true)
    ensures Kept(z, c, p, ev.key, closure) && Current(c, ev) && RebuiltSame(z, c, ev.key) && c.log == b.log
  {
    hide Kept, AttemptOn, Framed, PlanFor;
    WorkKept(z, b, c, p, ev.key, closure, t, true);
  }

  lemma SaveKept(z: Db, b: Db, p: Params, ev: Event, closure: seq<Id>, t: Id)
    requires Kept(z, b, p, ev.key, closure) && Current(b, ev) && InHand(ev, t)
    requires ev.key in z.events && InHand(z.events[ev.key], t) && SameWork(z.events[ev.key], ev)
    requires SameTables(Attempted(z, p, ev.key, t), b) && Tables(z)
    ensures Kept(z, b.WithEvent(WithAttempt(ev, t, AttemptOn(z, p, t))), p, ev.key, closure)
  {
    hide Kept, AttemptOn, Attempted;
    RecordKept(z, b, p, ev.key, closure, ev, t);
  }

  /** Plan, build, verify, publish, record. */
  method ProcessTarget(ws: Workspace, p: Params, ev: Event, t: Id, ghost closure: seq<Id>) returns (r: Result<Event>)
    requires Good(ws.db, p, ev.key, closure) && Current(ws.db, ev) && Rebuilds(p, ev.policy) && InHand(ev, t)
    modifies ws
    ensures Kept(old(ws.db), ws.db, p, ev.key, closure)
    ensures r.Ok? ==> Current(ws.db, r.value) && Attempting(ev, r.value, t, AttemptOn(old(ws.db), p, t))
    ensures r.Ok? ==> SameTables(Attempted(old(ws.db), p, ev.key, t), ws.db)
    ensures r.Ok? ==> AttemptPassed(old(ws.doom), old(ws.db), p, ev.key, t)
    ensures r.Ok? && PathInTable(old(ws.db).LogOf(ev.key), ev.state) ==> PathInTable(ws.db.LogOf(ev.key), r.value.state)
    ensures r.Err? ==> r.Crashed() && RebuiltSame(old(ws.db), ws.db, ev.key)
    ensures ws.Ran(r.Crashed())
  {
    hide Good, Kept, InHand, AttemptOn, PlanFor, Attempted, Rebuilding, Busy, BuildPassed, AttemptPassed;
    ghost var z, doom := ws.db, ws.doom;
    GoodTables(z, p, ev.key, closure);
    var built := RebuildArtifact(ws, p, ev.key, t);
    if built == Err(NotFound) {
      NotRebuilding(z, ws.db, p, ev.key, t);
      UnavailableStays(z, p, ev.key, t);
      r := GiveUp(ws, p, ev, t, closure);
      if r.Ok? {
        NothingBuilt(doom, z, p, ev.key, t);
      }
      return;
    }
    BuildBusy(z, ws.db, p, ev, closure, t, built);
    BusyKept(z, ws.db, p, ev, closure, t);
    var b :- built;
    ghost var whole := ws.db;
    r := VerifyAndPublish(ws, p, ev, t, b, z, closure);
    if r.Ok? {
      WholePassed(doom, z, whole, p, ev.key, t, b);
    }
  }

  lemma NothingBuilt(doom: Db -> bool, z: Db, p: Params, key: Key, t: Id)
    requires AttemptOn(z, p, t).Unavailable? && !doom(z)
    ensures AttemptPassed(doom, z, p, key, t)
  {
    hide AttemptOn;
  }

  lemma WholePassed(doom: Db -> bool, z: Db, b: Db, p: Params, key: Key, t: Id, built: Built)
    requires BuildPassed(doom, z, p, key, t) && Rebuilding(z, b, p, key, t, Ok(built)) && !doom(b)
    ensures AttemptPassed(doom, z, p, key, t)
  {
    hide AttemptOn, PlanFor, Links, Joined, Worked;
    PartWhole(z, key, t, SuccessorOf(z, p, t), CleanOf(z, p, t));
  }

  lemma PartWhole(z: Db, key: Key, t: Id, n: Id, clean: seq<Id>)
    requires t in z.derivations
    ensures PartOf(z, key, t, n, clean, |Links(t, n, clean)| + 2) == BuiltOn(z, key, t, n, clean)
  {
    hide Links, Joined;
    assert Links(t, n, clean)[..|Links(t, n, clean)|] == Links(t, n, clean);
  }

  lemma NotRebuilding(a: Db, b: Db, p: Params, key: Key, t: Id)
    ensures !Rebuilding(a, b, p, key, t, Err(NotFound))
  {
  }

  /** No derivation, no artifact or no recipe: the target is reported. */
  method GiveUp(ws: Workspace, p: Params, ev: Event, t: Id, ghost closure: seq<Id>) returns (r: Result<Event>)
    requires Good(ws.db, p, ev.key, closure) && Current(ws.db, ev) && Rebuilds(p, ev.policy) && InHand(ev, t)
    requires AttemptOn(ws.db, p, t).Unavailable?
    modifies ws
    ensures Kept(old(ws.db), ws.db, p, ev.key, closure)
    ensures r.Ok? ==> Current(ws.db, r.value) && Attempting(ev, r.value, t, Unavailable) && r.value.state == ev.state
    ensures r.Ok? ==> SameTables(old(ws.db), ws.db) && ws.db.log == old(ws.db).log
    ensures r.Ok? ==> !old(ws.doom)(old(ws.db))
    ensures r.Err? ==> r.Crashed() && RebuiltSame(old(ws.db), ws.db, ev.key)
    ensures ws.Ran(r.Crashed())
  {
    hide Good, Kept, AttemptOn, Attempted;
    ghost var z := ws.db;
    KeptSelf(z, p, ev.key, closure);
    GoodTables(z, p, ev.key, closure);
    UnavailableStays(z, p, ev.key, t);
    SaveKept(z, z, p, ev, closure, t);
    var ev' := ev.(unresolved := ev.unresolved + [Open(t, RebuildUnavailable)]);
    assert ev' == WithAttempt(ev, t, Unavailable);
    var _ :- ws.Update(ev');
    return Ok(ev');
  }

  lemma BuiltLog(z: Db, b: Db, p: Params, key: Key, t: Id, built: Built)
    requires !AttemptOn(z, p, t).Unavailable? && Rebuilding(z, b, p, key, t, Ok(built))
    ensures z.log == b.log && t in z.derivations && built.successor == SuccessorOf(z, p, t)
    ensures SameTables(BuiltOn(z, key, t, SuccessorOf(z, p, t), CleanOf(z, p, t)), b)
    ensures (p.recipe)(z.derivations[t], Elements(CleanOf(z, p, t))) == Some(built.output)
  {
    hide BuiltOn, PlanFor, Framed;
  }

  lemma MayVerify(z: Db, a: Db, p: Params, closure: seq<Id>, ev: Event, t: Id)
    requires Busy(z, a, p, ev, closure, t)
    ensures ev.state == Verifying || (Advance(ev.state, Verifying).Go? && MayMove(a, p, closure, ev, Verifying))
  {
    hide AttemptOn, PlanFor, Framed, TrackKept, Scannable, TargetsExist, Findings, StageDone, Tables, Climbs;
    ShapeVerifies(ev);
  }

  lemma ShapeVerifies(ev: Event)
    requires Shape(ev) && 7 <= StageIndex(ev.state) <= 8
    ensures Shape(ev.(state := Verifying)) && StageDone(ev)
  {
  }

  lemma ReadsTables(a: Db, b: Db, c: Db)
    requires SameTables(a, b) && ReadsSame(b, c) && b.hidden == c.hidden
    ensures SameTables(a, c)
  {
  }

  method VerifyAndPublish(ws: Workspace, p: Params, ev: Event, t: Id, b: Built, ghost z: Db, ghost closure: seq<Id>)
    returns (r: Result<Event>)
    requires Busy(z, ws.db, p, ev, closure, t) && ev.key in z.events && z.events[ev.key] == ev
    requires !AttemptOn(z, p, t).Unavailable? && Rebuilding(z, ws.db, p, ev.key, t, Ok(b))
    modifies ws
    ensures Kept(z, ws.db, p, ev.key, closure)
    ensures r.Ok? ==> Current(ws.db, r.value) && Attempting(ev, r.value, t, AttemptOn(z, p, t))
    ensures r.Ok? ==> SameTables(Attempted(z, p, ev.key, t), ws.db)
    ensures r.Ok? ==> !old(ws.doom)(old(ws.db))
    ensures r.Ok? && PathInTable(z.LogOf(ev.key), ev.state) ==> PathInTable(ws.db.LogOf(ev.key), r.value.state)
    ensures r.Err? ==> r.Crashed() && RebuiltSame(z, ws.db, ev.key)
    ensures ws.Ran(r.Crashed())
  {
    hide Good, Kept, InHand, AttemptOn, PlanFor, BuiltOn, Attempted, Busy, Rebuilding, ReadsSame, PathInTable,
      MayMove, SameTables;
    ghost var a := ws.db;
    BuiltLog(z, a, p, ev.key, t, b);
    BusyKept(z, a, p, ev, closure, t);
    var cur := ev;
    if ev.state != Verifying {
      MayVerify(z, a, p, closure, ev, t);
      var moved := Proceed(ws, p, ev, Verifying, closure);
      KeptTwice(z, a, ws.db, p, ev.key, closure);
      cur :- moved;
      MovedBusy(z, a, ws.db, p, ev, closure, t);
      ReadsTables(BuiltOn(z, ev.key, t, SuccessorOf(z, p, t), CleanOf(z, p, t)), a, ws.db);
    }
    SuiteAgrees(z, ws.db, p, ev.key, t);
    var report := RunSuite(ws.db, b.successor, p.canaryKeys, b.output, None, 0.0);
    r := Conclude(ws, p, cur, t, b.successor, report, z, closure);
  }

  method Conclude(ws: Workspace, p: Params, ev: Event, t: Id, n: Id, report: Report, ghost z: Db, ghost closure: seq<Id>)
    returns (r: Result<Event>)
    requires Busy(z, ws.db, p, ev, closure, t) && t in z.derivations && !AttemptOn(z, p, t).Unavailable?
    requires report.Pass? <==> AttemptOn(z, p, t).Passes?
    requires n == SuccessorOf(z, p, t) && SameTables(BuiltOn(z, ev.key, t, n, CleanOf(z, p, t)), ws.db)
    modifies ws
    ensures Kept(z, ws.db, p, ev.key, closure)
    ensures r.Ok? ==> Current(ws.db, r.value) && r.value == WithAttempt(ev, t, AttemptOn(z, p, t))
    ensures r.Ok? ==> SameTables(Attempted(z, p, ev.key, t), ws.db) && ws.db.log == old(ws.db).log
    ensures r.Ok? ==> !old(ws.doom)(old(ws.db))
    ensures r.Err? ==> r.Crashed() && RebuiltSame(z, ws.db, ev.key)
    ensures ws.Ran(r.Crashed())
  {
    hide Good, Kept, AttemptOn, PlanFor, BuiltOn, PublishedOn, Attempted, Busy, Worked, Tables;
    AttemptedIs(z, p, ev.key, t);
    ghost var b := ws.db;
    BusyKept(z, b, p, ev, closure, t);
    BusyHand(z, b, p, ev, closure, t);
    BuiltDerivation(z, b, p, ev.key, t);
    var ev';
    if report.Pass? {
      SameTablesPublished(BuiltOn(z, ev.key, t, n, CleanOf(z, p, t)), b, t, n);
      var published := PublishSuccessor(ws, t, n, CleanOf(z, p, t));
      PublishKept(z, b, ws.db, p, ev, closure, t);
      var _ :- published;
      ev' := ev.(rebuilt := ev.rebuilt + [Rebuilt(t, n)]);
    } else {
      ev' := ev.(unresolved := ev.unresolved + [Open(t, VerificationFailed)]);
    }
    assert ev' == WithAttempt(ev, t, AttemptOn(z, p, t));
    SaveKept(z, ws.db, p, ev, closure, t);
    var _ :- ws.Update(ev');
    return Ok(ev');
  }

  lemma BusyHand(z: Db, b: Db, p: Params, ev: Event, closure: seq<Id>, t: Id)
    requires Busy(z, b, p, ev, closure, t)
    ensures Tables(z) && InHand(ev, t) && ev.key in z.events && InHand(z.events[ev.key], t) && SameWork(z.events[ev.key], ev)
  {
  }

  lemma BuiltDerivation(z: Db, b: Db, p: Params, key: Key, t: Id)
    requires t in z.derivations && SameTables(BuiltOn(z, key, t, SuccessorOf(z, p, t), CleanOf(z, p, t)), b)
    ensures t in b.derivations && SuccessorOf(z, p, t) in b.quarantine
  {
    hide BuiltOn, PlanFor;
    BuiltHolds(z, key, t, SuccessorOf(z, p, t), CleanOf(z, p, t));
  }

  // ----- the loop over quarantined targets

  lemma SourcedNext(less: set<Db>, more: set<Db>, p: Params, was: Event, now: Event, next: Event, z: Db, t: Id)
    requires Sourced(less, p, was, now) && less <= more && z in less
    requires Attempting(now, next, t, AttemptOn(z, p, t))
    ensures Sourced(more, p, was, next)
  {
    hide AttemptOn;
    forall r | r in next.rebuilt && r !in was.rebuilt ensures SourcedFrom(more, p, r) {
      if r in now.rebuilt {
        assert SourcedFrom(less, p, r);
      } else {
        assert z in more;
      }
    }
  }

  /** The rebuild loop as foreseen from store `a`, up to its `i`-th target. */
  function Ahead(a: Db, p: Params, event: Event, i: nat): Walk
    requires i <= |event.quarantined|
  {
    AttemptAll(Walk(a, ProgressOf(event)), p, event.key, event.quarantined[..i])
  }

  /** The store `y` of a run that has come this far. */
  ghost predicate Standing(w: Walk, event: Event, y: Db) {
    && SameTables(w.db, y) && event.key in y.events
    && var ev := y.events[event.key];
       7 <= StageIndex(ev.state) <= 8 && ev == event.(state := ev.state, rebuilt := w.done.rebuilt, unresolved := w.done.unresolved)
  }

  /** Nothing killed the process where it took up the targets before the `i`-th. */
  ghost predicate PassedBy(doom: Db -> bool, a: Db, p: Params, event: Event, i: nat)
    requires i <= |event.quarantined|
  {
    forall j: nat :: j < i ==> Survived(doom, a, p, event, j)
  }

  ghost predicate Survived(doom: Db -> bool, a: Db, p: Params, event: Event, j: nat)
    requires j < |event.quarantined|
  {
    var w, t := Ahead(a, p, event, j), event.quarantined[j];
    Done(w.done, t) || forall k: nat :: k <= Positions(w.db, p, t) ==> SurvivedAt(doom, w, p, event, t, k)
  }

  ghost predicate SurvivedAt(doom: Db -> bool, w: Walk, p: Params, event: Event, t: Id, k: nat)
    requires k <= Positions(w.db, p, t)
  {
    exists y :: Halfway(w, p, event, t, k, y) && !doom(y)
  }

  /** The store `y` of a run that has come this far and is `k` steps into target `t`. */
  ghost predicate Halfway(w: Walk, p: Params, event: Event, t: Id, k: nat, y: Db)
    requires k <= Positions(w.db, p, t)
  {
    && SameTables(Part(w.db, p, event.key, t, k), y) && event.key in y.events
    && var ev := y.events[event.key];
       7 <= StageIndex(ev.state) <= 8 && ev == event.(state := ev.state, rebuilt := w.done.rebuilt, unresolved := w.done.unresolved)
  }

  lemma AheadStarts(a: Db, p: Params, event: Event)
    requires Current(a, event) && 7 <= StageIndex(event.state) <= 8
    ensures Ahead(a, p, event, 0) == Walk(a, ProgressOf(event)) && Standing(Ahead(a, p, event, 0), event, a)
  {
    assert event.quarantined[..0] == [];
  }

  lemma AheadNext(a: Db, p: Params, event: Event, i: nat)
    requires i < |event.quarantined|
    ensures Ahead(a, p, event, i + 1) == AttemptNext(Ahead(a, p, event, i), p, event.key, event.quarantined[i])
  {
    hide AttemptAll, AttemptNext;
    AttemptAllNext(Walk(a, ProgressOf(event)), p, event.key, event.quarantined, i);
  }

  /** The targets before the `i`-th are dealt with; if the `i`-th is not, it is in hand. */
  lemma {:induction false} AheadDone(a: Db, p: Params, event: Event, i: nat)
    requires i <= |event.quarantined|
    ensures forall j :: 0 <= j < i ==> Done(Ahead(a, p, event, i).done, event.quarantined[j])
  {
    hide Ahead, AttemptNext, Done;
    if i > 0 {
      AheadDone(a, p, event, i - 1);
      AheadNext(a, p, event, i - 1);
      var w := Ahead(a, p, event, i - 1);
      forall t | Done(w.done, t) || t == event.quarantined[i - 1] ensures Done(Ahead(a, p, event, i).done, t) {
        NextDone(w, p, event.key, event.quarantined[i - 1], t);
      }
    }
  }

  lemma NextDone(w: Walk, p: Params, key: Key, x: Id, t: Id)
    requires Done(w.done, t) || t == x
    ensures Done(AttemptNext(w, p, key, x).done, t)
  {
    hide AttemptOn, Attempted;
    if !Done(w.done, x) {
      RecordDone(w.done, x, AttemptOn(w.db, p, x), t);
    }
  }

  lemma RecordDone(g: Progress, x: Id, att: Attempt, t: Id)
    requires Done(g, t) || t == x
    ensures Done(Record(g, x, att), t)
  {
    var g' := Record(g, x, att);
    match att
    case Passes(n) => assert Rebuilt(x, n) in g'.rebuilt && forall r :: r in g.rebuilt ==> r in g'.rebuilt;
    case Unavailable => assert Open(x, RebuildUnavailable) in g'.unresolved && forall u :: u in g.unresolved ==> u in g'.unresolved;
    case Fails => assert Open(x, VerificationFailed) in g'.unresolved && forall u :: u in g.unresolved ==> u in g'.unresolved;
  }

  lemma StandingHand(a: Db, p: Params, event: Event, y: Db, i: nat)
    requires i < |event.quarantined| && Standing(Ahead(a, p, event, i), event, y)
    requires !Done(Ahead(a, p, event, i).done, event.quarantined[i])
    ensures InHand(y.events[event.key], event.quarantined[i])
  {
    hide AttemptAll;
    AheadDone(a, p, event, i);
    PendingIs(Ahead(a, p, event, i).done, event.quarantined, i);
  }

  /** One attempt takes the run from one such store to the next. */
  lemma StandingNext(a: Db, p: Params, event: Event, y: Db, y': Db, i: nat)
    requires i < |event.quarantined| && Standing(Ahead(a, p, event, i), event, y)
    requires !Done(Ahead(a, p, event, i).done, event.quarantined[i])
    requires SameTables(Attempted(y, p, event.key, event.quarantined[i]), y')
    requires event.key in y'.events
    requires Attempting(y.events[event.key], y'.events[event.key], event.quarantined[i], AttemptOn(y, p, event.quarantined[i]))
    ensures Standing(Ahead(a, p, event, i + 1), event, y')
  {
    hide AttemptOn, Attempted, AttemptAll, Record;
    var w, t := Ahead(a, p, event, i), event.quarantined[i];
    AheadNext(a, p, event, i);
    SameTablesAttempt(w.db, y, p, t);
    SameTablesAttempted(w.db, y, p, event.key, t);
    RecordOf(y.events[event.key].(state := y'.events[event.key].state), t, AttemptOn(y, p, t));
  }

  lemma PassedNext(doom: Db -> bool, a: Db, p: Params, event: Event, i: nat, y: Db)
    requires i < |event.quarantined| && PassedBy(doom, a, p, event, i)
    requires Done(Ahead(a, p, event, i).done, event.quarantined[i])
      || (Standing(Ahead(a, p, event, i), event, y) && AttemptPassed(doom, y, p, event.key, event.quarantined[i]))
    ensures PassedBy(doom, a, p, event, i + 1)
  {
    hide Ahead, Done, Part, Positions, Halfway, Standing;
    var w, t := Ahead(a, p, event, i), event.quarantined[i];
    if !Done(w.done, t) {
      forall k: nat | k <= Positions(w.db, p, t) ensures SurvivedAt(doom, w, p, event, t, k) {
        StandingHalfway(w, p, event, t, k, y);
      }
    }
    assert Survived(doom, a, p, event, i);
  }

  lemma StandingHalfway(w: Walk, p: Params, event: Event, t: Id, k: nat, y: Db)
    requires Standing(w, event, y) && k <= Positions(w.db, p, t)
    ensures Positions(y, p, t) == Positions(w.db, p, t) && Halfway(w, p, event, t, k, Part(y, p, event.key, t, k))
  {
    hide Part, Positions;
    SameTablesPart(w.db, y, p, event.key, t, k);
  }

  lemma StandingMoved(w: Walk, event: Event, y: Db, y': Db)
    requires Standing(w, event, y) && ReadsSame(y, y') && y.hidden == y'.hidden
    requires event.key in y'.events && y'.events[event.key] == y.events[event.key].(state := Verifying)
    ensures Standing(w, event, y')
  {
  }

  /** The loop over the quarantined targets: the store and the event end as foreseen from
      where the loop began, and every successor comes from an attempt that passed. */
  method RebuildTargets(ws: Workspace, p: Params, event: Event, ghost closure: seq<Id>) returns (r: Result<Event>)
    requires Good(ws.db, p, event.key, closure) && Current(ws.db, event) && Rebuilds(p, event.policy)
    requires 7 <= StageIndex(event.state) <= 8
    modifies ws
    ensures Kept(old(ws.db), ws.db, p, event.key, closure)
    ensures r.Ok? ==> Current(ws.db, r.value) && r.value.key == event.key && r.value.state == Verifying
    ensures r.Ok? ==> Standing(Ahead(old(ws.db), p, event, |event.quarantined|), event, ws.db)
    ensures r.Ok? ==> PassedBy(old(ws.doom), old(ws.db), p, event, |event.quarantined|)
    ensures event.key in ws.db.events && Sourced(ws.Stores(), p, event, ws.db.events[event.key])
    ensures r.Ok? && PathInTable(old(ws.db).LogOf(event.key), event.state) ==>
              PathInTable(ws.db.LogOf(event.key), Verifying)
    ensures r.Err? ==> r.Crashed()
    ensures ws.Ran(r.Crashed())
  {
    hide Good, Kept, InHand, Attempting, Attempted, AttemptOn, AttemptPassed, PathInTable, Shape, MayMove, Ahead,
      Standing, PassedBy, Sourced;
    var ev := event;
    ghost var start, doom := ws.db, ws.doom;
    KeptSelf(start, p, ev.key, closure);
    AheadStarts(start, p, event);
    NothingPassed(doom, start, p, event);
    NothingSourced(ws.Stores(), p, event);
    for i := 0 to |event.quarantined|
      invariant Kept(start, ws.db, p, event.key, closure)
      invariant Current(ws.db, ev) && ev.key == event.key && ev.policy == event.policy
      invariant Standing(Ahead(start, p, event, i), event, ws.db)
      invariant PassedBy(doom, start, p, event, i)
      invariant Sourced(ws.Stores(), p, event, ev)
      invariant PathInTable(start.LogOf(event.key), event.state) ==> PathInTable(ws.db.LogOf(event.key), ev.state)
      invariant ws.Ran(false)
    {
      var t := event.quarantined[i];
      StandingEvent(Ahead(start, p, event, i), event, ws.db);
      AheadNext(start, p, event, i);
      PassedDone(doom, start, p, event, i);
      if t in Originals(ev.rebuilt) || t in OpenTargets(ev.unresolved) {
        continue;
      }
      ghost var before, was, stores := ws.db, ev, ws.Stores();
      KeptGood(start, before, p, ev.key, closure);
      StandingHand(start, p, event, before, i);
      var step := ProcessTarget(ws, p, ev, t, closure);
      KeptTwice(start, before, ws.db, p, event.key, closure);
      KeptKey(start, ws.db, p, event.key, closure);
      if step.Err? {
        SourcedOn(stores, ws.Stores(), p, event, was, ws.db.events[event.key]);
      }
      ev :- step;
      AttemptingSame(was, ev, t, AttemptOn(before, p, t));
      StandingNext(start, p, event, before, ws.db, i);
      PassedNext(doom, start, p, event, i, before);
      SourcedNext(stores, ws.Stores(), p, event, was, ev, before, t);
    }
    r := CloseQueue(ws, p, event, ev, start, closure);
  }

  /** Every target is dealt with: the event moves on to verifying, if no build took it
      there, and is saved. */
  method CloseQueue(ws: Workspace, p: Params, event: Event, last: Event, ghost start: Db, ghost closure: seq<Id>)
    returns (r: Result<Event>)
    requires Kept(start, ws.db, p, event.key, closure) && Current(ws.db, last) && last.key == event.key
    requires Rebuilds(p, last.policy) && Standing(Ahead(start, p, event, |event.quarantined|), event, ws.db)
    requires Sourced(ws.Stores(), p, event, last)
    modifies ws
    ensures Kept(start, ws.db, p, event.key, closure)
    ensures r.Ok? ==> Current(ws.db, r.value) && r.value.key == event.key && r.value.state == Verifying
    ensures r.Ok? ==> Standing(Ahead(start, p, event, |event.quarantined|), event, ws.db)
    ensures event.key in ws.db.events && Sourced(ws.Stores(), p, event, ws.db.events[event.key])
    ensures r.Ok? && PathInTable(old(ws.db).LogOf(event.key), last.state) ==>
              PathInTable(ws.db.LogOf(event.key), Verifying)
    ensures r.Err? ==> r.Crashed()
    ensures ws.Ran(r.Crashed())
  {
    hide Good, Kept, PathInTable, Shape, MayMove, Ahead, Standing, Sourced;
    var ev := last;
    StandingEvent(Ahead(start, p, event, |event.quarantined|), event, ws.db);
    if ev.state == State.Rebuilding {
      ghost var before, stores := ws.db, ws.Stores();
      KeptGood(start, before, p, ev.key, closure);
      MayVerifyNow(before, p, ev.key, closure, ev);
      var moved := Proceed(ws, p, ev, Verifying, closure);
      KeptTwice(start, before, ws.db, p, event.key, closure);
      SourcedOn(stores, ws.Stores(), p, event, ev, ws.db.events[event.key]);
      ev :- moved;
      StandingMoved(Ahead(start, p, event, |event.quarantined|), event, before, ws.db);
    }
    SavedAgain(ws.db, ev);
    ghost var stores := ws.Stores();
    var saved := ws.Update(ev);
    SourcedOn(stores, ws.Stores(), p, event, ev, ev);
    var _ :- saved;
    return Ok(ev);
  }

  lemma AttemptingSame(ev: Event, ev': Event, t: Id, att: Attempt)
    requires Attempting(ev, ev', t, att)
    ensures ev'.key == ev.key && ev'.policy == ev.policy
  {
  }

  lemma NothingPassed(doom: Db -> bool, a: Db, p: Params, event: Event)
    ensures PassedBy(doom, a, p, event, 0)
  {
  }

  lemma StandingEvent(w: Walk, event: Event, y: Db)
    requires Standing(w, event, y)
    ensures event.key in y.events && ProgressOf(y.events[event.key]) == w.done
    ensures 7 <= StageIndex(y.events[event.key].state) <= 8
  {
  }

  lemma PassedDone(doom: Db -> bool, a: Db, p: Params, event: Event, i: nat)
    requires i < |event.quarantined| && PassedBy(doom, a, p, event, i)
    ensures Done(Ahead(a, p, event, i).done, event.quarantined[i]) ==>
              PassedBy(doom, a, p, event, i + 1) && Ahead(a, p, event, i + 1) == Ahead(a, p, event, i)
  {
    hide AttemptAll, Attempted;
    AheadNext(a, p, event, i);
    if Done(Ahead(a, p, event, i).done, event.quarantined[i]) {
      PassedNext(doom, a, p, event, i, a);
    }
  }

  lemma MayVerifyNow(db: Db, p: Params, key: Key, closure: seq<Id>, ev: Event)
    requires Good(db, p, key, closure) && Current(db, ev) && ev.key == key && ev.state == State.Rebuilding
    requires Rebuilds(p, ev.policy)
    ensures Advance(ev.state, Verifying).Go? && MayMove(db, p, closure, ev, Verifying)
  {
    hide Scannable, TargetsExist, Climbs, Tables, StageDone;
    ShapeVerifies(ev);
  }
}
