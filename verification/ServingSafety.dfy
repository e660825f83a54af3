/** What alias resolution can return, over every sequence of store operations. Each
    operation is one step here; `Scope.Serving` and its two synonyms are the scopes
    that let a quarantined artifact be served. */
module ServingSafety {
  import opened Domain
  import opened Store
  import opened Attempts
  import opened Request

  datatype Op =
    | Ingest(id: Id, alias: Option<Alias>)
    | Barrier(asked: Event, closure: seq<Id>)
    | Quarantine(id: Id, event: Key)
    | Release(id: Id)
    | Rebuild(original: Id, successor: Id, clean: seq<Id>, event: Key)
    | Publish(original: Id, successor: Id)
    | Waive(waiver: int, terms: Waiver)
    | RevokeWaiver(waiver: int)

  function IngestAs(db: Db, id: Id, alias: Option<Alias>): Db {
    if id in db.artifacts then db
    else db.(order := db.order + [id], artifacts := db.artifacts[id := Artifact(Active, alias, None)])
  }

  /** An operation on an artifact, derivation or waiver that is not there raises. What it
      has written by then stays: the row goes before the status everywhere. */
  function Step(db: Db, op: Op): Db {
    match op
    case Ingest(id, alias) => IngestAs(db, id, alias)
    case Barrier(ev, c) => BarUntil(db, ev, c)
    case Quarantine(id, key) => QuarantineOn(db, id, key)
    case Release(id) => if id in db.artifacts then Served(db, id) else db.WithRowOff(id)
    case Rebuild(t, n, clean, key) => if t in db.derivations then BuiltOn(db, key, t, n, clean) else db
    case Publish(t, n) => PublishOn(db, t, n)
    case Waive(w, terms) => if w in db.waivers then db else db.(waivers := db.waivers[w := terms])
    case RevokeWaiver(w) => if w in db.waivers then db.(waivers := db.waivers[w := db.waivers[w].(revoked := true)]) else db
  }

  function QuarantineOn(db: Db, id: Id, key: Key): Db {
    if id in db.artifacts then db.WithRow(id, key).WithStatus(id, Status.Quarantined) else db.WithRow(id, key)
  }

  function PublishOn(db: Db, t: Id, n: Id): Db {
    if t !in db.artifacts then db
    else if n !in db.artifacts then db.WithRowOff(n)
    else PublishedOn(db, t, n)
  }

  function Run(db: Db, ops: seq<Op>): Db {
    if ops == [] then db else Step(Run(db, ops[..|ops| - 1]), ops[|ops| - 1])
  }

  /** `release_quarantine`: the row goes off first, then the status turns active. */
  method ReleaseQuarantine(ws: Workspace, id: Id) returns (r: Result<()>)
    modifies ws
    ensures !r.Crashed() ==> ws.db == Step(old(ws.db), Release(id))
    ensures r.Ok? ==> id in old(ws.db).artifacts
    ensures r == Err(NotFound) ==> id !in old(ws.db).artifacts
    ensures r.Crashed() ==> ws.db == old(ws.db) || ws.db == old(ws.db).WithRowOff(id)
    ensures ws.Ran(r.Crashed())
  {
    var _ :- ws.RemoveQuarantine(id);
    r := ws.SetStatus(id, Active);
  }

  // ----- status and row

  /** A quarantined artifact has an active row. */
  ghost predicate Backed(db: Db) {
    forall id :: id in db.artifacts ==> BackedAt(db, id)
  }

  ghost predicate BackedAt(db: Db, id: Id)
    requires id in db.artifacts
  {
    db.artifacts[id].status == Status.Quarantined ==> db.RowActive(id)
  }

  /** And an active one has none; no row is active without an artifact. */
  ghost predicate Consistent(db: Db) {
    && (forall id :: id in db.artifacts ==> ConsistentAt(db, id))
    && (forall id :: db.RowActive(id) ==> id in db.artifacts)
  }

  ghost predicate ConsistentAt(db: Db, id: Id)
    requires id in db.artifacts
  {
    && (db.artifacts[id].status == Status.Quarantined ==> db.RowActive(id))
    && (db.artifacts[id].status == Active ==> !db.RowActive(id))
  }

  /** Only the standing of `id` may differ. */
  ghost predicate Only(a: Db, b: Db, id: Id) {
    && (forall x :: x in a.artifacts ==> x in b.artifacts)
    && (forall x :: x in b.artifacts ==> x in a.artifacts || x == id)
    && (forall x :: x in a.artifacts && x != id ==> a.artifacts[x].status == b.artifacts[x].status)
    && (forall x :: x != id ==> a.RowActive(x) == b.RowActive(x))
  }

  lemma OnlyKeeps(a: Db, b: Db, id: Id)
    requires Only(a, b, id)
    ensures Backed(a) && (id in b.artifacts ==> BackedAt(b, id)) ==> Backed(b)
    ensures Consistent(a) && id in b.artifacts && ConsistentAt(b, id) ==> Consistent(b)
    ensures Consistent(a) && id !in b.artifacts && !b.RowActive(id) ==> Consistent(b)
  {
    if Backed(a) && (id in b.artifacts ==> BackedAt(b, id)) {
      forall x | x in b.artifacts ensures BackedAt(b, x) {
        if x != id {
          assert BackedAt(a, x);
        }
      }
    }
    if Consistent(a) && (id in b.artifacts ==> ConsistentAt(b, id)) {
      forall x | x in b.artifacts ensures ConsistentAt(b, x) {
        if x != id {
          assert ConsistentAt(a, x);
        }
      }
    }
  }

  lemma IngestKeeps(db: Db, id: Id, alias: Option<Alias>)
    ensures Backed(db) ==> Backed(IngestAs(db, id, alias))
    ensures Consistent(db) ==> Consistent(IngestAs(db, id, alias))
  {
    if id !in db.artifacts {
      OnlyKeeps(db, IngestAs(db, id, alias), id);
    }
  }

  /** A row written for a missing artifact is the one thing that breaks consistency. */
  lemma QuarantineKeeps(db: Db, id: Id, key: Key)
    ensures Backed(db) ==> Backed(QuarantineOn(db, id, key))
    ensures Consistent(db) ==> (Consistent(QuarantineOn(db, id, key)) <==> id in db.artifacts)
  {
    var b := QuarantineOn(db, id, key);
    QuarantineOnly(db, id, key);
    OnlyKeeps(db, b, id);
  }

  lemma QuarantineOnly(db: Db, id: Id, key: Key)
    ensures var b := QuarantineOn(db, id, key);
      && Only(db, b, id) && b.RowActive(id)
      && (id in db.artifacts ==> id in b.artifacts && b.artifacts[id].status == Status.Quarantined)
      && (id !in db.artifacts ==> id !in b.artifacts)
  {
  }

  lemma StatusKeeps(db: Db, id: Id, s: Status)
    requires id in db.artifacts && s !in {Active, Status.Quarantined}
    ensures Backed(db) ==> Backed(db.WithStatus(id, s))
    ensures Consistent(db) ==> Consistent(db.WithStatus(id, s))
  {
    OnlyKeeps(db, db.WithStatus(id, s), id);
  }

  lemma {:induction false} BarKeeps(db: Db, ev: Event, c: seq<Id>)
    ensures Backed(db) ==> Backed(Bar(db, ev, c))
    ensures Consistent(db) ==> Consistent(Bar(db, ev, c))
    ensures forall id :: id in Bar(db, ev, c).artifacts <==> id in db.artifacts
  {
    hide Backed, Consistent;
    if c != [] {
      BarKeeps(db, ev, c[..|c| - 1]);
      BarOneKeeps(Bar(db, ev, c[..|c| - 1]), ev, c[|c| - 1]);
    }
  }

  lemma BarOneKeeps(db: Db, ev: Event, id: Id)
    ensures Backed(db) ==> Backed(BarOne(db, ev, id))
    ensures Consistent(db) ==> Consistent(BarOne(db, ev, id))
    ensures forall x :: x in BarOne(db, ev, id).artifacts <==> x in db.artifacts
  {
    hide Backed, Consistent;
    if id in db.artifacts {
      QuarantineKeeps(db, id, ev.key);
      StatusKeeps(db, id, Revoked);
    }
  }

  lemma BarrierKeeps(db: Db, ev: Event, c: seq<Id>)
    ensures Backed(db) ==> Backed(BarUntil(db, ev, c))
    ensures Consistent(db) ==> (Consistent(BarUntil(db, ev, c)) <==> Present(db, Barrier(ev, c)))
  {
    hide Backed, Consistent, Bar;
    var k := Stops(db, c);
    BarKeeps(db, ev, c[..k]);
    if k < |c| && c[k] !in ev.roots {
      QuarantineKeeps(Bar(db, ev, c[..k]), c[k], ev.key);
    }
  }

  lemma RowOffKeeps(db: Db, id: Id)
    requires id !in db.artifacts
    ensures Backed(db) ==> Backed(db.WithRowOff(id))
    ensures Consistent(db) ==> Consistent(db.WithRowOff(id))
  {
    OnlyKeeps(db, db.WithRowOff(id), id);
  }

  lemma ReleaseKeeps(db: Db, id: Id)
    requires id in db.artifacts
    ensures Backed(db) ==> Backed(Served(db, id))
    ensures Consistent(db) ==> Consistent(Served(db, id))
  {
    OnlyKeeps(db, Served(db, id), id);
  }

  lemma HousedKeeps(db: Db, key: Key, n: Id)
    ensures Backed(db) ==> Backed(Housed(db, key, n))
    ensures Consistent(db) ==> Consistent(Housed(db, key, n))
  {
    IngestKeeps(db, n, None);
    QuarantineKeeps(db.WithArtifact(n), n, key);
    assert db.WithArtifact(n) == IngestAs(db, n, None);
  }

  lemma RebuildKeeps(db: Db, key: Key, t: Id, n: Id, clean: seq<Id>)
    requires t in db.derivations
    ensures Backed(db) ==> Backed(BuiltOn(db, key, t, n, clean))
    ensures Consistent(db) ==> Consistent(BuiltOn(db, key, t, n, clean))
  {
    hide Housed, BuiltOn, Backed, Consistent;
    HousedKeeps(db, key, n);
    BuiltHolds(db, key, t, n, clean);
    SameServingKeeps(Housed(db, key, n), BuiltOn(db, key, t, n, clean));
  }

  lemma SameServingKeeps(a: Db, b: Db)
    requires a.artifacts == b.artifacts && a.quarantine == b.quarantine
    ensures Backed(a) ==> Backed(b)
    ensures Consistent(a) <==> Consistent(b)
  {
    if Backed(a) {
      forall id | id in b.artifacts ensures BackedAt(b, id) {
        assert BackedAt(a, id);
      }
    }
    if Consistent(a) {
      forall id | id in b.artifacts ensures ConsistentAt(b, id) {
        assert ConsistentAt(a, id);
      }
    }
    if Consistent(b) {
      forall id | id in a.artifacts ensures ConsistentAt(a, id) {
        assert ConsistentAt(b, id);
      }
    }
  }

  lemma RenameKeeps(db: Db, n: Id, alias: Option<Alias>)
    requires n in db.artifacts
    ensures Backed(db) ==> Backed(Renamed(db, n, alias))
    ensures Consistent(db) ==> Consistent(Renamed(db, n, alias))
  {
    hide Renamed;
    var b := Renamed(db, n, alias);
    RenamedIs(db, n, alias);
    if Backed(db) {
      forall x | x in b.artifacts ensures BackedAt(b, x) {
        assert BackedAt(db, x) && SameServing(db.artifacts[x], b.artifacts[x]);
      }
    }
    if Consistent(db) {
      forall x | x in b.artifacts ensures ConsistentAt(b, x) {
        assert ConsistentAt(db, x) && SameServing(db.artifacts[x], b.artifacts[x]);
      }
    }
  }

  lemma PublishKeeps(db: Db, t: Id, n: Id)
    requires t in db.artifacts && n in db.artifacts
    ensures Backed(db) ==> Backed(PublishedOn(db, t, n))
    ensures Consistent(db) ==> Consistent(PublishedOn(db, t, n))
  {
    hide Backed, Consistent, Served, Renamed;
    ReleaseKeeps(db, n);
    ServedHolds(db, t, n);
    RenameKeeps(Served(db, n), n, db.artifacts[t].alias);
    SuccessorKeeps(Renamed(Served(db, n), n, db.artifacts[t].alias), t, n);
  }

  lemma ServedHolds(b: Db, t: Id, n: Id)
    requires t in b.artifacts && n in b.artifacts
    ensures n in Served(b, n).artifacts && t in Renamed(Served(b, n), n, b.artifacts[t].alias).artifacts
  {
  }

  lemma SuccessorKeeps(db: Db, t: Id, n: Id)
    requires t in db.artifacts
    ensures Backed(db) ==> Backed(db.WithSuccessor(t, n))
    ensures Consistent(db) ==> Consistent(db.WithSuccessor(t, n))
  {
    OnlyKeeps(db, db.WithSuccessor(t, n), t);
  }

  /** No row is written for an artifact that is not there. */
  ghost predicate Present(db: Db, op: Op) {
    match op
    case Quarantine(id, _) => id in db.artifacts
    case Barrier(ev, c) => Stops(db, c) == |c| || c[Stops(db, c)] in ev.roots
    case _ => true
  }

  /** One operation keeps every quarantined artifact backed by a row, whatever it is; it
      keeps status and row consistent exactly when it writes no row for a missing
      artifact. */
  lemma StepKeeps(db: Db, op: Op)
    ensures Backed(db) ==> Backed(Step(db, op))
    ensures Consistent(db) ==> (Consistent(Step(db, op)) <==> Present(db, op))
  {
    hide Backed, Consistent, Served, PublishedOn, BuiltOn, BarUntil, QuarantineOn;
    match op
    case Ingest(id, alias) => IngestKeeps(db, id, alias);
    case Barrier(ev, c) => BarrierKeeps(db, ev, c);
    case Quarantine(id, key) => QuarantineKeeps(db, id, key);
    case Release(id) => if id in db.artifacts { ReleaseKeeps(db, id); } else { RowOffKeeps(db, id); }
    case Rebuild(t, n, clean, key) => if t in db.derivations { RebuildKeeps(db, key, t, n, clean); }
    case Publish(t, n) =>
      if t in db.artifacts {
        if n in db.artifacts { PublishKeeps(db, t, n); } else { RowOffKeeps(db, n); }
      }
    case Waive(w, terms) => SameServingKeeps(db, Step(db, op));
    case RevokeWaiver(w) => SameServingKeeps(db, Step(db, op));
  }

  lemma {:induction false} RunBacked(db: Db, ops: seq<Op>)
    requires Backed(db)
    ensures Backed(Run(db, ops))
  {
    hide Backed, Step;
    if ops != [] {
      RunBacked(db, ops[..|ops| - 1]);
      StepKeeps(Run(db, ops[..|ops| - 1]), ops[|ops| - 1]);
    }
  }

  /** Status and row agree all through a run exactly when no operation of it writes a row
      for an artifact that is not there. */
  lemma {:induction false} RunKeeps(db: Db, ops: seq<Op>)
    requires Consistent(db)
    ensures (forall i :: 0 <= i <= |ops| ==> Consistent(Run(db, ops[..i]))) <==>
              (forall i :: 0 <= i < |ops| ==> Present(Run(db, ops[..i]), ops[i]))
  {
    hide Consistent, Step, Present, Run;
    if forall i :: 0 <= i <= |ops| ==> Consistent(Run(db, ops[..i])) {
      forall i | 0 <= i < |ops| ensures Present(Run(db, ops[..i]), ops[i]) {
        RunNext(db, ops, i);
        StepKeeps(Run(db, ops[..i]), ops[i]);
        assert Consistent(Run(db, ops[..i + 1]));
      }
    }
    if forall i :: 0 <= i < |ops| ==> Present(Run(db, ops[..i]), ops[i]) {
      RunStarts(db, ops);
      var i := 0;
      while i < |ops|
        invariant 0 <= i <= |ops| && forall j :: 0 <= j <= i ==> Consistent(Run(db, ops[..j]))
      {
        RunNext(db, ops, i);
        StepKeeps(Run(db, ops[..i]), ops[i]);
        i := i + 1;
      }
    }
  }

  lemma RunStarts(db: Db, ops: seq<Op>)
    ensures Run(db, ops[..0]) == db
  {
  }

  lemma RunNext(db: Db, ops: seq<Op>, i: nat)
    requires i < |ops|
    ensures Run(db, ops[..i + 1]) == Step(Run(db, ops[..i]), ops[i])
  {
    assert ops[..i + 1][..i] == ops[..i];
  }

  // ----- resolution

  const SERVING_SCOPES := {Scope.Serving, QuarantineRelease, QuarantineSynonym}

  predicate Holds(db: Db, id: Id, alias: Alias) {
    id in db.artifacts && db.artifacts[id].alias == Some(alias) && db.artifacts[id].status in {Active, Status.Quarantined}
  }

  /** `find_by_alias`: the newest active or quarantined holder. */
  function Newest(db: Db, order: seq<Id>, alias: Alias): Option<Id> {
    if order == [] then None
    else if Holds(db, order[|order| - 1], alias) then Some(order[|order| - 1])
    else Newest(db, order[..|order| - 1], alias)
  }

  function ResolveAlias(db: Db, alias: Alias, now: int): Option<Id> {
    match Newest(db, db.order, alias)
    case None => None
    case Some(id) =>
      if id !in db.artifacts || db.artifacts[id].status == Revoked then None
      else if db.artifacts[id].status !in {Active, Status.Quarantined} then None
      else if db.RowActive(id) && !db.Waived(id, SERVING_SCOPES, now) then None
      else Some(id)
  }

  /** The holder returned stands in `order` after every other one. */
  lemma {:induction false} NewestHolds(db: Db, order: seq<Id>, alias: Alias)
    ensures var r := Newest(db, order, alias);
      && (r.Some? ==>
            exists k :: 0 <= k < |order| && order[k] == r.value && Held(db, r.value, alias)
                        && forall j :: k < j < |order| ==> !Held(db, order[j], alias))
      && (r.None? ==> forall id :: id in order ==> !Held(db, id, alias))
  {
    if order != [] {
      var init, last := order[..|order| - 1], order[|order| - 1];
      NewestHolds(db, init, alias);
      assert order == init + [last];
      assert Holds(db, last, alias) <==> Held(db, last, alias);
      var r := Newest(db, order, alias);
      if r.Some? && !Holds(db, last, alias) {
        var k :| 0 <= k < |init| && init[k] == r.value && Held(db, r.value, alias)
                 && forall j :: k < j < |init| ==> !Held(db, init[j], alias);
        assert order[k] == r.value;
        forall j | k < j < |order| ensures !Held(db, order[j], alias) {
          assert j < |init| ==> order[j] == init[j];
        }
      } else if r.Some? {
        assert order[|order| - 1] == r.value;
      }
    }
  }

  /** In service or in quarantine under this alias. */
  ghost predicate Held(db: Db, id: Id, alias: Alias) {
    && id in db.artifacts && db.artifacts[id].alias == Some(alias)
    && (db.artifacts[id].status == Active || db.artifacts[id].status == Status.Quarantined)
  }

  /** A waiver on `id` that lets a quarantined artifact be served, neither revoked nor
      past its date. */
  ghost predicate Excused(db: Db, id: Id, now: int) {
    exists w :: w in db.waivers
      && var v := db.waivers[w];
         && v.artifact == id && !v.revoked && (v.expires.None? || v.expires.value >= now)
         && (v.scope == Scope.Serving || v.scope == QuarantineRelease || v.scope == QuarantineSynonym)
  }

  lemma WaivedIs(db: Db, id: Id, now: int)
    ensures db.Waived(id, SERVING_SCOPES, now) <==> Excused(db, id, now)
  {
    if db.Waived(id, SERVING_SCOPES, now) {
      var w :| w in db.waivers && db.waivers[w].artifact == id && !db.waivers[w].revoked
        && (db.waivers[w].expires.Some? ==> now <= db.waivers[w].expires.value) && db.waivers[w].scope in SERVING_SCOPES;
      assert w in db.waivers;
    }
    if Excused(db, id, now) {
      var w :| w in db.waivers
        && var v := db.waivers[w];
           && v.artifact == id && !v.revoked && (v.expires.None? || v.expires.value >= now)
           && (v.scope == Scope.Serving || v.scope == QuarantineRelease || v.scope == QuarantineSynonym);
      assert db.waivers[w].scope in SERVING_SCOPES;
    }
  }

  /** An alias resolves to `id` exactly when `id` is the newest artifact in service or in
      quarantine under it, and is waived if it has an active quarantine row. */
  lemma ResolvesExactly(db: Db, alias: Alias, now: int, id: Id)
    ensures ResolveAlias(db, alias, now) == Some(id) <==>
              && Held(db, id, alias) && (db.RowActive(id) ==> Excused(db, id, now))
              && exists k :: 0 <= k < |db.order| && db.order[k] == id && forall j :: k < j < |db.order| ==> !Held(db, db.order[j], alias)
  {
    hide Held, Excused;
    NewestHolds(db, db.order, alias);
    WaivedIs(db, id, now);
    HeldIs(db, id, alias);
    var r := Newest(db, db.order, alias);
    if r.Some? {
      HeldIs(db, r.value, alias);
      var m :| 0 <= m < |db.order| && db.order[m] == r.value && Held(db, r.value, alias)
               && forall j :: m < j < |db.order| ==> !Held(db, db.order[j], alias);
      if k :| 0 <= k < |db.order| && db.order[k] == id && Held(db, id, alias)
              && forall j :: k < j < |db.order| ==> !Held(db, db.order[j], alias)
      {
        assert k == m;
      }
    }
  }

  lemma HeldIs(db: Db, id: Id, alias: Alias)
    ensures Held(db, id, alias) <==> Holds(db, id, alias)
  {
  }

  /** After any run of operations, an alias resolves to nothing or to an artifact that
      is active or quarantined, and under an unexpired serving waiver if it is
      quarantined or has an active row: never to a revoked, superseded or archived one. */
  lemma ResolutionIsSafe(db: Db, ops: seq<Op>, alias: Alias, now: int)
    requires Backed(db)
    ensures var s := Run(db, ops);
      var r := ResolveAlias(s, alias, now);
      r.Some? ==>
        && Held(s, r.value, alias)
        && (s.artifacts[r.value].status == Status.Quarantined ==> Excused(s, r.value, now))
        && (s.RowActive(r.value) ==> Excused(s, r.value, now))
  {
    hide Excused;
    RunBacked(db, ops);
    var s := Run(db, ops);
    var r := ResolveAlias(s, alias, now);
    if r.Some? {
      ResolvesExactly(s, alias, now, r.value);
      assert BackedAt(s, r.value);
    }
  }

  // ----- waivers

  lemma StepWaivers(db: Db, op: Op, w: int)
    ensures var v := Step(db, op).waivers;
      && (w in v <==> w in db.waivers || (op.Waive? && op.waiver == w))
      && (w in v ==>
            v[w] == if w !in db.waivers then op.terms
                    else if op == RevokeWaiver(w) then db.waivers[w].(revoked := true) else db.waivers[w])
  {
    hide BuiltOn, PublishedOn, BarUntil, Served;
    match op
    case Barrier(ev, c) => BarrierWaivers(db, ev, c);
    case Release(id) => if id in db.artifacts { ServedWaivers(db, id); }
    case Rebuild(t, n, clean, key) => if t in db.derivations { BuiltHolds(db, key, t, n, clean); }
    case Publish(t, n) => if t in db.artifacts && n in db.artifacts { PublishedIs(db, t, n); }
    case _ =>
  }

  lemma ServedWaivers(db: Db, id: Id)
    requires id in db.artifacts
    ensures Served(db, id).waivers == db.waivers
  {
  }

  lemma BarrierWaivers(db: Db, ev: Event, c: seq<Id>)
    ensures BarUntil(db, ev, c).waivers == db.waivers
  {
    hide Bar;
    BarWaivers(db, ev, c[..Stops(db, c)]);
  }

  lemma {:induction false} BarWaivers(db: Db, ev: Event, c: seq<Id>)
    ensures Bar(db, ev, c).waivers == db.waivers
  {
    if c != [] {
      BarWaivers(db, ev, c[..|c| - 1]);
    }
  }

  /** A waiver keeps its terms for good, and is revoked exactly when it was before or a
      revocation of it is among the operations. */
  lemma {:induction false} WaiversLast(db: Db, ops: seq<Op>, w: int)
    requires w in db.waivers
    ensures w in Run(db, ops).waivers
    ensures Run(db, ops).waivers[w] == db.waivers[w].(revoked := db.waivers[w].revoked || RevokeWaiver(w) in ops)
  {
    hide Step;
    if ops != [] {
      var init, last := ops[..|ops| - 1], ops[|ops| - 1];
      assert ops == init + [last];
      WaiversLast(db, init, w);
      StepWaivers(Run(db, init), last, w);
    }
  }

  /** A waiver that was not there is there exactly when one of the operations gives it. */
  lemma {:induction false} WaiversGiven(db: Db, ops: seq<Op>, w: int)
    requires w !in db.waivers
    ensures w in Run(db, ops).waivers <==> exists op :: op in ops && op.Waive? && op.waiver == w
  {
    hide Step;
    if ops != [] {
      var init, last := ops[..|ops| - 1], ops[|ops| - 1];
      assert ops == init + [last];
      WaiversGiven(db, init, w);
      StepWaivers(Run(db, init), last, w);
    }
  }

  // ----- what is revoked stays revoked, and until when

  /** The operations that lift a revocation: a later event's barrier reaching `id` as
      a descendant, and the operations on `id` itself. */
  ghost predicate Lifts(db: Db, op: Op, id: Id) {
    match op
    case Barrier(ev, c) => id in c[..Stops(db, c)] && id !in ev.roots
    case Quarantine(x, _) => x == id
    case Release(x) => x == id
    case Rebuild(t, n, _, _) => t in db.derivations && n == id
    case Publish(t, n) => t in db.artifacts && n in db.artifacts && (n == id || t == id)
    case _ => false
  }

  ghost predicate IsRevoked(db: Db, id: Id) {
    id in db.artifacts && db.artifacts[id].status == Revoked
  }

  lemma BarOneRevoked(db: Db, ev: Event, x: Id, id: Id)
    requires id in db.artifacts
    ensures id in BarOne(db, ev, x).artifacts
    ensures IsRevoked(BarOne(db, ev, x), id) <==> if x == id then id in ev.roots else IsRevoked(db, id)
  {
    hide IsRevoked;
    if x in db.artifacts {
      if x in ev.roots {
        StatusRevoked(db, x, Revoked, id);
      } else {
        RowRevoked(db, x, ev.key, id);
        StatusRevoked(db.WithRow(x, ev.key), x, Status.Quarantined, id);
      }
    }
  }

  lemma StatusRevoked(db: Db, x: Id, s: Status, id: Id)
    requires id in db.artifacts && x in db.artifacts
    ensures id in db.WithStatus(x, s).artifacts
    ensures IsRevoked(db.WithStatus(x, s), id) <==> if x == id then s == Revoked else IsRevoked(db, id)
  {
  }

  lemma RowRevoked(db: Db, x: Id, key: Key, id: Id)
    ensures IsRevoked(db.WithRow(x, key), id) <==> IsRevoked(db, id)
    ensures id in db.WithRow(x, key).artifacts <==> id in db.artifacts
  {
  }

  lemma {:induction false} BarRevoked(db: Db, ev: Event, c: seq<Id>, id: Id)
    requires IsRevoked(db, id)
    ensures id in Bar(db, ev, c).artifacts
    ensures IsRevoked(Bar(db, ev, c), id) <==> !(id in c && id !in ev.roots)
  {
    hide IsRevoked, BarOne;
    RevokedHere(db, id);
    if c != [] {
      assert c == c[..|c| - 1] + [c[|c| - 1]];
      BarRevoked(db, ev, c[..|c| - 1], id);
      BarOneRevoked(Bar(db, ev, c[..|c| - 1]), ev, c[|c| - 1], id);
    }
  }

  lemma RevokedHere(db: Db, id: Id)
    requires IsRevoked(db, id)
    ensures id in db.artifacts
  {
  }

  lemma BarrierRevoked(db: Db, ev: Event, c: seq<Id>, id: Id)
    requires IsRevoked(db, id)
    ensures IsRevoked(BarUntil(db, ev, c), id) <==> !(id in c[..Stops(db, c)] && id !in ev.roots)
  {
    hide Bar;
    BarRevoked(db, ev, c[..Stops(db, c)], id);
  }

  lemma RenamedStatus(db: Db, n: Id, alias: Option<Alias>, id: Id)
    requires n in db.artifacts
    ensures id in Renamed(db, n, alias).artifacts <==> id in db.artifacts
    ensures id in db.artifacts ==> Renamed(db, n, alias).artifacts[id].status == db.artifacts[id].status
  {
  }

  lemma PublishRevoked(db: Db, t: Id, n: Id, id: Id)
    requires IsRevoked(db, id) && t in db.artifacts && n in db.artifacts
    ensures IsRevoked(PublishedOn(db, t, n), id) <==> id != n && id != t
  {
    hide Renamed;
    ServedHolds(db, t, n);
    RenamedStatus(Served(db, n), n, db.artifacts[t].alias, id);
  }

  lemma RebuildRevoked(db: Db, key: Key, t: Id, n: Id, clean: seq<Id>, id: Id)
    requires IsRevoked(db, id) && t in db.derivations
    ensures IsRevoked(BuiltOn(db, key, t, n, clean), id) <==> id != n
  {
    hide BuiltOn;
    BuiltHolds(db, key, t, n, clean);
  }

  /** A revoked artifact stays revoked under one more operation exactly when the
      operation does not lift it. */
  lemma RevokedUntilLifted(db: Db, op: Op, id: Id)
    requires IsRevoked(db, id)
    ensures IsRevoked(Step(db, op), id) <==> !Lifts(db, op, id)
  {
    hide BuiltOn, PublishedOn, BarUntil;
    match op
    case Barrier(ev, c) => BarrierRevoked(db, ev, c, id);
    case Rebuild(t, n, clean, key) => if t in db.derivations { RebuildRevoked(db, key, t, n, clean, id); }
    case Publish(t, n) => if t in db.artifacts && n in db.artifacts { PublishRevoked(db, t, n, id); }
    case _ =>
  }

  /** Nothing in a run that lifts no revocation of `id` makes it resolvable again,
      waivers included. */
  lemma {:induction false} RevokedIsNeverServed(db: Db, ops: seq<Op>, id: Id, alias: Alias, now: int)
    requires IsRevoked(db, id)
    requires forall i :: 0 <= i < |ops| ==> !Lifts(Run(db, ops[..i]), ops[i], id)
    ensures IsRevoked(Run(db, ops), id) && ResolveAlias(Run(db, ops), alias, now) != Some(id)
  {
    if ops != [] {
      var k := |ops| - 1;
      forall i | 0 <= i < k ensures !Lifts(Run(db, ops[..k][..i]), ops[..k][i], id) {
        assert ops[..k][..i] == ops[..i];
      }
      RevokedIsNeverServed(db, ops[..k], id, alias, now);
      RevokedUntilLifted(Run(db, ops[..k]), ops[k], id);
    }
  }
}
