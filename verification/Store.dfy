/** The service store: its tables as a value, and the workspace object through
    which every component writes to it, one commit at a time. */
module Store {
  import opened Domain
  import opened Seqs
  import opened Reachability
  import opened StateMachine

  type Key = int
  type Alias = int

  datatype Artifact = Artifact(status: Status, alias: Option<Alias>, supersededBy: Option<Id>)

  /** A quarantine row is never deleted, only switched off. */
  datatype Row = Row(event: Key, active: bool)

  datatype Derivation = Derivation(recordedInputs: seq<Id>, contextPool: seq<Id>, recipe: int)

  datatype Relation =
    | UsedAsInput | ContextExposure | MemoryReference | RebuiltFrom | Replaces | CleanSupport | RecordedInfluence
    | DirectInput | RetrievedMemory | DistilledFrom | GeneratedFromTrace | ImportedDependency

  datatype Edge = Edge(source: Id, target: Id, relation: Relation)

  datatype Scope = Serving | QuarantineRelease | QuarantineSynonym | RebuildSupport | OtherScope

  datatype Waiver = Waiver(artifact: Id, scope: Scope, expires: Option<int>, revoked: bool)

  // ----- the revocation event

  datatype Candidate = Candidate(member: Id, target: Id, score: real)

  datatype Replay = NotSelected | NoDerivation | Executed(verdict: Verdict)

  datatype Decision = Decision(member: Id, target: Id, replay: Replay)

  datatype Reason = ReplayOpen(member: Id, verdict: Verdict) | RebuildUnavailable | VerificationFailed

  datatype Open = Open(target: Id, reason: Reason)

  datatype Rebuilt = Rebuilt(original: Id, successor: Id)

  datatype Event = Event(
    key: Key,
    roots: seq<Id>,
    policy: Policy,
    severity: Severity,
    state: State,
    closure: seq<Id>,
    candidates: seq<Candidate>,
    decisions: seq<Decision>,
    quarantined: seq<Id>,
    rebuilt: seq<Rebuilt>,
    unresolved: seq<Open>)

  // ----- the tables

  type HiddenEdges = map<(Id, Id), Evidence>

  predicate Confirms(h: HiddenEdges, e: (Id, Id)) {
    e in h && h[e] == ReplayConfirmed
  }

  ghost function RowPairs(rows: seq<Edge>): Edges {
    set e | e in rows :: (e.source, e.target)
  }

  /** `order` lists the artifacts by creation time. `recorded` holds the edges with
      recorded evidence; `hidden` the evidence class of each hidden-influence edge. */
  datatype Db = Db(
    order: seq<Id>,
    artifacts: map<Id, Artifact>,
    quarantine: map<Id, Row>,
    derivations: map<Id, Derivation>,
    recorded: seq<Edge>,
    hidden: HiddenEdges,
    waivers: map<int, Waiver>,
    events: map<Key, Event>,
    log: map<Key, seq<Step>>)
  {
    function WithStatus(id: Id, s: Status): Db
      requires id in artifacts
    {
      this.(artifacts := artifacts[id := artifacts[id].(status := s)])
    }

    function WithAlias(id: Id, alias: Alias): Db
      requires id in artifacts
    {
      this.(artifacts := artifacts[id := artifacts[id].(alias := Some(alias))])
    }

    /** Every artifact holding `alias` lets it go. */
    function WithoutAlias(alias: Alias): Db {
      this.(artifacts := map id | id in artifacts ::
        if artifacts[id].alias == Some(alias) then artifacts[id].(alias := None) else artifacts[id])
    }

    function WithSuccessor(id: Id, successor: Id): Db
      requires id in artifacts
    {
      this.(artifacts := artifacts[id := artifacts[id].(status := Superseded, supersededBy := Some(successor))])
    }

    /** Content-addressed: ingesting an identifier already present changes nothing. */
    function WithArtifact(id: Id): Db {
      if id in artifacts then this
      else this.(order := order + [id], artifacts := artifacts[id := Artifact(Active, None, None)])
    }

    function WithRow(id: Id, event: Key): Db {
      this.(quarantine := quarantine[id := Row(event, true)])
    }

    function WithRowOff(id: Id): Db {
      if id in quarantine then this.(quarantine := quarantine[id := quarantine[id].(active := false)]) else this
    }

    function WithDerivation(id: Id, d: Derivation): Db {
      this.(derivations := derivations[id := d])
    }

    function WithRecorded(e: Edge): Db {
      if e in recorded then this else this.(recorded := recorded + [e])
    }

    function WithHidden(source: Id, target: Id, e: Evidence): Db {
      this.(hidden := hidden[(source, target) := e])
    }

    function WithEvent(e: Event): Db {
      this.(events := events[e.key := e])
    }

    function LogOf(key: Key): seq<Step> {
      if key in log then log[key] else []
    }

    function WithStep(key: Key, s: Step): Db {
      this.(log := log[key := LogOf(key) + [s]])
    }

    predicate RowActive(id: Id) {
      id in quarantine && quarantine[id].active
    }

    /** An unrevoked waiver on `id`, in one of `scopes`, that has not expired. */
    predicate Waived(id: Id, scopes: set<Scope>, now: int) {
      exists w :: w in waivers && waivers[w].artifact == id && !waivers[w].revoked
        && (waivers[w].expires.Some? ==> now <= waivers[w].expires.value) && waivers[w].scope in scopes
    }

    /** Some hidden-influence edge into `id` is replay-confirmed. */
    predicate HasConfirmedIn(id: Id) {
      exists e :: e in hidden && e.1 == id && hidden[e] == ReplayConfirmed
    }

    ghost function RecordedPairs(): Edges {
      RowPairs(recorded)
    }
  }

  /** The creation order lists exactly the artifacts there are, each once. */
  ghost predicate Tables(db: Db) {
    Distinct(db.order) && forall id :: id in db.order <==> id in db.artifacts
  }

  /** What candidate recovery reads: no status, no quarantine, no hidden edge. */
  datatype Snapshot = Snapshot(order: seq<Id>, recorded: seq<Edge>, derivations: map<Id, Derivation>)

  function SnapshotOf(db: Db): Snapshot {
    Snapshot(db.order, db.recorded, db.derivations)
  }

  /** The workspace object of one worker process. The process dies when it is about to
      commit and either has used up its `lifetime`, the number of commits it still
      survives, or finds the store at a point `doom` picks: death by count and death
      by place. A dead process loses its local variables, never a commit. */
  class Workspace {
    var db: Db
    var lifetime: Option<nat>
    var doom: Db -> bool
    /** Every earlier content of the store. */
    ghost var past: set<Db>

    constructor (db: Db)
      ensures this.db == db && lifetime == None && past == {}
      ensures forall x :: !doom(x)
    {
      this.db := db;
      lifetime := None;
      doom := x => false;
      past := {};
    }

    /** The stores this workspace has gone through, the present one included. */
    ghost function Stores(): set<Db>
      reads this
    {
      past + {db}
    }

    /** Nothing can kill the process. */
    ghost predicate Immortal()
      reads this
    {
      lifetime.None? && forall x :: !doom(x)
    }

    /** What any stretch of a process, whole or cut short, does to the process itself. */
    twostate predicate Ran(crashed: bool)
      reads this
    {
      && doom == old(doom)
      && (old(lifetime).None? ==> lifetime.None?)
      && (crashed ==> lifetime == Some(0) || doom(db))
      && old(Stores()) <= Stores()
    }

    /** One commit was tried: it took effect, or the process died before it. */
    twostate predicate Tried(new next: Db, new r: Result<()>)
      reads this
    {
      && (r.Ok? ==> db == next)
      && (r.Err? ==> r.fault == Crash && db == old(db))
      && Ran(r.Crashed())
    }

    method Commit(next: Db) returns (r: Result<()>)
      modifies this
      ensures Tried(next, r)
      ensures r.Ok? ==> !doom(old(db))
    {
      if lifetime == Some(0) || doom(db) {
        return Err(Crash);
      }
      if lifetime.Some? {
        lifetime := Some(lifetime.value - 1);
      }
      past := past + {db};
      db := next;
      return Ok(());
    }

    method SetStatus(id: Id, s: Status) returns (r: Result<()>)
      modifies this
      ensures id in old(db).artifacts ==> Tried(old(db).WithStatus(id, s), r)
      ensures id !in old(db).artifacts ==> r == Err(NotFound) && db == old(db) && Ran(false)
    {
      if id !in db.artifacts {
        return Err(NotFound);
      }
      r := Commit(db.WithStatus(id, s));
    }

    method SetAlias(id: Id, alias: Alias) returns (r: Result<()>)
      requires id in db.artifacts
      modifies this
      ensures Tried(old(db).WithAlias(id, alias), r)
    {
      r := Commit(db.WithAlias(id, alias));
    }

    method ClearAlias(alias: Alias) returns (r: Result<()>)
      modifies this
      ensures Tried(old(db).WithoutAlias(alias), r)
    {
      r := Commit(db.WithoutAlias(alias));
    }

    method SetSupersededBy(id: Id, successor: Id) returns (r: Result<()>)
      requires id in db.artifacts
      modifies this
      ensures Tried(old(db).WithSuccessor(id, successor), r)
    {
      r := Commit(db.WithSuccessor(id, successor));
    }

    method Ingest(id: Id) returns (r: Result<()>)
      modifies this
      ensures Tried(old(db).WithArtifact(id), r)
      ensures r.Ok? ==> id in old(db).artifacts || !doom(old(db))
    {
      if id in db.artifacts {
        return Ok(());
      }
      r := Commit(db.WithArtifact(id));
    }

    method AddQuarantine(id: Id, event: Key) returns (r: Result<()>)
      modifies this
      ensures Tried(old(db).WithRow(id, event), r)
      ensures r.Ok? ==> !doom(old(db))
    {
      r := Commit(db.WithRow(id, event));
    }

    method RemoveQuarantine(id: Id) returns (r: Result<()>)
      modifies this
      ensures Tried(old(db).WithRowOff(id), r)
      ensures r.Ok? ==> id !in old(db).quarantine || !doom(old(db))
    {
      if id !in db.quarantine {
        return Ok(());
      }
      r := Commit(db.WithRowOff(id));
    }

    method UpsertDerivation(id: Id, d: Derivation) returns (r: Result<()>)
      modifies this
      ensures Tried(old(db).WithDerivation(id, d), r)
      ensures r.Ok? ==> !doom(old(db))
    {
      r := Commit(db.WithDerivation(id, d));
    }

    method UpsertRecorded(e: Edge) returns (r: Result<()>)
      modifies this
      ensures Tried(old(db).WithRecorded(e), r)
      ensures r.Ok? ==> !doom(old(db))
    {
      r := Commit(db.WithRecorded(e));
    }

    method UpsertHidden(source: Id, target: Id, e: Evidence) returns (r: Result<()>)
      modifies this
      ensures Tried(old(db).WithHidden(source, target, e), r)
    {
      r := Commit(db.WithHidden(source, target, e));
    }

    method Update(e: Event) returns (r: Result<()>)
      modifies this
      ensures Tried(old(db).WithEvent(e), r)
      ensures r.Ok? ==> !doom(old(db))
    {
      r := Commit(db.WithEvent(e));
    }

    method RecordTransition(key: Key, s: Step) returns (r: Result<()>)
      modifies this
      ensures Tried(old(db).WithStep(key, s), r)
    {
      r := Commit(db.WithStep(key, s));
    }
  }
}
