/** `run_revocation` as a whole: the stages in order, resumable from every state the
    pipeline persists, and what a sequence of crashed calls adds up to. */
module Revocation {
  import opened Domain
  import opened StateMachine
  import opened Store
  import opened Planner
  import opened RevocationSpec
  import opened RevocationLaws
  import opened HiddenEvidence
  import opened Attempts
  import opened Foresight
  import opened RevocationInv
  import opened TrackSteps
  import opened Publication
  import opened RevocationSteps
  import opened Pipeline
  import opened ReplayStage
  import opened QuarantineStage
  import opened RebuildStage

  // ----- recovery and replay

  lemma MayReplay(db: Db, p: Params, key: Key, closure: seq<Id>, ev: Event, to: State)
    requires Good(db, p, key, closure) && Current(db, ev) && ev.key == key
    requires to in {ReplaySelection, Replaying} && (StageIndex(ev.state) < 3 ==> Scoured(db, p, ev.roots))
    ensures Advance(ev.state, to).Go? ==> MayMove(db, p, closure, ev, to)
  {
    hide Scannable, TargetsExist, Climbs, Tables, Tidy, Scoured;
  }

  lemma MayQuarantine(db: Db, p: Params, key: Key, closure: seq<Id>, ev: Event)
    requires Good(db, p, key, closure) && Current(db, ev) && ev.key == key && 3 <= StageIndex(ev.state)
    requires BeforeQuarantine(ev.state) ==> Decisions(db, p, closure, ev) == ev.decisions
    ensures Advance(ev.state, State.QuarantineApplied).Go? ==> MayMove(db, p, closure, ev, State.QuarantineApplied)
  {
    hide Scannable, TargetsExist, Climbs, Tables, Tidy, Scoured, Decisions;
  }

  lemma FoundHere(db: Db, p: Params, key: Key, closure: seq<Id>, ev: Event)
    requires Good(db, p, key, closure) && Current(db, ev) && ev.key == key && BeforeQuarantine(ev.state)
    requires IsClosure(db, ev.roots, ev.closure) && ev.candidates == Hidden(db, p, ev.closure)
    ensures ev.closure == closure && ev.candidates == Hidden(db, p, closure) && PairsDistinct(ev.candidates)
  {
    ClosureUnique(db, ev.roots, ev.closure, closure);
  }

  lemma SameLog(a: Db, b: Db, key: Key)
    requires a.log == b.log
    ensures a.LogOf(key) == b.LogOf(key)
  {
  }

  /** One step along the stage order from a stage that allows it, or nothing. */
  lemma ReplayMoves(s: State)
    requires Running(s)
    ensures s != CandidateRecovery ==> !Advance(s, Replaying).Illegal?
    ensures s != CandidateRecovery ==>
              After(s, Replaying, Advance(s, Replaying)) == if s == ReplaySelection then Replaying else s
    ensures s !in {CandidateRecovery, ReplaySelection} ==> !Advance(s, State.QuarantineApplied).Illegal?
    ensures s !in {CandidateRecovery, ReplaySelection} ==>
              After(s, State.QuarantineApplied, Advance(s, State.QuarantineApplied)) == if s == Replaying then State.QuarantineApplied else s
  {
  }

  /** Replay runs only on the way out of the replaying state; later calls go by what
      was saved. */
  method ReplayUnlessDone(ws: Workspace, p: Params, event: Event, ghost closure: seq<Id>) returns (r: Result<Event>)
    requires Good(ws.db, p, event.key, closure) && Current(ws.db, event) && 3 <= StageIndex(event.state) <= 8
    requires BeforeQuarantine(event.state) ==>
              event.candidates == Hidden(ws.db, p, closure) && PairsDistinct(event.candidates)
    modifies ws
    ensures Kept(old(ws.db), ws.db, p, event.key, closure)
    ensures ReadsSame(old(ws.db), ws.db) && RebuiltSame(old(ws.db), ws.db, event.key)
    ensures r.Ok? ==> Current(ws.db, r.value) && r.value == event.(decisions := r.value.decisions, state := r.value.state)
    ensures r.Ok? && BeforeQuarantine(event.state) ==>
              && r.value.decisions == Decisions(old(ws.db), p, closure, event)
              && Witnessed(old(ws.db).hidden, ws.db.hidden, event.decisions, r.value.decisions)
    ensures r.Ok? && !BeforeQuarantine(event.state) ==>
              r.value.decisions == event.decisions && ws.db.hidden == old(ws.db).hidden
    ensures r.Ok? ==> r.value.state == if BeforeQuarantine(event.state) then State.QuarantineApplied else event.state
    ensures r.Ok? && PathInTable(old(ws.db).LogOf(event.key), event.state) ==>
              PathInTable(ws.db.LogOf(event.key), r.value.state)
    ensures r.Err? ==> r.Crashed()
    ensures ws.Ran(r.Crashed())
  {
    hide Good, Kept, ReadsSame, MayMove, PathInTable, Decisions, Hidden, IsClosure, PairsDistinct, Advance, After,
      Witnessed;
    ghost var start := ws.db;
    ReplayMoves(event.state);
    var due := BeforeQuarantine(event.state);
    MayReplay(start, p, event.key, closure, event, Replaying);
    var replaying := Proceed(ws, p, event, Replaying, closure);
    ReadsSpan(start, ws.db, p, closure);
    var ev :- replaying;
    ghost var a := ws.db;
    KeptGood(start, a, p, event.key, closure);
    if due {
      DecisionsAhead(start, a, p, closure, event, ev);
      var replayed := ReplayAll(ws, p, ev, closure);
      KeptTwice(start, a, ws.db, p, event.key, closure);
      ReadsTwice(start, a, ws.db);
      ev :- replayed;
      SameLog(a, ws.db, event.key);
    }
    ghost var b := ws.db;
    KeptGood(start, b, p, event.key, closure);
    ReplayMoves(ev.state);
    MayQuarantine(b, p, event.key, closure, ev);
    r := Proceed(ws, p, ev, State.QuarantineApplied, closure);
    KeptTwice(start, b, ws.db, p, event.key, closure);
    ReadsSpan(b, ws.db, p, closure);
    ReadsTwice(start, b, ws.db);
  }

  lemma DecisionsAhead(a: Db, b: Db, p: Params, closure: seq<Id>, ev: Event, ev': Event)
    requires ReadsSame(a, b) && BeforeQuarantine(ev.state) && BeforeQuarantine(ev'.state) && ev'.decisions == ev.decisions
    ensures Decisions(b, p, closure, ev') == Decisions(a, p, closure, ev)
  {
    assert SnapshotOf(a) == SnapshotOf(b);
  }

  lemma ReadsSpan(a: Db, b: Db, p: Params, closure: seq<Id>)
    ensures ReadsSame(a, b) ==> Hidden(a, p, closure) == Hidden(b, p, closure)
  {
    if ReadsSame(a, b) {
      assert SnapshotOf(a) == SnapshotOf(b);
    }
  }

  lemma SelectMove(s: State)
    requires !Terminal(s)
    ensures Advance(s, ReplaySelection).Illegal? <==> !Running(s)
    ensures After(s, ReplaySelection, Advance(s, ReplaySelection)) == if s == CandidateRecovery then ReplaySelection else s
  {
  }

  /** Recovery. While the run may still replay, what it finds is what replay will use. */
  method Recover(ws: Workspace, p: Params, event: Event, ghost closure: seq<Id>) returns (r: Result<Event>)
    requires Good(ws.db, p, event.key, closure) && Current(ws.db, event) && !Terminal(event.state)
    modifies ws
    ensures Kept(old(ws.db), ws.db, p, event.key, closure)
    ensures ReadsSame(old(ws.db), ws.db) && ws.db.log == old(ws.db).log && RebuiltSame(old(ws.db), ws.db, event.key)
    ensures r.Ok? ==> Current(ws.db, r.value)
    ensures r.Ok? ==> r.value == event.(closure := r.value.closure, candidates := r.value.candidates)
    ensures r.Ok? ==> IsClosure(old(ws.db), event.roots, r.value.closure)
    ensures r.Ok? ==> ws.db.hidden == Swept(old(ws.db), p, r.value.closure) && Scoured(ws.db, p, event.roots)
    ensures r.Ok? && BeforeQuarantine(event.state) ==>
              r.value.closure == closure && r.value.candidates == Hidden(ws.db, p, closure) && PairsDistinct(r.value.candidates)
    ensures r.Err? ==> r.Crashed() || r == Err(NoRoots)
    ensures r == Err(NoRoots) <==> event.roots == []
    ensures event.roots == [] ==> ws.db == old(ws.db)
    ensures ws.Ran(r.Crashed())
  {
    hide Good, Kept, ReadsSame, Hidden, IsClosure, PairsDistinct, Swept, Scoured;
    ghost var start := ws.db;
    r := RecoverStage(ws, p, event, closure);
    if r.Ok? && BeforeQuarantine(event.state) {
      KeptGood(start, ws.db, p, event.key, closure);
      ReadsClosure(start, ws.db, event.roots, r.value.closure);
      FoundHere(ws.db, p, event.key, closure, r.value);
    }
  }

  lemma ReadsClosure(a: Db, b: Db, roots: seq<Id>, c: seq<Id>)
    requires ReadsSame(a, b) && IsClosure(a, roots, c)
    ensures IsClosure(b, roots, c)
  {
    ClosureOn(a, b, roots, c);
  }

  /** Recovery, and the candidates replay will select from. */
  method RecoverAndSelect(ws: Workspace, p: Params, event: Event, ghost closure: seq<Id>) returns (r: Result<Event>)
    requires Good(ws.db, p, event.key, closure) && Current(ws.db, event) && !Terminal(event.state)
    modifies ws
    ensures Kept(old(ws.db), ws.db, p, event.key, closure)
    ensures ReadsSame(old(ws.db), ws.db) && RebuiltSame(old(ws.db), ws.db, event.key)
    ensures r.Ok? ==> Current(ws.db, r.value) && Running(event.state) && 3 <= StageIndex(r.value.state) <= 8
    ensures r.Ok? ==> r.value == event.(closure := r.value.closure, candidates := r.value.candidates, state := r.value.state)
    ensures r.Ok? ==> r.value.state == if event.state == CandidateRecovery then ReplaySelection else event.state
    ensures r.Ok? ==> IsClosure(old(ws.db), event.roots, r.value.closure)
    ensures r.Ok? ==> ws.db.hidden == Swept(old(ws.db), p, r.value.closure)
    ensures r.Ok? && BeforeQuarantine(event.state) ==>
              r.value.closure == closure && r.value.candidates == Hidden(ws.db, p, closure) && PairsDistinct(r.value.candidates)
    ensures r.Ok? && PathInTable(old(ws.db).LogOf(event.key), event.state) ==>
              PathInTable(ws.db.LogOf(event.key), r.value.state)
    ensures r.Err? ==> r.Crashed() || r == Err(NoRoots) || (r == Err(InvalidTransition) && !Running(event.state))
    ensures r == Err(NoRoots) <==> event.roots == []
    ensures event.roots == [] ==> ws.db == old(ws.db)
    ensures ws.Ran(r.Crashed())
  {
    hide Good, Kept, ReadsSame, MayMove, PathInTable, Decisions, Hidden, IsClosure, PairsDistinct, Swept, Advance,
      After, Scoured;
    ghost var start := ws.db;
    SelectMove(event.state);
    var recovered := Recover(ws, p, event, closure);
    var ev :- recovered;
    ghost var a := ws.db;
    SameLog(start, a, event.key);
    KeptGood(start, a, p, event.key, closure);
    MayReplay(a, p, event.key, closure, ev, ReplaySelection);
    r := Proceed(ws, p, ev, ReplaySelection, closure);
    KeptTwice(start, a, ws.db, p, event.key, closure);
    ReadsSpan(a, ws.db, p, closure);
    ReadsTwice(start, a, ws.db);
  }

  /** The decisions and the evidence with which the first half of a call ends, as
      foreseen from its start. */
  ghost predicate HeardNow(a: Db, b: Db, p: Params, event: Event, ev: Event) {
    && IsClosure(a, event.roots, ev.closure)
    && b.hidden == Heard(a, p, ev.closure, event)
    && ev.decisions == Decisions(a, p, ev.closure, event)
  }

  lemma HeardIs(a: Db, m: Db, b: Db, p: Params, event: Event, ev: Event)
    requires IsClosure(a, event.roots, ev.closure) && ReadsSame(a, m) && m.hidden == Swept(a, p, ev.closure)
    requires if BeforeQuarantine(event.state)
             then ev.decisions == Decisions(a, p, ev.closure, event) && Witnessed(m.hidden, b.hidden, event.decisions, ev.decisions)
             else ev.decisions == event.decisions && b.hidden == m.hidden
    ensures HeardNow(a, b, p, event, ev)
  {
    hide IsClosure, Swept;
  }

  /** The first half: recover, replay what is still undecided, close the replay. */
  method RecoverAndReplay(ws: Workspace, p: Params, event: Event, ghost closure: seq<Id>) returns (r: Result<Event>)
    requires Good(ws.db, p, event.key, closure) && Current(ws.db, event) && !Terminal(event.state)
    modifies ws
    ensures Kept(old(ws.db), ws.db, p, event.key, closure)
    ensures ReadsSame(old(ws.db), ws.db) && RebuiltSame(old(ws.db), ws.db, event.key)
    ensures r.Ok? ==> Current(ws.db, r.value) && 5 <= StageIndex(r.value.state) <= 8
    ensures r.Ok? ==> r.value == event.(closure := r.value.closure, candidates := r.value.candidates,
                                        decisions := r.value.decisions, state := r.value.state)
    ensures r.Ok? ==> r.value.state == if BeforeQuarantine(event.state) then State.QuarantineApplied else event.state
    ensures r.Ok? ==> HeardNow(old(ws.db), ws.db, p, event, r.value)
    ensures r.Ok? && PathInTable(old(ws.db).LogOf(event.key), event.state) ==>
              PathInTable(ws.db.LogOf(event.key), r.value.state)
    ensures r.Err? ==> r.Crashed() || r == Err(NoRoots) || r == Err(InvalidTransition)
    ensures r == Err(NoRoots) <==> event.roots == []
    ensures event.roots == [] ==> ws.db == old(ws.db)
    ensures r.Ok? ==> Running(event.state)
    ensures r == Err(InvalidTransition) ==> !Running(event.state)
    ensures ws.Ran(r.Crashed())
  {
    hide Good, Kept, ReadsSame, MayMove, PathInTable, Decisions, Hidden, IsClosure, PairsDistinct, HeardNow,
      Swept, Witnessed;
    ghost var start := ws.db;
    var selected := RecoverAndSelect(ws, p, event, closure);
    var ev :- selected;
    ghost var b := ws.db;
    KeptGood(start, b, p, event.key, closure);
    if BeforeQuarantine(event.state) {
      DecisionsAhead(start, b, p, closure, event, ev);
    }
    r := ReplayUnlessDone(ws, p, ev, closure);
    KeptTwice(start, b, ws.db, p, event.key, closure);
    ReadsTwice(start, b, ws.db);
    if r.Ok? {
      HeardIs(start, b, ws.db, p, event, r.value);
    }
  }

  // ----- rebuild, when asked for

  lemma MayPlan(db: Db, p: Params, key: Key, closure: seq<Id>, ev: Event, to: State)
    requires Good(db, p, key, closure) && Current(db, ev) && ev.key == key
    requires StageDone(ev) && Rebuilds(p, ev.policy) && ev.quarantined != []
    requires to in {RebuildPlanning, State.Rebuilding} && StageIndex(ev.state) + 1 >= StageIndex(to) && 5 <= StageIndex(ev.state) <= 8
    ensures !Advance(ev.state, to).Illegal?
    ensures Advance(ev.state, to).Go? ==> MayMove(db, p, closure, ev, to)
  {
    hide Scannable, TargetsExist, Climbs, Tables, Tidy;
    AdvanceNeverStuck(ev.state, to);
  }

  lemma RebuiltStageDone(db: Db, p: Params, key: Key, closure: seq<Id>, ev: Event)
    requires Good(db, p, key, closure) && Current(db, ev) && ev.key == key && 6 <= StageIndex(ev.state) <= 8
    ensures StageDone(ev) && !ev.policy.Forensic? && ev.quarantined != []
  {
  }

  method EnterRebuilding(ws: Workspace, p: Params, event: Event, ghost closure: seq<Id>) returns (r: Result<Event>)
    requires Good(ws.db, p, event.key, closure) && Current(ws.db, event) && StageDone(event)
    requires 5 <= StageIndex(event.state) <= 8 && Rebuilds(p, event.policy) && event.quarantined != []
    modifies ws
    ensures Kept(old(ws.db), ws.db, p, event.key, closure)
    ensures SameTables(old(ws.db), ws.db) && RebuiltSame(old(ws.db), ws.db, event.key)
    ensures r.Ok? ==> Current(ws.db, r.value) && 7 <= StageIndex(r.value.state) <= 8
    ensures r.Ok? ==> r.value == event.(state := r.value.state)
    ensures r.Ok? && PathInTable(old(ws.db).LogOf(event.key), event.state) ==>
              PathInTable(ws.db.LogOf(event.key), r.value.state)
    ensures r.Err? ==> r.Crashed()
    ensures ws.Ran(r.Crashed())
  {
    hide Good, Kept, ReadsSame, MayMove, PathInTable, StageDone, SameTables;
    ghost var start := ws.db;
    SameTablesSelf(start);
    MayPlan(start, p, event.key, closure, event, RebuildPlanning);
    var planning := Proceed(ws, p, event, RebuildPlanning, closure);
    ReadsTables(start, start, ws.db);
    var ev :- planning;
    ghost var a := ws.db;
    KeptGood(start, a, p, event.key, closure);
    RebuiltStageDone(a, p, event.key, closure, ev);
    MayPlan(a, p, event.key, closure, ev, State.Rebuilding);
    r := Proceed(ws, p, ev, State.Rebuilding, closure);
    ReadsTables(start, a, ws.db);
    KeptTwice(start, a, ws.db, p, event.key, closure);
  }

  lemma SameTablesSelf(a: Db)
    ensures SameTables(a, a)
  {
  }

  /** What the rebuild block makes of a store, or nothing when it is not entered. */
  function AheadIfAsked(a: Db, p: Params, event: Event): Walk {
    if Rebuilds(p, event.policy) then Ahead(a, p, event, |event.quarantined|) else Walk(a, ProgressOf(event))
  }

  /** Where the loop stands does not depend on the event's state, nor on other events. */
  lemma AheadSame(a: Db, b: Db, p: Params, event: Event, ev: Event, i: nat)
    requires SameTables(a, b) && i <= |event.quarantined|
    requires ev.key == event.key && ev.quarantined == event.quarantined && ProgressOf(ev) == ProgressOf(event)
    ensures SameTables(Ahead(a, p, event, i).db, Ahead(b, p, ev, i).db) && Ahead(a, p, event, i).done == Ahead(b, p, ev, i).done
  {
    hide AttemptAll;
    SameTablesAll(a, b, p, event.key, ProgressOf(event), event.quarantined[..i]);
  }

  lemma PassedSame(doom: Db -> bool, a: Db, b: Db, p: Params, event: Event, ev: Event)
    requires PassedBy(doom, b, p, ev, |ev.quarantined|) && SameTables(a, b) && ev == event.(state := ev.state)
    ensures PassedBy(doom, a, p, event, |event.quarantined|)
  {
    hide Ahead, SurvivedAt, Done, Positions;
    forall j: nat | j < |event.quarantined| ensures Survived(doom, a, p, event, j) {
      assert Survived(doom, b, p, ev, j);
      AheadSame(a, b, p, event, ev, j);
      var w, v, t := Ahead(a, p, event, j), Ahead(b, p, ev, j), event.quarantined[j];
      if !Done(v.done, t) {
        forall k: nat | k <= Positions(w.db, p, t) ensures SurvivedAt(doom, w, p, event, t, k) {
          SurvivedSame(doom, w, v, p, event, ev, t, k);
        }
      }
    }
  }

  lemma SurvivedSame(doom: Db -> bool, w: Walk, v: Walk, p: Params, event: Event, ev: Event, t: Id, k: nat)
    requires SameTables(w.db, v.db) && w.done == v.done && ev == event.(state := ev.state)
    requires k <= Positions(w.db, p, t)
    ensures Positions(v.db, p, t) == Positions(w.db, p, t)
    ensures SurvivedAt(doom, v, p, ev, t, k) ==> SurvivedAt(doom, w, p, event, t, k)
  {
    hide Part, Positions;
    SameTablesPart(w.db, v.db, p, event.key, t, k);
    if SurvivedAt(doom, v, p, ev, t, k) {
      var y :| Halfway(v, p, ev, t, k, y) && !doom(y);
      assert Halfway(w, p, event, t, k, y);
    }
  }

  /** The rebuild block, or nothing. */
  method RebuildIfAsked(ws: Workspace, p: Params, event: Event, ghost closure: seq<Id>) returns (r: Result<Event>)
    requires Good(ws.db, p, event.key, closure) && Current(ws.db, event) && StageDone(event)
    requires 5 <= StageIndex(event.state) <= 8
    modifies ws
    ensures Kept(old(ws.db), ws.db, p, event.key, closure)
    ensures r.Ok? ==> Current(ws.db, r.value) && StageDone(r.value) && 5 <= StageIndex(r.value.state) <= 8
    ensures r.Ok? ==> r.value == event.(state := r.value.state, rebuilt := r.value.rebuilt, unresolved := r.value.unresolved)
    ensures r.Ok? ==> SameTables(AheadIfAsked(old(ws.db), p, event).db, ws.db)
    ensures r.Ok? ==> ProgressOf(r.value) == AheadIfAsked(old(ws.db), p, event).done
    ensures r.Ok? && Rebuilds(p, event.policy) ==> PassedBy(old(ws.doom), old(ws.db), p, event, |event.quarantined|)
    ensures event.key in ws.db.events && Sourced(ws.Stores(), p, event, ws.db.events[event.key])
    ensures r.Ok? && Rebuilds(p, event.policy) ==> AllDone(r.value)
    ensures r.Ok? ==> r.value.state == if Rebuilds(p, event.policy) && event.quarantined != [] then Verifying else event.state
    ensures r.Ok? && PathInTable(old(ws.db).LogOf(event.key), event.state) ==>
              PathInTable(ws.db.LogOf(event.key), r.value.state)
    ensures r.Err? ==> r.Crashed()
    ensures ws.Ran(r.Crashed())
  {
    hide Good, Kept, MayMove, PathInTable, StageDone, Standing, PassedBy, Sourced, Ahead, SameTables, AllDone;
    ghost var start, doom := ws.db, ws.doom;
    KeptSelf(start, p, event.key, closure);
    if !(p.attemptRebuild && event.policy != Forensic && event.quarantined != []) {
      NothingAhead(doom, start, p, event);
      NothingSourced(ws.Stores(), p, event);
      return Ok(event);
    }
    var entered := EnterRebuilding(ws, p, event, closure);
    NothingSourced(ws.Stores(), p, event);
    SourcedOn(ws.Stores(), ws.Stores(), p, event, event, ws.db.events[event.key]);
    var ev :- entered;
    ghost var b := ws.db;
    KeptGood(start, b, p, event.key, closure);
    r := RebuildTargets(ws, p, ev, closure);
    KeptTwice(start, b, ws.db, p, event.key, closure);
    SourcedFromEvent(ws.Stores(), p, ev, event, ws.db.events[event.key]);
    if r.Ok? {
      AheadSame(start, b, p, event, ev, |event.quarantined|);
      PassedSame(doom, start, b, p, event, ev);
      QueueDone(start, b, ws.db, p, event, ev, r.value);
      KeptGood(start, ws.db, p, event.key, closure);
      RebuiltStageDone(ws.db, p, event.key, closure, r.value);
    }
  }

  lemma NothingAhead(doom: Db -> bool, a: Db, p: Params, event: Event)
    requires !Rebuilds(p, event.policy) || event.quarantined == []
    ensures AheadIfAsked(a, p, event) == Walk(a, ProgressOf(event)) && SameTables(a, a)
    ensures Rebuilds(p, event.policy) ==> PassedBy(doom, a, p, event, |event.quarantined|) && AllDone(event)
  {
  }

  lemma QueueDone(a: Db, b: Db, c: Db, p: Params, event: Event, queued: Event, ev: Event)
    requires queued == event.(state := queued.state) && Rebuilds(p, event.policy)
    requires var n := |event.quarantined|;
      && Standing(Ahead(b, p, queued, n), queued, c) && Current(c, ev) && ev.key == event.key
      && SameTables(Ahead(a, p, event, n).db, Ahead(b, p, queued, n).db) && Ahead(a, p, event, n).done == Ahead(b, p, queued, n).done
    ensures AllDone(ev) && SameTables(AheadIfAsked(a, p, event).db, c) && ProgressOf(ev) == AheadIfAsked(a, p, event).done
    ensures ev == event.(state := ev.state, rebuilt := ev.rebuilt, unresolved := ev.unresolved)
  {
    hide AttemptAll;
    AheadDone(a, p, event, |event.quarantined|);
    forall t | t in ev.quarantined ensures Done(ProgressOf(ev), t) {
      var j :| 0 <= j < |event.quarantined| && event.quarantined[j] == t;
    }
  }

  // ----- the end

  lemma AccountedAtEnd(db: Db, p: Params, key: Key, closure: seq<Id>, ev: Event)
    requires Good(db, p, key, closure) && Current(db, ev) && ev.key == key
    requires Rebuilds(p, ev.policy) ==> AllDone(ev)
    ensures Accounted(p, ev.(state := FinalState(ev.unresolved)))
  {
    SomeOriginal(ev.rebuilt);
  }

  lemma SomeOriginal(rs: seq<Rebuilt>)
    ensures rs == [] || exists t :: t in Originals(rs)
  {
    if rs != [] {
      assert rs[0].original in Originals(rs);
    }
  }

  lemma MayFinish(db: Db, p: Params, key: Key, closure: seq<Id>, ev: Event)
    requires Good(db, p, key, closure) && Current(db, ev) && ev.key == key
    requires StageDone(ev) && 5 <= StageIndex(ev.state) <= 8 && (Rebuilds(p, ev.policy) ==> AllDone(ev))
    requires FinalState(ev.unresolved) in Allowed(ev.state)
    ensures MayMove(db, p, closure, ev, FinalState(ev.unresolved))
  {
    hide Scannable, TargetsExist, Climbs, Tables, Accounted, StageDone, AllDone;
    AccountedAtEnd(db, p, key, closure, ev);
    ShapeFinishes(ev);
  }

  lemma ShapeFinishes(ev: Event)
    requires Shape(ev) && 5 <= StageIndex(ev.state) <= 8
    ensures Shape(ev.(state := FinalState(ev.unresolved)))
  {
  }

  lemma StaysPut(a: Db, ev: Event)
    requires Current(a, ev)
    ensures ReadsSame(a, a) && RebuiltSame(a, a, ev.key)
  {
  }

  lemma MovedReads(a: Db, b: Db, ev: Event, to: State, r: Result<Event>)
    requires Current(a, ev) && Moved(a, b, ev, to, r)
    ensures ReadsSame(a, b) && b.hidden == a.hidden && RebuiltSame(a, b, ev.key)
    ensures r.Ok? ==> r.value == ev.(state := to) && Current(b, r.value)
    ensures r.Err? ==> r.Crashed()
  {
  }

  method Finalize(ws: Workspace, p: Params, event: Event, ghost closure: seq<Id>) returns (r: Result<Event>)
    requires Good(ws.db, p, event.key, closure) && Current(ws.db, event)
    requires StageDone(event) && 5 <= StageIndex(event.state) <= 8 && (Rebuilds(p, event.policy) ==> AllDone(event))
    modifies ws
    ensures Kept(old(ws.db), ws.db, p, event.key, closure)
    ensures ReadsSame(old(ws.db), ws.db) && ws.db.hidden == old(ws.db).hidden && RebuiltSame(old(ws.db), ws.db, event.key)
    ensures r.Ok? ==> Current(ws.db, r.value) && r.value == event.(state := FinalState(event.unresolved))
    ensures r.Ok? && PathInTable(old(ws.db).LogOf(event.key), event.state) ==>
              PathInTable(ws.db.LogOf(event.key), r.value.state)
    ensures Unfinishable(event.state) ==> r == Err(InvalidTransition)
    ensures !Unfinishable(event.state) && r.Err? ==> r.Crashed()
    ensures ws.Ran(r.Crashed())
  {
    hide Good, Kept, PathInTable, StageDone, MayMove, AllDone, Moved, ReadsSame;
    ghost var start := ws.db;
    KeptSelf(start, p, event.key, closure);
    StaysPut(start, event);
    var to := if event.unresolved != [] then CompletedWithUnresolved else Completed;
    if to in Allowed(event.state) {
      MayFinish(start, p, event.key, closure, event);
    }
    var moved := TransitionTo(ws, event, to);
    if to in Allowed(event.state) {
      MoveKept(start, ws.db, p, event.key, closure, to, moved);
      MovedReads(start, ws.db, event, to, moved);
    }
    var ev :- moved;
    SavedAgain(ws.db, ev);
    var _ :- ws.Update(ev);
    return Ok(ev);
  }

  // ----- the second half

  lemma FindingsReached(a: Db, b: Db, p: Params, key: Key, closure: seq<Id>)
    requires Kept(a, b, p, key, closure) && Terminal(b.events[key].state)
    ensures key in a.events && key in b.events
    ensures (b.events[key].decisions, b.events[key].quarantined) == Findings(a, p, closure, a.events[key])
  {
    hide TrackKept, PublishedKept;
  }

  /** The ledger the quarantine stage makes of a persisted event. */
  function LedgerAhead(p: Params, event: Event): Ledger {
    Settled(p, event, event.decisions)
  }

  method QuarantineAll(ws: Workspace, p: Params, event: Event, ghost closure: seq<Id>) returns (r: Result<Event>)
    requires Good(ws.db, p, event.key, closure) && Current(ws.db, event) && 5 <= StageIndex(event.state) <= 8
    modifies ws
    ensures Kept(old(ws.db), ws.db, p, event.key, closure) && ws.db.log == old(ws.db).log
    ensures RebuiltSame(old(ws.db), ws.db, event.key)
    ensures r.Ok? ==> Current(ws.db, r.value) && StageDone(r.value)
    ensures r.Ok? ==> r.value == WithLedger(event, LedgerAhead(p, event))
    ensures r.Ok? ==> SameTables(QuarantinedOn(old(ws.db), event.key, event.quarantined, r.value.quarantined), ws.db)
    ensures r.Err? ==> r.Crashed()
    ensures ws.Ran(r.Crashed())
  {
    hide Good, Kept, StageDone, ConfirmedDone, Quarantines, QuarantinedOn, SettlesAs, LedgerAhead;
    ghost var start := ws.db;
    var confirmed := QuarantineConfirmed(ws, p, event, closure);
    var ev :- confirmed;
    ghost var a := ws.db;
    KeptGood(start, a, p, event.key, closure);
    r := SettleUnresolved(ws, p, ev, closure);
    KeptTwice(start, a, ws.db, p, event.key, closure);
    if r.Ok? {
      QuarantinesTwice(start, a, ws.db, event.key, event.quarantined, ev.quarantined, r.value.quarantined);
      QuarantinesIs(start, ws.db, event.key, event.quarantined, r.value.quarantined);
      LedgerIs(p, event, ev, LedgerOf(r.value));
    }
  }

  lemma LedgerIs(p: Params, event: Event, ev: Event, l: Ledger)
    requires ev == event.(quarantined := ev.quarantined) && SettlesAs(p, ev, l)
    requires ev.quarantined == if event.policy.Forensic? then event.quarantined else AddMissing(event.quarantined, ConfirmedList(event))
    ensures l == LedgerAhead(p, event)
  {
  }

  /** Quarantining exactly the targets that joined the list gives one particular store. */
  lemma QuarantinesIs(a: Db, b: Db, key: Key, was: seq<Id>, now: seq<Id>)
    requires Quarantines(a, b, key, was, now)
    ensures SameTables(QuarantinedOn(a, key, was, now), b.(events := a.events))
    ensures b.log == a.log ==> SameTables(QuarantinedOn(a, key, was, now), b)
  {
    var c := QuarantinedOn(a, key, was, now);
    forall id
      ensures id in c.artifacts <==> id in b.artifacts
      ensures id in c.artifacts ==> c.artifacts[id] == b.artifacts[id]
      ensures id in c.quarantine <==> id in b.quarantine
      ensures id in c.quarantine ==> c.quarantine[id] == b.quarantine[id]
    {
      assert QuarantinedAt(a, b, key, id, Joins(id, was, now));
    }
    assert c.artifacts == b.artifacts && c.quarantine == b.quarantine;
  }

  /** The store and the event with which the rebuild block is entered. */
  function QueuedOn(a: Db, p: Params, event: Event): Db {
    QuarantinedOn(a, event.key, event.quarantined, LedgerAhead(p, event).quarantined)
  }

  function Queued(p: Params, event: Event): Event {
    WithLedger(event, LedgerAhead(p, event))
  }

  function FinishedAs(a: Db, p: Params, event: Event): Summary {
    var g := AheadIfAsked(QueuedOn(a, p, event), p, Queued(p, event)).done;
    Summary(event.decisions, LedgerAhead(p, event).quarantined, g.rebuilt, g.unresolved, FinalState(g.unresolved))
  }

  /** Quarantine, rebuild if asked to, finish. */
  method QuarantineAndFinish(ws: Workspace, p: Params, event: Event, ghost closure: seq<Id>) returns (r: Result<Event>)
    requires Good(ws.db, p, event.key, closure) && Current(ws.db, event) && 5 <= StageIndex(event.state) <= 8
    modifies ws
    ensures Kept(old(ws.db), ws.db, p, event.key, closure)
    ensures r.Ok? ==> Current(ws.db, r.value) && r.value.key == event.key && Terminal(r.value.state) && Accounted(p, r.value)
    ensures r.Ok? ==> SummaryOf(r.value) == FinishedAs(old(ws.db), p, event)
    ensures r.Ok? && Rebuilds(p, event.policy) ==>
              PassedBy(old(ws.doom), QueuedOn(old(ws.db), p, event), p, Queued(p, event), |Queued(p, event).quarantined|)
    ensures event.key in ws.db.events && Sourced(ws.Stores(), p, event, ws.db.events[event.key])
    ensures r.Ok? && PathInTable(old(ws.db).LogOf(event.key), event.state) ==>
              PathInTable(ws.db.LogOf(event.key), r.value.state)
    ensures r.Err? ==> r.Crashed() || (r == Err(InvalidTransition) && Unfinishable(event.state) && !p.attemptRebuild)
    ensures Unfinishable(event.state) && !p.attemptRebuild ==> r.Err?
    ensures ws.Ran(r.Crashed())
  {
    hide Good, Kept, ReadsSame, PathInTable, StageDone, AllDone, Accounted, PassedBy, Sourced, SameTables,
      QuarantinedOn, LedgerAhead, Ahead;
    ghost var start := ws.db;
    var quarantined := QuarantineAll(ws, p, event, closure);
    NothingSourced(ws.Stores(), p, event);
    SourcedOn(ws.Stores(), ws.Stores(), p, event, event, ws.db.events[event.key]);
    var ev :- quarantined;
    ghost var a := ws.db;
    SameLog(start, a, event.key);
    KeptGood(start, a, p, event.key, closure);
    if Unfinishable(ev.state) {
      RebuiltStageDone(a, p, event.key, closure, ev);
    }
    var rebuilt := RebuildIfAsked(ws, p, ev, closure);
    KeptTwice(start, a, ws.db, p, event.key, closure);
    SourcedFromEvent(ws.Stores(), p, ev, event, ws.db.events[event.key]);
    var queued := ev;
    ev :- rebuilt;
    ghost var b, stores := ws.db, ws.Stores();
    KeptGood(start, b, p, event.key, closure);
    r := Finalize(ws, p, ev, closure);
    KeptTwice(start, b, ws.db, p, event.key, closure);
    SourcedOn(stores, ws.Stores(), p, event, ev, ws.db.events[event.key]);
    if r.Ok? {
      AccountedAtEnd(b, p, event.key, closure, ev);
      FinishedIs(start, a, p, event, queued, r.value);
    }
  }

  lemma FinishedIs(start: Db, a: Db, p: Params, event: Event, queued: Event, ev: Event)
    requires queued == Queued(p, event) && SameTables(QueuedOn(start, p, event), a)
    requires ev.decisions == event.decisions && ev.quarantined == queued.quarantined && ev.state == FinalState(ev.unresolved)
    requires ProgressOf(ev) == AheadIfAsked(a, p, queued).done
    ensures SummaryOf(ev) == FinishedAs(start, p, event)
    ensures forall doom :: PassedBy(doom, a, p, queued, |queued.quarantined|) ==>
              PassedBy(doom, QueuedOn(start, p, event), p, queued, |queued.quarantined|)
  {
    hide QuarantinedOn, LedgerAhead, Ahead, PassedBy, SameTables;
    AheadSame(QueuedOn(start, p, event), a, p, queued, queued, |queued.quarantined|);
    forall doom | PassedBy(doom, a, p, queued, |queued.quarantined|)
      ensures PassedBy(doom, QueuedOn(start, p, event), p, queued, |queued.quarantined|)
    {
      PassedSame(doom, QueuedOn(start, p, event), a, p, queued, queued);
    }
  }

  // ----- the whole call

  /** How many steps into its `i`-th target the foreseen run can be seen. */
  function Steps(db: Db, p: Params, c: seq<Id>, ev: Event, i: nat): nat
    requires i < |TargetsOf(db, p, c, ev)|
  {
    Positions(WalkTo(db, p, c, ev, i).db, p, TargetsOf(db, p, c, ev)[i])
  }

  /** A store the foreseen run reaches `k` steps into its `i`-th target. */
  predicate Reached(db: Db, p: Params, c: seq<Id>, ev: Event, i: nat, k: nat, y: Db)
    requires i < |TargetsOf(db, p, c, ev)| && k <= Steps(db, p, c, ev, i)
  {
    && SameTables(Part(WalkTo(db, p, c, ev, i).db, p, ev.key, TargetsOf(db, p, c, ev)[i], k), y) && ev.key in y.events
    && var e := y.events[ev.key];
    && 7 <= StageIndex(e.state) <= 8 && SameRequest(ev, e)
    && e.decisions == Decisions(db, p, c, ev) && e.quarantined == TargetsOf(db, p, c, ev)
    && ProgressOf(e) == WalkTo(db, p, c, ev, i).done
  }

  /** The process got past every step of the `i`-th target. */
  ghost predicate Outlived(doom: Db -> bool, db: Db, p: Params, c: seq<Id>, ev: Event, i: nat)
    requires i < |TargetsOf(db, p, c, ev)|
  {
    || Done(WalkTo(db, p, c, ev, i).done, TargetsOf(db, p, c, ev)[i])
    || forall k: nat :: k <= Steps(db, p, c, ev, i) ==> OutlivedAt(doom, db, p, c, ev, i, k)
  }

  ghost predicate OutlivedAt(doom: Db -> bool, db: Db, p: Params, c: seq<Id>, ev: Event, i: nat, k: nat)
    requires i < |TargetsOf(db, p, c, ev)| && k <= Steps(db, p, c, ev, i)
  {
    exists y :: Reached(db, p, c, ev, i, k, y) && !doom(y)
  }

  ghost predicate OutlivedAll(doom: Db -> bool, db: Db, p: Params, c: seq<Id>, ev: Event) {
    forall i: nat :: i < |TargetsOf(db, p, c, ev)| ==> Outlived(doom, db, p, c, ev, i)
  }

  /** What replay leaves to quarantine and rebuild is what the call foresees from its start. */
  lemma StartIs(a: Db, b: Db, p: Params, event: Event, ev: Event)
    requires ReadsSame(a, b) && HeardNow(a, b, p, event, ev)
    requires ev == event.(closure := ev.closure, candidates := ev.candidates, decisions := ev.decisions, state := ev.state)
    ensures LedgerAhead(p, ev) == Settled(p, event, Decisions(a, p, ev.closure, event))
    ensures SameTables(Start(a, p, ev.closure, event), QueuedOn(b, p, ev))
  {
    hide IsClosure, Heard, Decisions;
    var l := LedgerAhead(p, ev);
    var c, d := QuarantinedOn(a, event.key, event.quarantined, l.quarantined), QuarantinedOn(b, event.key, event.quarantined, l.quarantined);
    assert c.artifacts == d.artifacts && c.quarantine == d.quarantine;
  }

  lemma WalkIs(a: Db, b: Db, p: Params, event: Event, ev: Event, i: nat)
    requires ReadsSame(a, b) && HeardNow(a, b, p, event, ev)
    requires ev == event.(closure := ev.closure, candidates := ev.candidates, decisions := ev.decisions, state := ev.state)
    requires i <= |LedgerAhead(p, ev).quarantined|
    ensures TargetsOf(a, p, ev.closure, event) == Queued(p, ev).quarantined
    ensures SameTables(WalkTo(a, p, ev.closure, event, i).db, Ahead(QueuedOn(b, p, ev), p, Queued(p, ev), i).db)
    ensures WalkTo(a, p, ev.closure, event, i).done == Ahead(QueuedOn(b, p, ev), p, Queued(p, ev), i).done
  {
    hide HeardNow, ReadsSame, Decisions, Settled, Start, QuarantinedOn, AttemptAll;
    StartIs(a, b, p, event, ev);
    var l := LedgerAhead(p, ev);
    SameTablesAll(Start(a, p, ev.closure, event), QueuedOn(b, p, ev), p, event.key,
                  Progress(event.rebuilt, l.unresolved), l.quarantined[..i]);
  }

  /** A call that ends, ends as foreseen. */
  lemma OutcomeIs(a: Db, b: Db, p: Params, event: Event, ev: Event, last: Event)
    requires ReadsSame(a, b) && HeardNow(a, b, p, event, ev) && !Terminal(event.state)
    requires ev == event.(closure := ev.closure, candidates := ev.candidates, decisions := ev.decisions, state := ev.state)
    requires SummaryOf(last) == FinishedAs(b, p, ev)
    ensures SummaryOf(last) == Outcome(a, p, ev.closure, event)
  {
    hide ReadsSame, Decisions, Settled, WalkTo, QueuedOn, Ahead, IsClosure, Heard;
    StartIs(a, b, p, event, ev);
    WalkIs(a, b, p, event, ev, |LedgerAhead(p, ev).quarantined|);
  }

  lemma ReachedIs(a: Db, b: Db, p: Params, event: Event, ev: Event, i: nat, k: nat, y: Db)
    requires ReadsSame(a, b) && HeardNow(a, b, p, event, ev)
    requires ev == event.(closure := ev.closure, candidates := ev.candidates, decisions := ev.decisions, state := ev.state)
    requires i < |LedgerAhead(p, ev).quarantined|
    requires var w, t := Ahead(QueuedOn(b, p, ev), p, Queued(p, ev), i), LedgerAhead(p, ev).quarantined[i];
      k <= Positions(w.db, p, t) && Halfway(w, p, Queued(p, ev), t, k, y)
    ensures TargetsOf(a, p, ev.closure, event) == Queued(p, ev).quarantined
    ensures k <= Steps(a, p, ev.closure, event, i) && Reached(a, p, ev.closure, event, i, k, y)
  {
    hide ReadsSame, Decisions, Settled, WalkTo, QueuedOn, Ahead, IsClosure, Heard, Part, Positions;
    WalkIs(a, b, p, event, ev, i);
    var w, t := Ahead(QueuedOn(b, p, ev), p, Queued(p, ev), i), LedgerAhead(p, ev).quarantined[i];
    SameTablesPart(w.db, WalkTo(a, p, ev.closure, event, i).db, p, event.key, t, k);
  }

  lemma OutlivedIs(doom: Db -> bool, a: Db, b: Db, p: Params, event: Event, ev: Event)
    requires ReadsSame(a, b) && HeardNow(a, b, p, event, ev)
    requires ev == event.(closure := ev.closure, candidates := ev.candidates, decisions := ev.decisions, state := ev.state)
    requires PassedBy(doom, QueuedOn(b, p, ev), p, Queued(p, ev), |Queued(p, ev).quarantined|)
    ensures OutlivedAll(doom, a, p, ev.closure, event)
  {
    hide ReadsSame, HeardNow, Decisions, WalkTo, QueuedOn, Ahead, SurvivedAt, OutlivedAt, Done, TargetsOf,
      LedgerAhead, Positions;
    WalkIs(a, b, p, event, ev, 0);
    forall i: nat | i < |TargetsOf(a, p, ev.closure, event)| ensures Outlived(doom, a, p, ev.closure, event, i) {
      WalkIs(a, b, p, event, ev, i);
      var queued := Queued(p, ev);
      var w, t := Ahead(QueuedOn(b, p, ev), p, queued, i), queued.quarantined[i];
      assert Survived(doom, QueuedOn(b, p, ev), p, queued, i);
      SameTablesPart(w.db, WalkTo(a, p, ev.closure, event, i).db, p, event.key, t, 0);
      if !Done(w.done, t) {
        forall k: nat | k <= Steps(a, p, ev.closure, event, i) ensures OutlivedAt(doom, a, p, ev.closure, event, i, k) {
          OutlivedAtIs(doom, a, b, p, event, ev, i, k);
        }
      }
    }
  }

  lemma OutlivedAtIs(doom: Db -> bool, a: Db, b: Db, p: Params, event: Event, ev: Event, i: nat, k: nat)
    requires ReadsSame(a, b) && HeardNow(a, b, p, event, ev)
    requires ev == event.(closure := ev.closure, candidates := ev.candidates, decisions := ev.decisions, state := ev.state)
    requires i < |LedgerAhead(p, ev).quarantined|
    requires var w, t := Ahead(QueuedOn(b, p, ev), p, Queued(p, ev), i), LedgerAhead(p, ev).quarantined[i];
      k <= Positions(w.db, p, t) && SurvivedAt(doom, w, p, Queued(p, ev), t, k)
    ensures TargetsOf(a, p, ev.closure, event) == Queued(p, ev).quarantined
    ensures k <= Steps(a, p, ev.closure, event, i) && OutlivedAt(doom, a, p, ev.closure, event, i, k)
  {
    hide ReadsSame, HeardNow, Decisions, WalkTo, QueuedOn, Ahead, Halfway, Reached, TargetsOf, LedgerAhead,
      Positions, Steps;
    var w, t := Ahead(QueuedOn(b, p, ev), p, Queued(p, ev), i), LedgerAhead(p, ev).quarantined[i];
    var y :| Halfway(w, p, Queued(p, ev), t, k, y) && !doom(y);
    ReachedIs(a, b, p, event, ev, i, k, y);
  }

  /** One call, from any state an earlier one left. However it ends, the run is kept and
      every successor it lists comes from an attempt that passed on a store the process
      held; if it ends normally it returns what is foreseen from its start. */
  method RunRevocation(ws: Workspace, p: Params, event: Event, ghost closure: seq<Id>) returns (r: Result<Event>)
    requires Good(ws.db, p, event.key, closure) && Current(ws.db, event)
    modifies ws
    ensures Kept(old(ws.db), ws.db, p, event.key, closure)
    ensures Terminal(event.state) ==> r == Ok(event) && ws.db == old(ws.db)
    ensures r.Ok? ==> Current(ws.db, r.value) && r.value.key == event.key && Terminal(r.value.state)
    ensures r.Ok? ==> (r.value.decisions, r.value.quarantined) == Findings(old(ws.db), p, closure, event)
    ensures r.Ok? ==> forall c :: IsClosure(old(ws.db), event.roots, c) ==>
              SummaryOf(r.value) == Outcome(old(ws.db), p, c, event)
    ensures r.Ok? && !Terminal(event.state) ==> Accounted(p, r.value)
    ensures r.Ok? && !Terminal(event.state) && Rebuilds(p, event.policy) ==>
              forall c :: IsClosure(old(ws.db), event.roots, c) ==> OutlivedAll(old(ws.doom), old(ws.db), p, c, event)
    ensures event.key in ws.db.events && Sourced(ws.Stores(), p, event, ws.db.events[event.key])
    ensures r.Ok? && PathInTable(old(ws.db).LogOf(event.key), event.state) ==>
              PathInTable(ws.db.LogOf(event.key), r.value.state)
    ensures r == Err(NoRoots) <==> !Terminal(event.state) && event.roots == []
    ensures r == Err(NoRoots) ==> ws.db == old(ws.db)
    ensures r == Err(InvalidTransition) ==> Stuck(p, event.state)
    ensures Stuck(p, event.state) ==> r.Err?
    ensures r.Err? ==> r.fault in {Crash, NoRoots, InvalidTransition}
    ensures ws.Ran(r.Crashed())
  {
    hide Good, Kept, ReadsSame, PathInTable, StageDone, Accounted, Findings, IsClosure, Outcome, OutlivedAll, PassedBy, Sourced,
      HeardNow, FinishedAs, QueuedOn, Queued;
    ghost var start, doom := ws.db, ws.doom;
    NothingSourced(ws.Stores(), p, event);
    if Terminal(event.state) {
      KeptSelf(start, p, event.key, closure);
      FindingsReached(start, start, p, event.key, closure);
      TerminalOutcome(start, p, event);
      return Ok(event);
    }
    var replayed := RecoverAndReplay(ws, p, event, closure);
    NothingSourced(ws.Stores(), p, event);
    SourcedOn(ws.Stores(), ws.Stores(), p, event, event, ws.db.events[event.key]);
    var ev :- replayed;
    ghost var a := ws.db;
    KeptGood(start, a, p, event.key, closure);
    r := QuarantineAndFinish(ws, p, ev, closure);
    KeptTwice(start, a, ws.db, p, event.key, closure);
    SourcedFromEvent(ws.Stores(), p, ev, event, ws.db.events[event.key]);
    if r.Ok? {
      FindingsReached(start, ws.db, p, event.key, closure);
      HeardClosure(start, a, p, event, ev);
      OutcomeIs(start, a, p, event, ev, r.value);
      if Rebuilds(p, event.policy) {
        OutlivedIs(doom, start, a, p, event, ev);
      }
    }
  }

  lemma HeardClosure(a: Db, b: Db, p: Params, event: Event, ev: Event)
    requires HeardNow(a, b, p, event, ev)
    ensures forall c :: IsClosure(a, event.roots, c) ==> c == ev.closure
  {
    hide IsClosure;
    forall c | IsClosure(a, event.roots, c) ensures c == ev.closure {
      ClosureUnique(a, event.roots, c, ev.closure);
    }
  }

  lemma TerminalOutcome(db: Db, p: Params, ev: Event)
    requires Terminal(ev.state)
    ensures forall c :: Outcome(db, p, c, ev) == SummaryOf(ev)
  {
  }
}
