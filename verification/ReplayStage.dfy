/** The replay stage: one decision per hidden candidate, saved one at a time. */
module ReplayStage {
  import opened Domain
  import opened StateMachine
  import opened Store
  import opened Planner
  import opened RevocationSpec
  import opened RevocationLaws
  import opened HiddenEvidence
  import opened Foresight
  import opened RevocationInv
  import opened RevocationSteps
  import opened Pipeline

  /** What the loop has added to the saved decisions, and the evidence that goes with it. */
  ghost predicate Witnessed(before: HiddenEdges, now: HiddenEdges, was: seq<Decision>, ds: seq<Decision>) {
    |was| <= |ds| && ds[..|was|] == was && now == AfterDecisions(before, ds[|was|..])
  }

  lemma WitnessedNext(before: HiddenEdges, now: HiddenEdges, was: seq<Decision>, ds: seq<Decision>, d: Decision)
    requires Witnessed(before, now, was, ds)
    ensures Witnessed(before, AfterDecision(now, d), was, ds + [d])
  {
    var more := (ds + [d])[|was|..];
    assert more[..|more| - 1] == ds[|was|..];
  }

  /** Saving further decisions keeps the run as long as they are the ones it was
      going to make. */
  lemma DecisionsKept(db: Db, p: Params, key: Key, closure: seq<Id>, ds: seq<Decision>)
    requires Good(db, p, key, closure) && BeforeQuarantine(db.events[key].state)
    requires Decisions(db, p, closure, db.events[key].(decisions := ds)) == Decisions(db, p, closure, db.events[key])
    ensures Kept(db, db.WithEvent(db.events[key].(decisions := ds)), p, key, closure)
  {
    hide Decisions, Kept, TrackKept, Findings, Tables, Tidy;
    var ev := db.events[key];
    var ev' := ev.(decisions := ds);
    SameProgress(db, p, key, closure, ev');
    EventKept(db, p, key, closure, ev');
  }

  /** Where the replay loop stands before candidate `i`. */
  ghost predicate Replayed(db: Db, p: Params, cs: seq<Candidate>, already: set<(Id, Id)>,
                           all: seq<Decision>, ds: seq<Decision>, i: nat)
    requires i <= |cs|
  {
    && (forall j :: 0 <= j < i ==> PairOf(cs[j]) in Decided(ds))
    && (forall j :: i <= j < |cs| ==> (PairOf(cs[j]) in Decided(ds) <==> PairOf(cs[j]) in already))
    && ds + DecideAll(db.derivations, p, (p.select)(cs), Undecided(cs[i..], already)) == all
  }

  lemma ReplayedNext(db: Db, p: Params, cs: seq<Candidate>, already: set<(Id, Id)>,
                     all: seq<Decision>, ds: seq<Decision>, i: nat)
    requires PairsDistinct(cs) && i < |cs| && Replayed(db, p, cs, already, all, ds, i)
    ensures PairOf(cs[i]) in already ==> Replayed(db, p, cs, already, all, ds, i + 1)
    ensures PairOf(cs[i]) !in already ==>
              Replayed(db, p, cs, already, all, ds + [Decide(db.derivations, p, (p.select)(cs), cs[i])], i + 1)
    ensures PairOf(cs[i]) !in already ==> Decide(db.derivations, p, (p.select)(cs), cs[i]) in all
  {
    assert cs[i..][1..] == cs[i + 1..];
    var d := Decide(db.derivations, p, (p.select)(cs), cs[i]);
    if PairOf(cs[i]) in already {
      assert Undecided(cs[i..], already) == Undecided(cs[i + 1..], already);
    } else {
      var rest := Undecided(cs[i + 1..], already);
      assert Undecided(cs[i..], already) == [cs[i]] + rest;
      assert DecideAll(db.derivations, p, (p.select)(cs), [cs[i]] + rest)
          == [d] + DecideAll(db.derivations, p, (p.select)(cs), rest);
      assert Decided(ds + [d]) == Decided(ds) + {PairOf(cs[i])};
      assert all == ds + [d] + DecideAll(db.derivations, p, (p.select)(cs), rest);
      assert all[|ds|] == d;
    }
  }

  /** What is saved at candidate `i` still leads to the same list of decisions. */
  lemma ReplayedDecisions(db: Db, p: Params, closure: seq<Id>, ev: Event, already: set<(Id, Id)>,
                          all: seq<Decision>, ds: seq<Decision>, i: nat)
    requires BeforeQuarantine(ev.state)
    requires var cs := Hidden(db, p, closure); i <= |cs| && Replayed(db, p, cs, already, all, ds, i)
    ensures Decisions(db, p, closure, ev.(decisions := ds)) == all
  {
    UndecidedResume(Hidden(db, p, closure), Decided(ds), already, i);
  }

  /** The next candidate is a pair recovery finds, and if its replay confirms it, that
      is what the run decides. */
  lemma NextDecides(db: Db, p: Params, key: Key, closure: seq<Id>, c: Candidate, d: Decision)
    requires Good(db, p, key, closure) && BeforeQuarantine(db.events[key].state)
    requires c in Hidden(db, p, closure) && d in Decisions(db, p, closure, db.events[key]) && PairDecided(d) == PairOf(c)
    ensures Finds(SnapshotOf(db), p, db.events[key].roots, PairOf(c))
    ensures IsConfirmed(d) ==> ConfirmedPair(Decisions(db, p, closure, db.events[key]), PairOf(c))
  {
    hide Decisions, Finds, Hidden, IsClosure;
    CandidatesFound(db, p, db.events[key].roots, closure, c);
  }

  /** `run_paired_replay`: the verdict, and the evidence edge that records it. */
  method RunPairedReplay(ws: Workspace, p: Params, key: Key, c: Candidate, d: Derivation, ghost closure: seq<Id>)
    returns (r: Result<Verdict>)
    requires Good(ws.db, p, key, closure)
    requires Finds(SnapshotOf(ws.db), p, ws.db.events[key].roots, PairOf(c))
    requires (p.verdict)(c.member, d).Confirmed? ==>
               BeforeQuarantine(ws.db.events[key].state) && ConfirmedPair(Decisions(ws.db, p, closure, ws.db.events[key]), PairOf(c))
    modifies ws
    ensures Kept(old(ws.db), ws.db, p, key, closure)
    ensures ws.db == old(ws.db).(hidden := ws.db.hidden)
    ensures r.Ok? ==> r.value == (p.verdict)(c.member, d)
    ensures r.Ok? ==> ws.db == old(ws.db).WithHidden(c.member, c.target, EvidenceOf(r.value))
    ensures r.Err? ==> r.Crashed()
    ensures ws.Ran(r.Crashed())
  {
    hide Good, Kept, Finds, ConfirmedPair, Decisions;
    var v := (p.verdict)(c.member, d);
    HiddenKept(ws.db, p, key, closure, c.member, c.target, EvidenceOf(v));
    KeptSelf(ws.db, p, key, closure);
    var _ :- ws.UpsertHidden(c.member, c.target, EvidenceOf(v));
    return Ok(v);
  }

  /** Decides one candidate: not selected, no derivation, or replayed. */
  method Judge(ws: Workspace, p: Params, key: Key, c: Candidate, selected: set<(Id, Id)>, ghost closure: seq<Id>)
    returns (r: Result<Decision>)
    requires Good(ws.db, p, key, closure)
    requires Finds(SnapshotOf(ws.db), p, ws.db.events[key].roots, PairOf(c))
    requires IsConfirmed(Decide(ws.db.derivations, p, selected, c)) ==>
               BeforeQuarantine(ws.db.events[key].state) && ConfirmedPair(Decisions(ws.db, p, closure, ws.db.events[key]), PairOf(c))
    modifies ws
    ensures Kept(old(ws.db), ws.db, p, key, closure)
    ensures ws.db == old(ws.db).(hidden := ws.db.hidden)
    ensures r.Ok? ==> r.value == Decide(old(ws.db).derivations, p, selected, c)
    ensures r.Ok? ==> ws.db.hidden == AfterDecision(old(ws.db).hidden, r.value)
    ensures r.Err? ==> r.Crashed()
    ensures ws.Ran(r.Crashed())
  {
    hide Good, Kept, Decisions, Finds, ConfirmedPair;
    KeptSelf(ws.db, p, key, closure);
    if PairOf(c) !in selected {
      return Ok(Decision(c.member, c.target, NotSelected));
    }
    if c.target !in ws.db.derivations {
      return Ok(Decision(c.member, c.target, NoDerivation));
    }
    var verdict :- RunPairedReplay(ws, p, key, c, ws.db.derivations[c.target], closure);
    return Ok(Decision(c.member, c.target, Executed(verdict)));
  }

  /** One undecided candidate: decide it, and save the decision. */
  method ReplayOne(ws: Workspace, p: Params, ev: Event, cs: seq<Candidate>, selected: set<(Id, Id)>, i: nat,
                   ghost already: set<(Id, Id)>, ghost all: seq<Decision>, ghost closure: seq<Id>)
    returns (r: Result<Event>)
    requires Good(ws.db, p, ev.key, closure) && Current(ws.db, ev) && BeforeQuarantine(ev.state)
    requires cs == Hidden(ws.db, p, closure) && PairsDistinct(cs) && selected == (p.select)(cs)
    requires i < |cs| && PairOf(cs[i]) !in already
    requires Replayed(ws.db, p, cs, already, all, ev.decisions, i) && Decisions(ws.db, p, closure, ev) == all
    modifies ws
    ensures Kept(old(ws.db), ws.db, p, ev.key, closure)
    ensures ReadsSame(old(ws.db), ws.db) && ws.db.log == old(ws.db).log && RebuiltSame(old(ws.db), ws.db, ev.key)
    ensures r.Ok? ==> Current(ws.db, r.value) && r.value == ev.(decisions := r.value.decisions)
    ensures r.Ok? ==> Replayed(ws.db, p, cs, already, all, r.value.decisions, i + 1)
    ensures r.Ok? ==> |r.value.decisions| == |ev.decisions| + 1 && r.value.decisions[..|ev.decisions|] == ev.decisions
    ensures r.Ok? ==> ws.db.hidden == AfterDecision(old(ws.db).hidden, r.value.decisions[|ev.decisions|])
    ensures r.Err? ==> r.Crashed()
    ensures ws.Ran(r.Crashed())
  {
    hide Good, Kept, PairsDistinct, AfterDecision, Finds, ConfirmedPair;
    ghost var d := Decide(ws.db.derivations, p, selected, cs[i]);
    ReplayedNext(ws.db, p, cs, already, all, ev.decisions, i);
    NextDecides(ws.db, p, ev.key, closure, cs[i], d);
    ghost var start := ws.db;
    var judged := Judge(ws, p, ev.key, cs[i], selected, closure);
    KeptGood(start, ws.db, p, ev.key, closure);
    var decision :- judged;
    ghost var before := ws.db;
    r := SaveDecision(ws, p, ev, decision, i, cs, already, all, closure);
    KeptTwice(start, before, ws.db, p, ev.key, closure);
  }

  method SaveDecision(ws: Workspace, p: Params, ev: Event, decision: Decision, i: nat,
                      ghost cs: seq<Candidate>, ghost already: set<(Id, Id)>, ghost all: seq<Decision>, ghost closure: seq<Id>)
    returns (r: Result<Event>)
    requires Good(ws.db, p, ev.key, closure) && Current(ws.db, ev) && BeforeQuarantine(ev.state)
    requires cs == Hidden(ws.db, p, closure) && i < |cs|
    requires Replayed(ws.db, p, cs, already, all, ev.decisions + [decision], i + 1)
    requires Decisions(ws.db, p, closure, ev) == all
    modifies ws
    ensures Kept(old(ws.db), ws.db, p, ev.key, closure)
    ensures ReadsSame(old(ws.db), ws.db) && ws.db.log == old(ws.db).log && ws.db.hidden == old(ws.db).hidden && RebuiltSame(old(ws.db), ws.db, ev.key)
    ensures r.Ok? ==> Current(ws.db, r.value) && r.value == ev.(decisions := ev.decisions + [decision])
    ensures r.Err? ==> r.Crashed()
    ensures ws.Ran(r.Crashed())
  {
    hide Good, Kept;
    var ev' := ev.(decisions := ev.decisions + [decision]);
    ReplayedDecisions(ws.db, p, closure, ev, already, all, ev'.decisions, i + 1);
    DecisionsKept(ws.db, p, ev.key, closure, ev'.decisions);
    KeptSelf(ws.db, p, ev.key, closure);
    var _ :- ws.Update(ev');
    return Ok(ev');
  }

  /** The whole loop. The decisions it ends with are the ones the run was always
      going to make, however many of them an earlier process had already saved. */
  method ReplayAll(ws: Workspace, p: Params, event: Event, ghost closure: seq<Id>) returns (r: Result<Event>)
    requires Good(ws.db, p, event.key, closure) && Current(ws.db, event) && event.state == Replaying
    requires event.candidates == Hidden(ws.db, p, closure) && PairsDistinct(event.candidates)
    modifies ws
    ensures Kept(old(ws.db), ws.db, p, event.key, closure)
    ensures ReadsSame(old(ws.db), ws.db) && ws.db.log == old(ws.db).log && RebuiltSame(old(ws.db), ws.db, event.key)
    ensures r.Ok? ==> Current(ws.db, r.value) && r.value == event.(decisions := Decisions(old(ws.db), p, closure, event))
    ensures r.Ok? ==> Decisions(ws.db, p, closure, r.value) == r.value.decisions
    ensures r.Ok? ==> Witnessed(old(ws.db).hidden, ws.db.hidden, event.decisions, r.value.decisions)
    ensures r.Err? ==> r.Crashed()
    ensures ws.Ran(r.Crashed())
  {
    hide Good, Kept, Replayed, ReadsSame, Decisions, Witnessed, AfterDecision;
    var ev, cs := event, event.candidates;
    var already := Decided(ev.decisions);
    ghost var all, start := Decisions(ws.db, p, closure, ev), ws.db;
    KeptSelf(ws.db, p, ev.key, closure);
    ReplayBegins(ws.db, p, closure, ev);
    WitnessedNow(ws.db.hidden, ev.decisions);
    for i := 0 to |cs|
      invariant Kept(start, ws.db, p, event.key, closure)
      invariant ReadsSame(start, ws.db) && ws.db.log == start.log && RebuiltSame(start, ws.db, event.key)
      invariant Current(ws.db, ev) && ev == event.(decisions := ev.decisions)
      invariant Replayed(start, p, cs, already, all, ev.decisions, i)
      invariant Witnessed(start.hidden, ws.db.hidden, event.decisions, ev.decisions)
      invariant ws.Ran(false)
    {
      if PairOf(cs[i]) in already {
        ReplayedNext(start, p, cs, already, all, ev.decisions, i);
        continue;
      }
      ghost var before, was := ws.db, ev.decisions;
      KeptGood(start, ws.db, p, ev.key, closure);
      ReplayCarries(start, ws.db, p, closure, event, cs, already, all, ev.decisions, i);
      var step := ReplayOne(ws, p, ev, cs, (p.select)(cs), i, already, all, closure);
      KeptTwice(start, before, ws.db, p, event.key, closure);
      ReadsTwice(start, before, ws.db);
      ev :- step;
      assert ev.decisions == was + [ev.decisions[|was|]];
      WitnessedNext(start.hidden, before.hidden, event.decisions, was, ev.decisions[|was|]);
      ReplayCarries(start, ws.db, p, closure, event, cs, already, all, ev.decisions, i + 1);
    }
    ReplayEnds(start, ws.db, p, closure, event, already, all, ev.decisions);
    SavedAgain(ws.db, ev);
    var _ :- ws.Update(ev);
    return Ok(ev);
  }

  lemma WitnessedNow(h: HiddenEdges, ds: seq<Decision>)
    ensures Witnessed(h, h, ds, ds)
  {
  }

  lemma ReplayBegins(db: Db, p: Params, closure: seq<Id>, ev: Event)
    requires BeforeQuarantine(ev.state)
    ensures ReadsSame(db, db)
    ensures var cs := Hidden(db, p, closure);
      Replayed(db, p, cs, Decided(ev.decisions), Decisions(db, p, closure, ev), ev.decisions, 0)
  {
    var cs := Hidden(db, p, closure);
    assert cs[0..] == cs;
  }

  lemma ReplayCarries(a: Db, b: Db, p: Params, closure: seq<Id>, ev: Event, cs: seq<Candidate>, already: set<(Id, Id)>,
                      all: seq<Decision>, ds: seq<Decision>, i: nat)
    requires ReadsSame(a, b) && BeforeQuarantine(ev.state)
    requires cs == Hidden(a, p, closure) && i <= |cs|
    ensures Replayed(a, p, cs, already, all, ds, i) == Replayed(b, p, cs, already, all, ds, i)
    ensures cs == Hidden(b, p, closure)
    ensures Replayed(a, p, cs, already, all, ds, i) ==> Decisions(b, p, closure, ev.(decisions := ds)) == all
  {
    assert SnapshotOf(a) == SnapshotOf(b);
    if Replayed(b, p, cs, already, all, ds, i) {
      ReplayedDecisions(b, p, closure, ev, already, all, ds, i);
    }
  }

  lemma ReplayEnds(a: Db, b: Db, p: Params, closure: seq<Id>, ev: Event, already: set<(Id, Id)>,
                   all: seq<Decision>, ds: seq<Decision>)
    requires ReadsSame(a, b) && BeforeQuarantine(ev.state)
    requires var cs := Hidden(a, p, closure); Replayed(a, p, cs, already, all, ds, |cs|)
    ensures ds == all
    ensures Decisions(b, p, closure, ev.(decisions := ds)) == all
  {
    var cs := Hidden(a, p, closure);
    assert cs[|cs|..] == [];
    ReplayCarries(a, b, p, closure, ev, cs, already, all, ds, |cs|);
  }
}
