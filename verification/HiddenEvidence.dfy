/** The hidden evidence: what a recovery pass takes back, what replay writes, and
    what either of them leaves confirmed. */
module HiddenEvidence {
  import opened Domain
  import opened Seqs
  import opened Reachability
  import opened Store
  import opened Planner
  import opened RevocationSpec

  // ----- recovery

  /** The evidence left by one recovery: every pair found plausible is (back) at
      `Inferred`, whatever it was before. */
  function Demote(hidden: HiddenEdges, target: Id, results: seq<Scored>): HiddenEdges {
    if results == [] then hidden
    else
      var h := Demote(hidden, target, results[..|results| - 1]);
      var r := results[|results| - 1];
      if r.isCandidate then h[(r.candidate, target) := Inferred] else h
  }

  function DemoteOne(hidden: HiddenEdges, snap: Snapshot, p: Params, closure: seq<Id>, id: Id): HiddenEdges {
    if id in closure then hidden else Demote(hidden, id, (p.recover)(snap, id))
  }

  function DemotePass(hidden: HiddenEdges, snap: Snapshot, p: Params, closure: seq<Id>, ids: seq<Id>): HiddenEdges {
    if ids == [] then hidden
    else DemoteOne(DemotePass(hidden, snap, p, closure, ids[..|ids| - 1]), snap, p, closure, ids[|ids| - 1])
  }

  /** The hidden evidence after a full recovery pass. */
  function Swept(db: Db, p: Params, closure: seq<Id>): HiddenEdges {
    DemotePass(db.hidden, SnapshotOf(db), p, closure, Listed(db.order))
  }

  predicate Plausible(results: seq<Scored>, id: Id) {
    exists r :: r in results && r.isCandidate && r.candidate == id
  }

  /** A recovery pass over `snap` finds the pair plausible, and so writes its edge. */
  ghost predicate Finds(snap: Snapshot, p: Params, roots: seq<Id>, e: (Id, Id)) {
    && e.1 in Listed(snap.order)
    && !Reachable(RowPairs(snap.recorded), Elements(roots), e.1, None)
    && Plausible((p.recover)(snap, e.1), e.0)
  }

  lemma {:induction false} DemoteConfirms(hidden: HiddenEdges, target: Id, results: seq<Scored>, e: (Id, Id))
    ensures Confirms(Demote(hidden, target, results), e) <==>
              Confirms(hidden, e) && !(e.1 == target && Plausible(results, e.0))
  {
    if results != [] {
      var init, r := results[..|results| - 1], results[|results| - 1];
      assert results == init + [r];
      DemoteConfirms(hidden, target, init, e);
      assert Plausible(results, e.0) <==> Plausible(init, e.0) || (r.isCandidate && r.candidate == e.0) by {
        assert forall x :: x in results <==> x in init || x == r;
      }
    }
  }

  lemma {:induction false} PassConfirms(hidden: HiddenEdges, snap: Snapshot, p: Params, closure: seq<Id>, ids: seq<Id>,
                                        e: (Id, Id))
    ensures Confirms(DemotePass(hidden, snap, p, closure, ids), e) <==>
              Confirms(hidden, e) && !(e.1 in ids && e.1 !in closure && Plausible((p.recover)(snap, e.1), e.0))
  {
    hide Confirms, Plausible;
    if ids != [] {
      var init, id := ids[..|ids| - 1], ids[|ids| - 1];
      assert ids == init + [id];
      assert e.1 in ids <==> e.1 in init || e.1 == id;
      PassConfirms(hidden, snap, p, closure, init, e);
      DemoteConfirms(DemotePass(hidden, snap, p, closure, init), id, (p.recover)(snap, id), e);
    }
  }

  /** A full pass leaves confirmed exactly the confirmed pairs it does not find. */
  lemma SweptConfirms(db: Db, p: Params, roots: seq<Id>, closure: seq<Id>, e: (Id, Id))
    requires IsClosure(db, roots, closure)
    ensures Confirms(Swept(db, p, closure), e) <==> Confirms(db.hidden, e) && !Finds(SnapshotOf(db), p, roots, e)
  {
    hide Plausible, Confirms;
    PassConfirms(db.hidden, SnapshotOf(db), p, closure, Listed(db.order), e);
    assert e.1 in closure <==> InClosure(db, roots, e.1);
  }

  lemma {:induction false} DemoteWrites(hidden: HiddenEdges, target: Id, results: seq<Scored>, e: (Id, Id))
    ensures var h := Demote(hidden, target, results);
      if e.1 == target && Plausible(results, e.0) then e in h && h[e] == Inferred
      else (e in h <==> e in hidden) && (e in h ==> h[e] == hidden[e])
  {
    if results != [] {
      var init, r := results[..|results| - 1], results[|results| - 1];
      assert results == init + [r];
      DemoteWrites(hidden, target, init, e);
      assert Plausible(results, e.0) <==> Plausible(init, e.0) || (r.isCandidate && r.candidate == e.0) by {
        assert forall x :: x in results <==> x in init || x == r;
      }
    }
  }

  lemma {:induction false} PassWrites(hidden: HiddenEdges, snap: Snapshot, p: Params, closure: seq<Id>, ids: seq<Id>,
                                      e: (Id, Id))
    ensures var h := DemotePass(hidden, snap, p, closure, ids);
      if e.1 in ids && e.1 !in closure && Plausible((p.recover)(snap, e.1), e.0) then e in h && h[e] == Inferred
      else (e in h <==> e in hidden) && (e in h ==> h[e] == hidden[e])
  {
    hide Plausible;
    if ids != [] {
      var init, id := ids[..|ids| - 1], ids[|ids| - 1];
      assert ids == init + [id];
      assert e.1 in ids <==> e.1 in init || e.1 == id;
      PassWrites(hidden, snap, p, closure, init, e);
      DemoteWrites(DemotePass(hidden, snap, p, closure, init), id, (p.recover)(snap, id), e);
    }
  }

  /** A full pass writes the inferred class over every pair it finds plausible into a
      listed artifact outside the closure, whatever was there, and touches no other. */
  lemma SweptWrites(db: Db, p: Params, closure: seq<Id>, e: (Id, Id))
    ensures var h := Swept(db, p, closure);
      var found := e.1 in (if |db.order| <= 10_000 then db.order else db.order[..10_000]) && e.1 !in closure
                   && exists r :: r in (p.recover)(SnapshotOf(db), e.1) && r.isCandidate && r.candidate == e.0;
      && (found ==> e in h && h[e] == Inferred)
      && (!found ==> (e in h <==> e in db.hidden) && (e in h ==> h[e] == db.hidden[e]))
  {
    PassWrites(db.hidden, SnapshotOf(db), p, closure, Listed(db.order), e);
  }

  lemma {:induction false} MatchesPlausible(closure: seq<Id>, target: Id, rs: seq<Scored>, c: Candidate)
    requires c in Matches(closure, target, rs)
    ensures c.target == target && Plausible(rs, c.member)
  {
    if rs[0].candidate in closure && rs[0].isCandidate && c == Candidate(rs[0].candidate, target, rs[0].score) {
      assert rs[0] in rs;
    } else {
      MatchesPlausible(closure, target, rs[1..], c);
      var r :| r in rs[1..] && r.isCandidate && r.candidate == c.member;
      assert r in rs;
    }
  }

  lemma {:induction false} HiddenPlausible(snap: Snapshot, p: Params, closure: seq<Id>, ids: seq<Id>, c: Candidate)
    requires c in HiddenFrom(snap, p, closure, ids)
    ensures c.target in ids && c.target !in closure && Plausible((p.recover)(snap, c.target), c.member)
  {
    hide Plausible;
    if c in HiddenOf(snap, p, closure, ids[0]) {
      MatchesPlausible(closure, ids[0], (p.recover)(snap, ids[0]), c);
    } else {
      HiddenPlausible(snap, p, closure, ids[1..], c);
    }
  }

  /** Every candidate is a pair recovery finds. */
  lemma CandidatesFound(db: Db, p: Params, roots: seq<Id>, closure: seq<Id>, c: Candidate)
    requires IsClosure(db, roots, closure) && c in Hidden(db, p, closure)
    ensures Finds(SnapshotOf(db), p, roots, PairOf(c))
  {
    hide Plausible;
    HiddenPlausible(SnapshotOf(db), p, closure, Listed(db.order), c);
    assert c.target in closure <==> InClosure(db, roots, c.target);
  }

  // ----- replay

  function EvidenceOf(v: Verdict): Evidence {
    match v
    case Confirmed => ReplayConfirmed
    case VerdictRejected => Rejected
    case _ => Unresolved
  }

  /** The evidence an executed decision leaves on its edge. */
  function AfterDecision(h: HiddenEdges, d: Decision): HiddenEdges {
    if d.replay.Executed? then h[(d.member, d.target) := EvidenceOf(d.replay.verdict)] else h
  }

  function AfterDecisions(h: HiddenEdges, ds: seq<Decision>): HiddenEdges {
    if ds == [] then h else AfterDecision(AfterDecisions(h, ds[..|ds| - 1]), ds[|ds| - 1])
  }

  function PairDecided(d: Decision): (Id, Id) {
    (d.member, d.target)
  }

  /** Replaying pairs, each decided once, writes for each the class of its verdict, and
      nothing for a pair that was not replayed. */
  lemma {:induction false} DecisionsWrite(h: HiddenEdges, ds: seq<Decision>, d: Decision)
    requires DecidedOnce(ds) && d in ds
    ensures var e, h' := (d.member, d.target), AfterDecisions(h, ds);
      && (d.replay == Executed(Confirmed) ==> e in h' && h'[e] == ReplayConfirmed)
      && (d.replay == Executed(VerdictRejected) ==> e in h' && h'[e] == Rejected)
      && (d.replay.Executed? && d.replay.verdict !in {Confirmed, VerdictRejected} ==> e in h' && h'[e] == Unresolved)
      && (!d.replay.Executed? ==> (e in h' <==> e in h) && (e in h ==> h'[e] == h[e]))
  {
    var init, last := ds[..|ds| - 1], ds[|ds| - 1];
    assert ds == init + [last];
    if d in init {
      DecisionsWrite(h, init, d);
      var i :| 0 <= i < |init| && init[i] == d;
      assert ds[i] == d && PairDecided(ds[i]) != PairDecided(ds[|ds| - 1]);
    } else {
      DecisionsElsewhere(h, init, d);
    }
  }

  lemma {:induction false} DecisionsElsewhere(h: HiddenEdges, ds: seq<Decision>, d: Decision)
    requires DecidedOnce(ds + [d])
    ensures var e, h' := (d.member, d.target), AfterDecisions(h, ds);
      (e in h' <==> e in h) && (e in h ==> h'[e] == h[e])
  {
    if ds != [] {
      var init, last := ds[..|ds| - 1], ds[|ds| - 1];
      assert (ds + [d])[|ds| - 1] == last && (ds + [d])[|ds|] == d;
      forall i, j | 0 <= i < j < |init + [d]| ensures PairDecided((init + [d])[i]) != PairDecided((init + [d])[j]) {
        assert (init + [d])[i] == (ds + [d])[i];
        assert (init + [d])[j] == (ds + [d])[if j == |init| then |ds| else j];
      }
      DecisionsElsewhere(h, init, d);
    }
  }

  /** Some decision confirms the pair. */
  predicate ConfirmedPair(ds: seq<Decision>, e: (Id, Id)) {
    exists d :: d in ds && IsConfirmed(d) && PairDecided(d) == e
  }

  ghost predicate DecidedOnce(ds: seq<Decision>) {
    forall i, j :: 0 <= i < j < |ds| ==> PairDecided(ds[i]) != PairDecided(ds[j])
  }

  /** Decided once each, exactly the confirmed pairs end up confirmed, next to those
      no decision is about. */
  lemma {:induction false} DecisionsConfirm(h: HiddenEdges, ds: seq<Decision>, e: (Id, Id))
    ensures Confirms(AfterDecisions(h, ds), e) ==> Confirms(h, e) || ConfirmedPair(ds, e)
    ensures Confirms(h, e) && e !in Decided(ds) ==> Confirms(AfterDecisions(h, ds), e)
    ensures DecidedOnce(ds) && ConfirmedPair(ds, e) ==> Confirms(AfterDecisions(h, ds), e)
  {
    if ds != [] {
      var init, d := ds[..|ds| - 1], ds[|ds| - 1];
      assert ds == init + [d];
      DecisionsConfirm(h, init, e);
      assert forall x :: x in ds <==> x in init || x == d;
      assert Decided(ds) == Decided(init) + {PairDecided(d)};
    }
  }
}
