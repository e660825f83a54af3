/** Any number of worker processes, each dying after some number of commits, and a
    last one that survives: together they do what one undisturbed process does. */
module CrashRuns {
  import opened Domain
  import opened Seqs
  import opened StateMachine
  import opened Store
  import opened Planner
  import opened RevocationSpec
  import opened RevocationLaws
  import opened Attempts
  import opened Frames
  import opened Foresight
  import opened RevocationInv
  import opened Track
  import opened Publication
  import opened RevocationSteps
  import opened Pipeline
  import opened Request
  import opened Revocation

  /** Whether calls on this event come to an end at all. */
  predicate Finishes(p: Params, ev: Event) {
    Terminal(ev.state) || (ev.roots != [] && !Stuck(p, ev.state))
  }

  /** How a worker process may die: after so many commits, or at a store it is about to
      commit from. */
  datatype Fate = Fate(commits: Option<nat>, doom: Db -> bool)

  /** Every call starts from the event as persisted. The `i`-th process meets `fates[i]`,
      wherever in the pipeline that leaves it; a call that ends before its process dies
      leaves the next one nothing to do. */
  method RunUntilDone(ws: Workspace, p: Params, key: Key, fates: seq<Fate>, ghost closure: seq<Id>)
    returns (r: Result<Event>)
    requires Good(ws.db, p, key, closure)
    modifies ws
    ensures Kept(old(ws.db), ws.db, p, key, closure)
    ensures r.Ok? <==> Finishes(p, old(ws.db).events[key])
    ensures r.Ok? ==> key in ws.db.events && ws.db.events[key] == r.value && r.value.key == key && Terminal(r.value.state)
    ensures r.Ok? ==> (r.value.decisions, r.value.quarantined) == Findings(old(ws.db), p, closure, old(ws.db).events[key])
    ensures r.Ok? ==> EndsAsForeseen(old(ws.db), p, key, closure, SummaryOf(r.value))
    ensures r.Ok? && fates == [] ==>
              forall c :: IsClosure(old(ws.db), old(ws.db).events[key].roots, c) ==>
                SummaryOf(r.value) == Outcome(old(ws.db), p, c, old(ws.db).events[key])
    ensures r.Ok? && !Terminal(old(ws.db).events[key].state) ==> Accounted(p, r.value)
    ensures r.Ok? ==> Sourced(ws.Stores(), p, old(ws.db).events[key], r.value)
    ensures r.Ok? && AllPublished(old(ws.db), p, old(ws.db).events[key]) ==> AllPublished(ws.db, p, r.value)
    ensures Terminal(old(ws.db).events[key].state) ==> r == Ok(old(ws.db).events[key])
    ensures !r.Crashed() && old(ws.Stores()) <= ws.Stores()
  {
    hide Good, Kept, Outcome, Accounted, AllPublished, PathInTable, Findings, Sourced, IsClosure, OutlivedAll,
      EndsAsForeseen;
    ghost var start := ws.db;
    KeptFromGood(start, p, key, closure);
    NothingSourced(ws.Stores(), p, start.events[key]);
    for i := 0 to |fates|
      invariant Kept(start, ws.db, p, key, closure) && (i == 0 ==> ws.db == start)
      invariant key in ws.db.events && Finishes(p, ws.db.events[key]) == Finishes(p, start.events[key])
      invariant Sourced(ws.Stores(), p, start.events[key], ws.db.events[key])
      invariant old(ws.Stores()) <= ws.Stores()
    {
      ghost var before, stores := ws.db, ws.Stores();
      KeptFacts(start, before, p, key, closure);
      ws.lifetime, ws.doom := fates[i].commits, fates[i].doom;
      var attempt := RunRevocation(ws, p, ws.db.events[key], closure);
      KeptFacts(before, ws.db, p, key, closure);
      KeptTwice(start, before, ws.db, p, key, closure);
      SourcedTwice(stores, ws.Stores(), p, start.events[key], before.events[key], ws.db.events[key]);
    }
    ghost var last, stores := ws.db, ws.Stores();
    KeptFacts(start, last, p, key, closure);
    ws.lifetime, ws.doom := None, x => false;
    r := RunRevocation(ws, p, ws.db.events[key], closure);
    KeptFacts(last, ws.db, p, key, closure);
    KeptTwice(start, last, ws.db, p, key, closure);
    KeptFacts(start, ws.db, p, key, closure);
    if r.Ok? {
      FindingsReached(start, ws.db, p, key, closure);
      TrackReached(start, ws.db, p, key, closure);
      KeptPublished(start, ws.db, p, key, closure);
      SourcedTwice(stores, ws.Stores(), p, start.events[key], last.events[key], r.value);
    }
  }

  /** Whatever fresh event the store is on the way of, the summary is that of the
      undisturbed run from there. */
  ghost predicate EndsAsForeseen(a: Db, p: Params, key: Key, closure: seq<Id>, s: Summary) {
    forall z: Db, ev: Event ::
      ev.key == key && OnTrack(Origin(z, p, closure, ev), a) ==> s == Outcome(z, p, closure, ev)
  }

  lemma TrackReached(a: Db, b: Db, p: Params, key: Key, closure: seq<Id>)
    requires Kept(a, b, p, key, closure) && Terminal(b.events[key].state)
    ensures key in b.events && EndsAsForeseen(a, p, key, closure, SummaryOf(b.events[key]))
  {
    hide Good, Findings, PublishedKept, OnTrack, TrackKept, Outcome;
    KeptKey(a, b, p, key, closure);
    KeptTrack(a, b, p, key, closure);
    forall z: Db, ev: Event | ev.key == key && OnTrack(Origin(z, p, closure, ev), a)
      ensures SummaryOf(b.events[key]) == Outcome(z, p, closure, ev)
    {
      TrackCarries(a, b, p, key, closure, z, ev);
      TrackEnds(Origin(z, p, closure, ev), b);
    }
  }

  lemma TrackCarries(a: Db, b: Db, p: Params, key: Key, closure: seq<Id>, z: Db, ev: Event)
    requires TrackKept(a, b, p, key, closure) && ev.key == key && OnTrack(Origin(z, p, closure, ev), a)
    ensures OnTrack(Origin(z, p, closure, ev), b)
  {
    hide OnTrack;
  }

  lemma TrackEnds(o: Origin, x: Db)
    requires OnTrack(o, x) && Terminal(x.events[o.ev.key].state)
    ensures SummaryOf(x.events[o.ev.key]) == o.End()
  {
    hide Outcome, Early, Late, Good, Addressed;
  }

  lemma KeptPublished(a: Db, b: Db, p: Params, key: Key, closure: seq<Id>)
    requires Kept(a, b, p, key, closure)
    ensures key in a.events && key in b.events
    ensures AllPublished(a, p, a.events[key]) ==> AllPublished(b, p, b.events[key])
  {
    hide AllPublished, TrackKept, Findings;
  }

  lemma KeptFromGood(a: Db, p: Params, key: Key, closure: seq<Id>)
    requires Good(a, p, key, closure)
    ensures Kept(a, a, p, key, closure) && key in a.events
  {
    hide Shape, Scannable, TargetsExist, Climbs, Tables, TrackKept, PublishedKept, Findings;
    KeptSelf(a, p, key, closure);
  }

  lemma KeptFacts(a: Db, b: Db, p: Params, key: Key, closure: seq<Id>)
    requires Kept(a, b, p, key, closure)
    ensures Good(b, p, key, closure) && key in a.events && key in b.events && b.events[key].key == key
    ensures b.events[key].roots == a.events[key].roots
    ensures Stuck(p, a.events[key].state) == Stuck(p, b.events[key].state)
    ensures Ends(p, a.events[key], b.events[key])
  {
    hide TrackKept, PublishedKept, Findings;
  }

  /** Crash points are unobservable: the same store given to one undisturbed process
      and to a series of dying ones yields, without any hypothesis, the same replay
      decisions and the same quarantined list; and for a fresh event whose plans do not
      rest on evidence a repeated recovery pass takes back, the same rebuilt originals,
      unresolved targets and final state as well. */
  method CompareRuns(db: Db, p: Params, key: Key, fates: seq<Fate>, ghost closure: seq<Id>)
    returns (one: Result<Event>, many: Result<Event>)
    requires Good(db, p, key, closure)
    ensures one.Ok? <==> many.Ok?
    ensures one.Ok? <==> Finishes(p, db.events[key])
    ensures one.Ok? ==> one.value.decisions == many.value.decisions && one.value.quarantined == many.value.quarantined
    ensures one.Ok? && Firmly(Origin(db, p, closure, db.events[key])) ==> SummaryOf(one.value) == SummaryOf(many.value)
    ensures one.Ok? && Firmly(Origin(db, p, closure, db.events[key])) ==>
              SummaryOf(many.value) == Outcome(db, p, closure, db.events[key])
  {
    hide Good, Kept, Outcome, Findings, OnTrack, IsClosure, AllPublished, Sourced, Firmly;
    KeptFromGood(db, p, key, closure);
    FirmlyOnTrack(db, p, key, closure);
    var undisturbed := new Workspace(db);
    one := RunUntilDone(undisturbed, p, key, [], closure);
    var dying := new Workspace(db);
    many := RunUntilDone(dying, p, key, fates, closure);
  }

  /** A fresh event, content-addressed successors, and no plan of the undisturbed run that
      rests on evidence a repeated recovery pass would take back. */
  ghost predicate Firmly(o: Origin) {
    o.Fresh() && Addressed(o.p) && o.Firm()
  }

  lemma FirmlyOnTrack(db: Db, p: Params, key: Key, closure: seq<Id>)
    requires Good(db, p, key, closure)
    ensures key in db.events && db.events[key].key == key
    ensures Firmly(Origin(db, p, closure, db.events[key])) ==> OnTrack(Origin(db, p, closure, db.events[key]), db)
  {
    hide OnTrack, Shape, Scannable, TargetsExist, Climbs, Tables, Addressed;
    if Firmly(Origin(db, p, closure, db.events[key])) {
      OriginOnTrack(Origin(db, p, closure, db.events[key]));
    }
  }

  // ----- what every outcome conserves

  lemma SettledTidy(p: Params, ev: Event, ds: seq<Decision>)
    requires Shape(ev) && Running(ev.state)
    requires !BeforeQuarantine(ev.state) ==> ds == ev.decisions
    ensures var l := Settled(p, ev, ds);
      && Distinct(l.quarantined) && (ev.policy.Forensic? ==> l.quarantined == [])
      && Tidy(Progress(ev.rebuilt, l.unresolved), l.quarantined)
  {
    hide Settled;
    SettledApart(p, ev, ds);
  }

  lemma WalkConserves(db: Db, p: Params, closure: seq<Id>, ev: Event)
    requires var l := Settled(p, ev, Decisions(db, p, closure, ev)); Tidy(Progress(ev.rebuilt, l.unresolved), l.quarantined)
    ensures var q := TargetsOf(db, p, closure, ev);
      var g := WalkTo(db, p, closure, ev, |q|).done;
      Tidy(g, q) && forall t :: t in q ==> Done(g, t)
  {
    hide Settled, Decisions, AttemptAll, Tidy, Start, Done;
    var l := Settled(p, ev, Decisions(db, p, closure, ev));
    var q := l.quarantined;
    assert q[..|q|] == q;
    AttemptAllFacts(Walk(Start(db, p, closure, ev), Progress(ev.rebuilt, l.unresolved)), p, ev.key, q, q);
  }

  lemma TidyMeans(g: Progress, q: seq<Id>)
    requires Tidy(g, q)
    ensures forall t :: t in Originals(g.rebuilt) ==> t in q && t !in OpenTargets(g.unresolved)
    ensures forall i, j :: 0 <= i < j < |g.rebuilt| ==> g.rebuilt[i].original != g.rebuilt[j].original
  {
  }

  /** Nothing is lost and nothing is counted twice: with rebuild on, every quarantined
      target ends up either rebuilt or reported, never both; the run is complete
      exactly when nothing is reported; a forensic run quarantines nothing. */
  lemma OutcomeConserves(db: Db, p: Params, closure: seq<Id>, ev: Event)
    requires Shape(ev) && Running(ev.state)
    ensures var s := Outcome(db, p, closure, ev);
      && Distinct(s.quarantined)
      && (forall t :: t in Originals(s.rebuilt) ==> t in s.quarantined && t !in OpenTargets(s.unresolved))
      && (forall i, j :: 0 <= i < j < |s.rebuilt| ==> s.rebuilt[i].original != s.rebuilt[j].original)
      && (p.attemptRebuild && ev.policy != Forensic ==>
            forall t :: t in s.quarantined ==>
              (exists r :: r in s.rebuilt && r.original == t) || exists u :: u in s.unresolved && u.target == t)
      && (!p.attemptRebuild || ev.policy == Forensic ==> s.rebuilt == ev.rebuilt)
      && (s.state == Completed <==> s.unresolved == [])
      && (s.state == Completed || s.state == CompletedWithUnresolved)
      && (ev.policy.Forensic? ==> s.quarantined == [] && s.rebuilt == [])
  {
    hide Settled, WalkTo, Tidy, Shape, Distinct;
    var ds := Decisions(db, p, closure, ev);
    var l := Settled(p, ev, ds);
    SettledTidy(p, ev, ds);
    WalkConserves(db, p, closure, ev);
    SomeOriginal(ev.rebuilt);
    TidyMeans(Progress(ev.rebuilt, l.unresolved), l.quarantined);
    TidyMeans(WalkTo(db, p, closure, ev, |l.quarantined|).done, l.quarantined);
  }

  /** What a run quarantines and what it reports follows the policy, whatever is rebuilt
      afterwards; every report that is not about an open replay is about a rebuild. */
  lemma OutcomeFollowsPolicy(db: Db, p: Params, closure: seq<Id>, ev: Event)
    requires Running(ev.state)
    ensures var s := Outcome(db, p, closure, ev);
      && FollowsPolicy(ev.policy, ev.severity, p.balancedQuarantinesOpen, s.decisions, LedgerOf(ev), Ledger(s.quarantined, s.unresolved))
      && (forall u :: u in s.unresolved && u !in ev.unresolved && !u.reason.ReplayOpen? ==>
            u.target in s.quarantined && u.reason in {RebuildUnavailable, VerificationFailed})
  {
    hide Settled, AttemptAll, Decisions, FollowsPolicy;
    var ds := Decisions(db, p, closure, ev);
    var l := Settled(p, ev, ds);
    SettledFollows(p, ev, ds);
    var q := l.quarantined;
    assert q[..|q|] == q;
    AttemptAllReports(Walk(Start(db, p, closure, ev), Progress(ev.rebuilt, l.unresolved)), p, ev.key, q);
    var s := Outcome(db, p, closure, ev);
    ReportsFollow(ev.policy, ev.severity, p.balancedQuarantinesOpen, ds, LedgerOf(ev), l, s.unresolved);
  }

  lemma ReportsFollow(policy: Policy, severity: Severity, setting: bool, ds: seq<Decision>, before: Ledger, after: Ledger, more: seq<Open>)
    requires FollowsPolicy(policy, severity, setting, ds, before, after)
    requires forall u :: u in after.unresolved ==> u in more
    requires forall u :: u in more ==> u in after.unresolved || !u.reason.ReplayOpen?
    ensures FollowsPolicy(policy, severity, setting, ds, before, Ledger(after.quarantined, more))
  {
  }

  /** While replay is still to come, the candidates are the pairs recovery scores as
      plausible between a member of the closure and a listed artifact outside it. */
  lemma OutcomeCandidates(db: Db, p: Params, closure: seq<Id>, c: Candidate)
    ensures c in Hidden(db, p, closure) <==>
              && c.member in closure && c.target !in closure
              && c.target in (if |db.order| <= 10_000 then db.order else db.order[..10_000])
              && exists r :: r in (p.recover)(SnapshotOf(db), c.target) && r.isCandidate && r.candidate == c.member && r.score == c.score
  {
    HiddenExactly(SnapshotOf(db), p, closure, Listed(db.order), c);
  }

  lemma {:induction false} HiddenExactly(snap: Snapshot, p: Params, closure: seq<Id>, ids: seq<Id>, c: Candidate)
    ensures c in HiddenFrom(snap, p, closure, ids) <==>
              && c.target in ids && c.target !in closure && c.member in closure
              && exists r :: r in (p.recover)(snap, c.target) && r.isCandidate && r.candidate == c.member && r.score == c.score
  {
    if ids != [] {
      HiddenExactly(snap, p, closure, ids[1..], c);
      MatchesExactly(closure, ids[0], (p.recover)(snap, ids[0]), c);
      assert c.target in ids <==> c.target == ids[0] || c.target in ids[1..];
    }
  }

  lemma {:induction false} MatchesExactly(closure: seq<Id>, target: Id, rs: seq<Scored>, c: Candidate)
    ensures c in Matches(closure, target, rs) <==>
              && c.target == target && c.member in closure
              && exists r :: r in rs && r.isCandidate && r.candidate == c.member && r.score == c.score
  {
    if rs != [] {
      MatchesExactly(closure, target, rs[1..], c);
      assert forall r :: r in rs <==> r == rs[0] || r in rs[1..];
      assert rs[0] in rs;
    }
  }

  /** Every candidate not decided before is decided: passed over if it is not selected,
      noted if there is nothing to replay, and replayed otherwise. */
  lemma OutcomeDecides(db: Db, p: Params, closure: seq<Id>, ev: Event, c: Candidate)
    requires Running(ev.state) && BeforeQuarantine(ev.state) && c in Hidden(db, p, closure)
    requires forall d :: d in ev.decisions ==> d.member != c.member || d.target != c.target
    ensures var s, selected := Outcome(db, p, closure, ev), (p.select)(Hidden(db, p, closure));
      && ((c.member, c.target) !in selected ==> Decision(c.member, c.target, NotSelected) in s.decisions)
      && ((c.member, c.target) in selected && c.target !in db.derivations ==>
            Decision(c.member, c.target, NoDerivation) in s.decisions)
      && ((c.member, c.target) in selected && c.target in db.derivations ==>
            Decision(c.member, c.target, Executed((p.verdict)(c.member, db.derivations[c.target]))) in s.decisions)
  {
    var cs, done := Hidden(db, p, closure), Decided(ev.decisions);
    assert PairOf(c) !in done;
    AllDecided(db.derivations, p, (p.select)(cs), cs, done, c);
    var rest := DecideAll(db.derivations, p, (p.select)(cs), Undecided(cs, done));
    assert forall d :: d in rest ==> d in ev.decisions + rest;
  }

  /** Decisions already saved are kept, and past replay they are all there is. */
  lemma OutcomeKeepsDecisions(db: Db, p: Params, closure: seq<Id>, ev: Event)
    requires Running(ev.state)
    ensures var s := Outcome(db, p, closure, ev);
      && |ev.decisions| <= |s.decisions| && s.decisions[..|ev.decisions|] == ev.decisions
      && (!BeforeQuarantine(ev.state) ==> s.decisions == ev.decisions)
  {
  }

  // ----- from the request on

  /** Recovery scores each candidate at most once per target. */
  ghost predicate RecoversOnce(p: Params) {
    forall snap, id, i, j :: 0 <= i < j < |(p.recover)(snap, id)| ==>
      (p.recover)(snap, id)[i].candidate != (p.recover)(snap, id)[j].candidate
  }

  lemma {:induction false} MatchesFrom(closure: seq<Id>, target: Id, rs: seq<Scored>)
    ensures forall c :: c in Matches(closure, target, rs) ==>
              c.target == target && exists r :: r in rs && r.candidate == c.member
    ensures (forall i, j :: 0 <= i < j < |rs| ==> rs[i].candidate != rs[j].candidate) ==>
              PairsDistinct(Matches(closure, target, rs))
  {
    if rs != [] {
      MatchesFrom(closure, target, rs[1..]);
      assert forall r :: r in rs[1..] ==> r in rs;
      assert rs[0] in rs;
    }
  }

  lemma {:induction false} HiddenTargets(snap: Snapshot, p: Params, closure: seq<Id>, ids: seq<Id>)
    ensures forall c :: c in HiddenFrom(snap, p, closure, ids) ==> c.target in ids
    ensures RecoversOnce(p) && Distinct(ids) ==> PairsDistinct(HiddenFrom(snap, p, closure, ids))
  {
    if ids != [] {
      var id := ids[0];
      HiddenTargets(snap, p, closure, ids[1..]);
      MatchesFrom(closure, id, (p.recover)(snap, id));
      var here, rest := HiddenOf(snap, p, closure, id), HiddenFrom(snap, p, closure, ids[1..]);
      assert forall c :: c in here ==> c.target == id;
      if RecoversOnce(p) && Distinct(ids) {
        assert Distinct(ids[1..]) && id !in ids[1..];
        forall i, j | 0 <= i < j < |here + rest| ensures PairOf((here + rest)[i]) != PairOf((here + rest)[j]) {
          if i < |here| && j >= |here| {
            assert here[i].target == id;
            assert rest[j - |here|] in rest;
          }
        }
      }
    }
  }

  /** What a successful request leaves is a state every later call accepts. */
  lemma StartIsGood(db: Db, p: Params, key: Key, closure: seq<Id>)
    requires Tables(db) && RecoversOnce(p) && key in db.events
    requires var ev := db.events[key]; ev == NewEvent(key, ev.roots, ev.policy, ev.severity).(state := CandidateRecovery, roots := ev.roots)
    requires IsClosure(db, db.events[key].roots, closure)
    requires Climbs(db.LogOf(key), CandidateRecovery)
    ensures Good(db, p, key, closure)
  {
    var ev, ids := db.events[key], Listed(db.order);
    HiddenTargets(SnapshotOf(db), p, closure, ids);
    var cs := Hidden(db, p, closure);
    forall d | d in Decisions(db, p, closure, ev) ensures d.target in db.artifacts {
      DecidedTargets(db.derivations, p, (p.select)(cs), cs, Decided(ev.decisions), d);
      var i :| 0 <= i < |cs| && PairOf(cs[i]) == (d.member, d.target);
      assert cs[i] in cs;
    }
  }

  lemma KeptLog(a: Db, b: Db, p: Params, key: Key, closure: seq<Id>)
    requires Kept(a, b, p, key, closure)
    ensures LogExtends(a.LogOf(key), b.LogOf(key)) && key in a.events && key in b.events
    ensures Climbs(b.LogOf(key), b.events[key].state) && b.events[key].roots == a.events[key].roots
    ensures a.events[key].policy.Forensic? ==> ServingSame(a, b)
  {
  }

  lemma RequestClimbs(policy: Policy)
    ensures PathInTable(RequestLog(policy), CandidateRecovery) && Climbs(RequestLog(policy), CandidateRecovery)
  {
    PathClimbs(RequestLog(policy), CandidateRecovery);
  }

  lemma NotStuck(p: Params, s: State)
    requires s == CandidateRecovery
    ensures !Stuck(p, s) && !Terminal(s)
  {
  }

  /** A whole revocation: the request, then runs that die anywhere, then one that
      does not. A forensic revocation leaves everything that is served untouched from
      end to end; any other starts its log with the barrier; no log has more than
      nine rows; every quarantined target is accounted for. */
  method Revoke(ws: Workspace, p: Params, key: Key, roots: seq<Id>, policy: Policy, severity: Severity, fates: seq<Fate>)
    returns (r: Result<Event>)
    requires Tables(ws.db) && RecoversOnce(p)
    requires key !in ws.db.events && ws.db.LogOf(key) == [] && ws.Immortal()
    modifies ws
    ensures policy.Forensic? ==> ServingSame(old(ws.db), ws.db)
    ensures r.Ok? ==> roots != [] && Terminal(r.value.state) && r.value.key == key && Accounted(p, r.value)
    ensures r.Ok? ==> LogExtends(RequestLog(policy), ws.db.LogOf(key)) && |ws.db.LogOf(key)| <= 9
    ensures r.Ok? ==> AllBuiltSafely(ws.Stores(), p, r.value) && AllPublished(ws.db, p, r.value)
    ensures r.Err? ==> r.fault in {NotFound, NoRoots}
    ensures roots == [] ==> r.Err?
  {
    hide Good, Kept, Outcome, Accounted, AllPublished, Sourced, AllBuiltSafely, EndsAsForeseen, Barred, IsClosure,
      Covers, Stuck, Climbs, PathInTable, Terminal;
    var requested := RequestRevocation(ws, key, roots, policy, severity);
    if requested.Err? {
      return requested;
    }
    var closure :- RecordedDescendants(ws.db, requested.value.roots);
    ghost var start := ws.db;
    SortedRoots(start, start, roots);
    RequestClimbs(policy);
    assert start.LogOf(key) == RequestLog(policy);
    NotStuck(p, CandidateRecovery);
    StartIsGood(start, p, key, closure);
    NothingPublished(start, p, requested.value);
    r := RunUntilDone(ws, p, key, fates, closure);
    KeptLog(start, ws.db, p, key, closure);
    if r.Ok? {
      LogIsBounded(ws.db.LogOf(key), r.value.state);
      SourcedSafely(ws.Stores(), p, requested.value, r.value);
    }
  }
}
