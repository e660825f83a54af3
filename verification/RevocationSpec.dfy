/** What a revocation run finds and decides, as a function of the database and the
    persisted event. Nothing here commits anything: this is the answer the
    pipeline is measured against, from whatever point it starts. */
module RevocationSpec {
  import opened Domain
  import opened Seqs
  import opened Reachability
  import opened StateMachine
  import opened Store
  import opened Planner

  // ----- recorded closure and hidden candidates

  ghost predicate InClosure(db: Db, roots: seq<Id>, n: Id) {
    Reachable(db.RecordedPairs(), Elements(roots), n, None)
  }

  /** The closure as the pipeline lists it: ascending, each member once. */
  ghost predicate IsClosure(db: Db, roots: seq<Id>, c: seq<Id>) {
    Ascending(c) && forall n :: n in c <==> InClosure(db, roots, n)
  }

  const SCAN_LIMIT := 10_000

  function Listed(order: seq<Id>): seq<Id> {
    if |order| <= SCAN_LIMIT then order else order[..SCAN_LIMIT]
  }

  function Matches(closure: seq<Id>, target: Id, results: seq<Scored>): seq<Candidate> {
    if results == [] then []
    else
      var r := results[0];
      (if r.candidate in closure && r.isCandidate then [Candidate(r.candidate, target, r.score)] else [])
      + Matches(closure, target, results[1..])
  }

  function HiddenOf(snap: Snapshot, p: Params, closure: seq<Id>, id: Id): seq<Candidate> {
    if id in closure then [] else Matches(closure, id, (p.recover)(snap, id))
  }

  function HiddenFrom(snap: Snapshot, p: Params, closure: seq<Id>, ids: seq<Id>): seq<Candidate> {
    if ids == [] then []
    else HiddenOf(snap, p, closure, ids[0]) + HiddenFrom(snap, p, closure, ids[1..])
  }

  function Hidden(db: Db, p: Params, closure: seq<Id>): seq<Candidate> {
    HiddenFrom(SnapshotOf(db), p, closure, Listed(db.order))
  }

  // ----- replay decisions

  function PairOf(c: Candidate): (Id, Id) {
    (c.member, c.target)
  }

  function Decided(ds: seq<Decision>): set<(Id, Id)> {
    set d | d in ds :: (d.member, d.target)
  }

  function Undecided(cs: seq<Candidate>, done: set<(Id, Id)>): seq<Candidate> {
    if cs == [] then []
    else (if PairOf(cs[0]) in done then [] else [cs[0]]) + Undecided(cs[1..], done)
  }

  function Decide(derivations: map<Id, Derivation>, p: Params, selected: set<(Id, Id)>, c: Candidate): Decision {
    Decision(c.member, c.target,
      if PairOf(c) !in selected then NotSelected
      else if c.target !in derivations then NoDerivation
      else Executed((p.verdict)(c.member, derivations[c.target])))
  }

  function DecideAll(derivations: map<Id, Derivation>, p: Params, selected: set<(Id, Id)>, cs: seq<Candidate>): seq<Decision> {
    if cs == [] then []
    else [Decide(derivations, p, selected, cs[0])] + DecideAll(derivations, p, selected, cs[1..])
  }

  /** The decisions a run ends up with: those persisted, then one for every
      candidate still undecided. Past replaying, the persisted list is final. */
  function Decisions(db: Db, p: Params, closure: seq<Id>, ev: Event): seq<Decision> {
    if BeforeQuarantine(ev.state) then
      var cs := Hidden(db, p, closure);
      ev.decisions + DecideAll(db.derivations, p, (p.select)(cs), Undecided(cs, Decided(ev.decisions)))
    else ev.decisions
  }

  // ----- quarantine

  predicate IsConfirmed(d: Decision) {
    d.replay == Executed(Confirmed)
  }

  predicate IsOpen(d: Decision) {
    d.replay.Executed? && d.replay.verdict !in {Confirmed, VerdictRejected}
  }

  function ConfirmedTargets(ds: seq<Decision>): seq<Id> {
    if ds == [] then []
    else (if IsConfirmed(ds[0]) then [ds[0].target] else []) + ConfirmedTargets(ds[1..])
  }

  function OpenDecisions(ds: seq<Decision>): seq<Decision> {
    if ds == [] then []
    else (if IsOpen(ds[0]) then [ds[0]] else []) + OpenDecisions(ds[1..])
  }

  function OpenTargets(us: seq<Open>): set<Id> {
    set u | u in us :: u.target
  }

  function Originals(rs: seq<Rebuilt>): set<Id> {
    set r | r in rs :: r.original
  }

  /** Forensic never; strict for high and critical severity; balanced only if
      configured to. */
  function ShouldQuarantineOpen(policy: Policy, severity: Severity, configured: bool): bool {
    if policy == Forensic then false
    else if severity !in {High, Critical} then false
    else if policy == Strict then true
    else configured
  }

  function AddMissing(q: seq<Id>, ts: seq<Id>): seq<Id>
    decreases |ts|
  {
    if ts == [] then q
    else AddMissing(if ts[0] in q then q else q + [ts[0]], ts[1..])
  }

  function AsOpen(d: Decision): Open
    requires d.replay.Executed?
  {
    Open(d.target, ReplayOpen(d.member, d.replay.verdict))
  }

  datatype Ledger = Ledger(quarantined: seq<Id>, unresolved: seq<Open>)

  function LedgerOf(ev: Event): Ledger {
    Ledger(ev.quarantined, ev.unresolved)
  }

  /** Unresolved replays: quarantine the target or report it, once. */
  function Settle(l: Ledger, ds: seq<Decision>, quarantineThem: bool): Ledger
    requires forall d :: d in ds ==> IsOpen(d)
    decreases |ds|
  {
    if ds == [] then l
    else
      var d := ds[0];
      assert d in ds && IsOpen(d);
      var l' :=
        if d.target in l.quarantined || d.target in OpenTargets(l.unresolved) then l
        else if quarantineThem then l.(quarantined := l.quarantined + [d.target])
        else l.(unresolved := l.unresolved + [AsOpen(d)]);
      Settle(l', ds[1..], quarantineThem)
  }

  lemma OpenDecisionsAreOpen(ds: seq<Decision>)
    ensures forall d :: d in OpenDecisions(ds) ==> IsOpen(d) && d in ds
  {
  }

  /** The outcome of the quarantine stage for decisions `ds`. */
  function Settled(p: Params, ev: Event, ds: seq<Decision>): Ledger {
    OpenDecisionsAreOpen(ds);
    var q := if ev.policy == Forensic then ev.quarantined
             else AddMissing(ev.quarantined, SortUnique(ConfirmedTargets(ds)));
    Settle(Ledger(q, ev.unresolved), OpenDecisions(ds),
           ShouldQuarantineOpen(ev.policy, ev.severity, p.balancedQuarantinesOpen))
  }

  // ----- rebuild

  /** How the rebuild of one target ends. */
  datatype Attempt = Unavailable | Fails | Passes(successor: Id)

  datatype Progress = Progress(rebuilt: seq<Rebuilt>, unresolved: seq<Open>)

  predicate Done(g: Progress, t: Id) {
    t in Originals(g.rebuilt) || t in OpenTargets(g.unresolved)
  }

  function Record(g: Progress, t: Id, a: Attempt): Progress {
    match a
    case Unavailable => g.(unresolved := g.unresolved + [Open(t, RebuildUnavailable)])
    case Fails => g.(unresolved := g.unresolved + [Open(t, VerificationFailed)])
    case Passes(n) => g.(rebuilt := g.rebuilt + [Rebuilt(t, n)])
  }

  // ----- the whole run

  datatype Summary = Summary(
    decisions: seq<Decision>,
    quarantined: seq<Id>,
    rebuilt: seq<Rebuilt>,
    unresolved: seq<Open>,
    state: State)

  function SummaryOf(ev: Event): Summary {
    Summary(ev.decisions, ev.quarantined, ev.rebuilt, ev.unresolved, ev.state)
  }

  function FinalState(us: seq<Open>): State {
    if us == [] then Completed else CompletedWithUnresolved
  }

  /** Whether the rebuild block runs for an event with these quarantined targets. */
  predicate Rebuilds(p: Params, policy: Policy) {
    p.attemptRebuild && policy != Forensic
  }
}
