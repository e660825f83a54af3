/** Laws of the outcome functions: what each stage is insensitive to, and what the
    finished ledger conserves. */
module RevocationLaws {
  import opened Domain
  import opened Seqs
  import opened Store
  import opened Planner
  import opened RevocationSpec

  // ----- replay decisions

  ghost predicate PairsDistinct(cs: seq<Candidate>) {
    forall i, j :: 0 <= i < j < |cs| ==> PairOf(cs[i]) != PairOf(cs[j])
  }

  /** A resumed replay loop that knows the first `i` candidates are decided still
      has exactly the rest of the original work to do. */
  lemma {:induction false} UndecidedResume(cs: seq<Candidate>, done: set<(Id, Id)>, before: set<(Id, Id)>, i: nat)
    requires i <= |cs|
    requires forall j :: 0 <= j < i ==> PairOf(cs[j]) in done
    requires forall j :: i <= j < |cs| ==> (PairOf(cs[j]) in done <==> PairOf(cs[j]) in before)
    ensures Undecided(cs, done) == Undecided(cs[i..], before)
    decreases |cs|
  {
    if cs != [] {
      if i > 0 {
        UndecidedResume(cs[1..], done, before, i - 1);
        assert cs[1..][i - 1..] == cs[i..];
      } else {
        UndecidedResume(cs[1..], done, before, 0);
        assert cs[0..] == cs && cs[1..][0..] == cs[1..];
      }
    }
  }

  lemma {:induction false} DecidedTargets(derivations: map<Id, Derivation>, p: Params, selected: set<(Id, Id)>,
                                          cs: seq<Candidate>, done: set<(Id, Id)>, d: Decision)
    requires d in DecideAll(derivations, p, selected, Undecided(cs, done))
    ensures exists i :: 0 <= i < |cs| && PairOf(cs[i]) == (d.member, d.target)
  {
    if cs != [] {
      if PairOf(cs[0]) in done {
        assert Undecided(cs, done) == Undecided(cs[1..], done);
        DecidedTargets(derivations, p, selected, cs[1..], done, d);
        var i :| 0 <= i < |cs[1..]| && PairOf(cs[1..][i]) == (d.member, d.target);
        assert PairOf(cs[i + 1]) == (d.member, d.target);
      } else {
        assert Undecided(cs, done) == [cs[0]] + Undecided(cs[1..], done);
        if d != Decide(derivations, p, selected, cs[0]) {
          assert d in DecideAll(derivations, p, selected, Undecided(cs[1..], done));
          DecidedTargets(derivations, p, selected, cs[1..], done, d);
          var i :| 0 <= i < |cs[1..]| && PairOf(cs[1..][i]) == (d.member, d.target);
          assert PairOf(cs[i + 1]) == (d.member, d.target);
        } else {
          assert PairOf(cs[0]) == (d.member, d.target);
        }
      }
    }
  }

  // ----- quarantine

  lemma {:induction false} AddMissingFacts(q: seq<Id>, ts: seq<Id>)
    ensures forall x :: x in AddMissing(q, ts) <==> x in q || x in ts
    ensures Distinct(q) ==> Distinct(AddMissing(q, ts))
    decreases |ts|
  {
    if ts != [] {
      var q' := if ts[0] in q then q else q + [ts[0]];
      AddMissingFacts(q', ts[1..]);
      assert forall x :: x in ts <==> x == ts[0] || x in ts[1..];
      assert forall x :: x in q' <==> x in q || x == ts[0];
    }
  }

  /** Re-running the confirmed loop skips everything already quarantined. */
  lemma {:induction false} AddMissingResume(q: seq<Id>, ts: seq<Id>, i: nat)
    requires i <= |ts|
    requires forall j :: 0 <= j < i ==> ts[j] in q
    ensures AddMissing(q, ts) == AddMissing(q, ts[i..])
    decreases |ts|
  {
    if i > 0 {
      AddMissingResume(q, ts[1..], i - 1);
      assert ts[1..][i - 1..] == ts[i..];
    } else {
      assert ts[0..] == ts;
    }
  }

  predicate Covered(l: Ledger, t: Id) {
    t in l.quarantined || t in OpenTargets(l.unresolved)
  }

  /** Re-running the unresolved loop skips every target already dealt with. */
  lemma {:induction false} SettleResume(l: Ledger, ds: seq<Decision>, b: bool, i: nat)
    requires forall d :: d in ds ==> IsOpen(d)
    requires i <= |ds|
    requires forall j :: 0 <= j < i ==> Covered(l, ds[j].target)
    ensures Settle(l, ds, b) == Settle(l, ds[i..], b)
    decreases |ds|
  {
    if i > 0 {
      SettleResume(l, ds[1..], b, i - 1);
      assert ds[1..][i - 1..] == ds[i..];
    } else {
      assert ds[0..] == ds;
    }
  }

  ghost predicate Apart(l: Ledger) {
    Distinct(l.quarantined) && forall t :: t in l.quarantined ==> t !in OpenTargets(l.unresolved)
  }

  lemma {:induction false} SettleFacts(l: Ledger, ds: seq<Decision>, b: bool)
    requires forall d :: d in ds ==> IsOpen(d)
    ensures var r := Settle(l, ds, b);
      && (forall t :: Covered(l, t) ==> Covered(r, t))
      && (forall d :: d in ds ==> Covered(r, d.target))
      && (forall t :: t in r.quarantined ==> t in l.quarantined || exists d :: d in ds && d.target == t)
      && (forall t :: t in l.quarantined ==> t in r.quarantined)
      && (!b ==> r.quarantined == l.quarantined)
      && (Apart(l) ==> Apart(r))
    decreases |ds|
  {
    if ds != [] {
      var d := ds[0];
      assert d in ds && IsOpen(d);
      var l' :=
        if d.target in l.quarantined || d.target in OpenTargets(l.unresolved) then l
        else if b then l.(quarantined := l.quarantined + [d.target])
        else l.(unresolved := l.unresolved + [AsOpen(d)]);
      SettleFacts(l', ds[1..], b);
      assert forall u :: u in l'.unresolved <==> u in l.unresolved || (l' != l && !b && u == AsOpen(d));
      assert Covered(l', d.target) by {
        if l' != l && !b {
          assert AsOpen(d) in l'.unresolved;
        }
      }
      assert forall e :: e in ds <==> e == d || e in ds[1..];
    }
  }

  // ----- the policy

  /** What a quarantine stage may make of decisions `ds`. A confirmed target is quarantined
      unless the run is forensic. An open replay is quarantined, and not reported, for a
      strict policy, or a balanced one with the setting on, at high or critical severity;
      in every other case only confirmed targets join the list, none in a forensic run,
      and an open replay is reported with its verdict unless its target is listed already. */
  ghost predicate FollowsPolicy(policy: Policy, severity: Severity, setting: bool, ds: seq<Decision>, before: Ledger, after: Ledger) {
    && (forall t :: t in before.quarantined ==> t in after.quarantined)
    && (policy == Forensic ==> after.quarantined == before.quarantined)
    && (policy != Forensic ==> forall d :: d in ds && d.replay == Executed(Confirmed) ==> d.target in after.quarantined)
    && (severity in {High, Critical} && (policy == Strict || (policy == Balanced && setting)) ==>
          (forall d :: d in ds && d.replay.Executed? && d.replay.verdict !in {Confirmed, VerdictRejected} ==>
             d.target in after.quarantined || exists u :: u in before.unresolved && u.target == d.target)
          && forall u :: u in after.unresolved && u.reason.ReplayOpen? ==> u in before.unresolved)
    && (severity in {Low, Medium} || policy == Forensic || (policy == Balanced && !setting) ==>
          (forall t :: t in after.quarantined && t !in before.quarantined ==>
             exists d :: d in ds && d.target == t && d.replay == Executed(Confirmed))
          && (forall d :: d in ds && d.replay.Executed? && d.replay.verdict !in {Confirmed, VerdictRejected} ==>
                d.target in after.quarantined || exists u :: u in after.unresolved && u.target == d.target))
    && (forall t :: t in after.quarantined && t !in before.quarantined ==>
          exists d :: d in ds && d.target == t && d.replay.Executed? && d.replay.verdict != VerdictRejected)
    && (forall u :: u in after.unresolved && u.reason.ReplayOpen? && u !in before.unresolved ==>
          exists d :: d in ds && d.replay.Executed? && d.replay.verdict !in {Confirmed, VerdictRejected}
                      && u == Open(d.target, ReplayOpen(d.member, d.replay.verdict)))
  }

  lemma {:induction false} OpenListed(ds: seq<Decision>, d: Decision)
    ensures d in OpenDecisions(ds) <==> d in ds && d.replay.Executed? && d.replay.verdict !in {Confirmed, VerdictRejected}
  {
    if ds != [] {
      OpenListed(ds[1..], d);
      assert d in ds <==> d == ds[0] || d in ds[1..];
    }
  }

  lemma {:induction false} ConfirmedListed(ds: seq<Decision>, t: Id)
    ensures t in ConfirmedTargets(ds) <==> exists d :: d in ds && d.target == t && d.replay == Executed(Confirmed)
  {
    if ds != [] {
      ConfirmedListed(ds[1..], t);
      assert forall d :: d in ds <==> d == ds[0] || d in ds[1..];
      assert ds[0] in ds;
    }
  }

  /** One pass over open replays quarantines them all or reports them all. */
  lemma {:induction false} SettleReports(l: Ledger, ds: seq<Decision>, b: bool)
    requires forall d :: d in ds ==> IsOpen(d)
    ensures var r := Settle(l, ds, b);
      && (b ==> r.unresolved == l.unresolved)
      && (forall u :: u in r.unresolved && u !in l.unresolved ==>
            exists d :: d in ds && d.replay.Executed? && u == Open(d.target, ReplayOpen(d.member, d.replay.verdict)))
    decreases |ds|
  {
    if ds != [] {
      var d := ds[0];
      assert d in ds && IsOpen(d);
      var l' :=
        if d.target in l.quarantined || d.target in OpenTargets(l.unresolved) then l
        else if b then l.(quarantined := l.quarantined + [d.target])
        else l.(unresolved := l.unresolved + [AsOpen(d)]);
      SettleReports(l', ds[1..], b);
      assert forall e :: e in ds[1..] ==> e in ds;
      assert forall u :: u in l'.unresolved ==> u in l.unresolved || u == AsOpen(d);
    }
  }

  /** The unresolved loop on its own follows the policy, once confirmed targets are listed. */
  lemma SettleFollows(policy: Policy, severity: Severity, setting: bool, ds: seq<Decision>, l: Ledger)
    requires policy != Forensic ==> forall t :: t in ConfirmedTargets(ds) ==> t in l.quarantined
    ensures (OpenDecisionsAreOpen(ds);
             FollowsPolicy(policy, severity, setting, ds, l, Settle(l, OpenDecisions(ds), ShouldQuarantineOpen(policy, severity, setting))))
    ensures (OpenDecisionsAreOpen(ds);
             forall u :: u in Settle(l, OpenDecisions(ds), ShouldQuarantineOpen(policy, severity, setting)).unresolved ==>
               u in l.unresolved || u.reason.ReplayOpen?)
  {
    OpenDecisionsAreOpen(ds);
    var b := ShouldQuarantineOpen(policy, severity, setting);
    var os := OpenDecisions(ds);
    SettleFacts(l, os, b);
    SettleReports(l, os, b);
    forall d ensures d in os <==> d in ds && d.replay.Executed? && d.replay.verdict !in {Confirmed, VerdictRejected} {
      OpenListed(ds, d);
    }
    forall d | d in ds && d.replay == Executed(Confirmed) ensures d.target in ConfirmedTargets(ds) {
      ConfirmedListed(ds, d.target);
    }
  }

  /** Both loops together. */
  lemma SettledFollows(p: Params, ev: Event, ds: seq<Decision>)
    ensures FollowsPolicy(ev.policy, ev.severity, p.balancedQuarantinesOpen, ds, LedgerOf(ev), Settled(p, ev, ds))
    ensures forall u :: u in Settled(p, ev, ds).unresolved ==> u in ev.unresolved || u.reason.ReplayOpen?
  {
    hide Settle, ShouldQuarantineOpen;
    var ts := SortUnique(ConfirmedTargets(ds));
    AddMissingFacts(ev.quarantined, ts);
    var q := if ev.policy.Forensic? then ev.quarantined else AddMissing(ev.quarantined, ts);
    SettleFollows(ev.policy, ev.severity, p.balancedQuarantinesOpen, ds, Ledger(q, ev.unresolved));
    forall t | t in ConfirmedTargets(ds) ensures exists d :: d in ds && d.target == t && d.replay == Executed(Confirmed) {
      ConfirmedListed(ds, t);
    }
  }

  // ----- rebuild

  /** No target is both rebuilt and reported, and only targets are rebuilt. */
  ghost predicate Tidy(g: Progress, q: seq<Id>) {
    && (forall t :: t in Originals(g.rebuilt) ==> t in q && t !in OpenTargets(g.unresolved))
    && (forall i, j :: 0 <= i < j < |g.rebuilt| ==> g.rebuilt[i].original != g.rebuilt[j].original)
  }

  lemma RecordFacts(g: Progress, q: seq<Id>, t: Id, a: Attempt)
    requires Tidy(g, q) && t in q && !Done(g, t)
    ensures Tidy(Record(g, t, a), q)
    ensures forall s :: Done(Record(g, t, a), s) <==> s == t || Done(g, s)
    ensures forall s :: s in Originals(Record(g, t, a).rebuilt) <==> s in Originals(g.rebuilt) || (s == t && a.Passes?)
  {
    var g' := Record(g, t, a);
    if a.Passes? {
      assert forall r :: r in g'.rebuilt <==> r in g.rebuilt || r == Rebuilt(t, a.successor);
      assert Rebuilt(t, a.successor) in g'.rebuilt;
      forall i, j | 0 <= i < j < |g'.rebuilt| ensures g'.rebuilt[i].original != g'.rebuilt[j].original {
        assert g.rebuilt[i] in g.rebuilt;
      }
    } else {
      var u := if a.Unavailable? then Open(t, RebuildUnavailable) else Open(t, VerificationFailed);
      assert forall x :: x in g'.unresolved <==> x in g.unresolved || x == u;
      assert u in g'.unresolved;
    }
  }

  /** Every candidate ends up decided. */
  lemma {:induction false} AllDecided(derivations: map<Id, Derivation>, p: Params, selected: set<(Id, Id)>,
                                      cs: seq<Candidate>, done: set<(Id, Id)>, c: Candidate)
    requires c in cs && PairOf(c) !in done
    ensures Decide(derivations, p, selected, c) in DecideAll(derivations, p, selected, Undecided(cs, done))
  {
    if c != cs[0] {
      AllDecided(derivations, p, selected, cs[1..], done, c);
    }
    if PairOf(cs[0]) !in done {
      assert Undecided(cs, done) == [cs[0]] + Undecided(cs[1..], done);
      var rest := DecideAll(derivations, p, selected, Undecided(cs[1..], done));
      assert forall d :: d in rest ==> d in [Decide(derivations, p, selected, cs[0])] + rest;
    } else {
      assert Undecided(cs, done) == Undecided(cs[1..], done);
    }
  }
}
