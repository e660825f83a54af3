/** Clean-room rebuild: which supports a plan keeps, and what the verification
    suite says about the artifact built from them. */
module Planner {
  import opened Domain
  import opened Seqs
  import opened Store

  /** What the planner finds out about one support artifact. */
  datatype Screening = Missing | RevokedRoot | QuarantinedSupport | Contaminated | Clean

  datatype Plan = Plan(clean: seq<Id>, excluded: seq<(Id, Screening)>)

  /** The fixture output of a recipe: the canary keys observed in it, and how well it
      does its task, if it says. */
  datatype Output = Output(observed: set<int>, utility: Option<real>)

  datatype Scored = Scored(candidate: Id, isCandidate: bool, score: real)

  /** The parts of a run that are libraries, registries or configuration. All are
      deterministic: scoring, replay selection, the replay verdict, the recipes
      and content addressing. */
  datatype Params = Params(
    recover: (Snapshot, Id) -> seq<Scored>,
    select: seq<Candidate> -> set<(Id, Id)>,
    verdict: (Id, Derivation) -> Verdict,
    recipe: (Derivation, set<Id>) -> Option<Output>,
    successor: (Id, Plan) -> Id,
    canaryKeys: seq<int>,
    attemptRebuild: bool,
    balancedQuarantinesOpen: bool,
    now: int)

  function Dedup(xs: seq<Id>): (r: seq<Id>)
    ensures forall x :: x in r <==> x in xs
  {
    if xs == [] then []
    else
      assert xs == xs[..|xs| - 1] + [xs[|xs| - 1]];
      var r := Dedup(xs[..|xs| - 1]);
      if xs[|xs| - 1] in r then r else r + [xs[|xs| - 1]]
  }

  lemma {:induction false} DedupIsDistinct(xs: seq<Id>)
    ensures Distinct(Dedup(xs))
  {
    if xs != [] {
      DedupIsDistinct(xs[..|xs| - 1]);
    }
  }

  /** The supports a rebuild of the artifact derived by `d` may draw on. */
  function Pool(d: Derivation): seq<Id> {
    Dedup(d.recordedInputs + d.contextPool)
  }

  function Screen(db: Db, now: int, s: Id): Screening {
    if s !in db.artifacts then Missing
    else if db.artifacts[s].status == Revoked then RevokedRoot
    else if db.RowActive(s) && !db.Waived(s, {RebuildSupport}, now) then QuarantinedSupport
    else if db.HasConfirmedIn(s) then Contaminated
    else Clean
  }

  function Keep(pool: seq<Id>, screen: Id -> Screening): (r: seq<Id>)
    ensures forall s :: s in r <==> s in pool && screen(s) == Clean
  {
    if pool == [] then []
    else
      assert pool == pool[..|pool| - 1] + [pool[|pool| - 1]];
      var s := pool[|pool| - 1];
      Keep(pool[..|pool| - 1], screen) + if screen(s) == Clean then [s] else []
  }

  function Drop(pool: seq<Id>, screen: Id -> Screening): (r: seq<(Id, Screening)>)
    ensures forall e :: e in r <==> e.0 in pool && e.1 == screen(e.0) && e.1 != Clean
  {
    if pool == [] then []
    else
      assert pool == pool[..|pool| - 1] + [pool[|pool| - 1]];
      var s := pool[|pool| - 1];
      Drop(pool[..|pool| - 1], screen) + if screen(s) == Clean then [] else [(s, screen(s))]
  }

  function Split(pool: seq<Id>, screen: Id -> Screening): Plan {
    Plan(Keep(pool, screen), Drop(pool, screen))
  }

  /** A plan depends on nothing but the screening of its own pool. */
  lemma {:induction false} SplitCongruent(pool: seq<Id>, f: Id -> Screening, g: Id -> Screening)
    requires forall s :: s in pool ==> f(s) == g(s)
    ensures Split(pool, f) == Split(pool, g)
  {
    if pool != [] {
      assert pool == pool[..|pool| - 1] + [pool[|pool| - 1]];
      SplitCongruent(pool[..|pool| - 1], f, g);
    }
  }

  /** Nothing is lost and nothing is counted twice. */
  lemma {:induction false} SplitPartitions(pool: seq<Id>, screen: Id -> Screening)
    ensures |Keep(pool, screen)| + |Drop(pool, screen)| == |pool|
    ensures forall s :: s in pool <==> s in Keep(pool, screen) || (s, screen(s)) in Drop(pool, screen)
    ensures forall s :: s in Keep(pool, screen) ==> (s, screen(s)) !in Drop(pool, screen)
  {
    if pool != [] {
      SplitPartitions(pool[..|pool| - 1], screen);
    }
  }

  function PlanFor(db: Db, now: int, t: Id): Plan
    requires t in db.derivations
  {
    Split(Pool(db.derivations[t]), s => Screen(db, now, s))
  }

  /** A waiver on `s` that keeps a quarantined support in a plan, neither revoked nor past
      its date. */
  ghost predicate Supported(db: Db, now: int, s: Id) {
    exists w :: w in db.waivers
      && var v := db.waivers[w];
         v.artifact == s && !v.revoked && (v.expires.None? || v.expires.value >= now) && v.scope == RebuildSupport
  }

  /** Some replay-confirmed edge leads to `s`. */
  ghost predicate Tainted(db: Db, s: Id) {
    exists e: (Id, Id) :: e in db.hidden && e.1 == s && db.hidden[e] == ReplayConfirmed
  }

  /** In this order: a missing support, a revoked one, one in quarantine without a waiver,
      one that replay has confirmed, and a clean one. */
  lemma ScreenMeans(db: Db, now: int, s: Id)
    ensures var c := Screen(db, now, s);
      var held := s in db.quarantine && db.quarantine[s].active && !Supported(db, now, s);
      && (c == Missing <==> s !in db.artifacts)
      && (c == RevokedRoot <==> s in db.artifacts && db.artifacts[s].status == Revoked)
      && (c == QuarantinedSupport <==> s in db.artifacts && db.artifacts[s].status != Revoked && held)
      && (c == Contaminated <==> s in db.artifacts && db.artifacts[s].status != Revoked && !held && Tainted(db, s))
      && (c == Clean <==> s in db.artifacts && db.artifacts[s].status != Revoked && !held && !Tainted(db, s))
  {
    hide Supported, Tainted;
    SupportedIs(db, now, s);
    TaintedIs(db, s);
  }

  lemma SupportedIs(db: Db, now: int, s: Id)
    ensures db.Waived(s, {RebuildSupport}, now) <==> Supported(db, now, s)
  {
    if db.Waived(s, {RebuildSupport}, now) {
      var w :| w in db.waivers && db.waivers[w].artifact == s && !db.waivers[w].revoked
        && (db.waivers[w].expires.Some? ==> now <= db.waivers[w].expires.value) && db.waivers[w].scope in {RebuildSupport};
      assert db.waivers[w].scope == RebuildSupport;
    }
    if Supported(db, now, s) {
      var w :| w in db.waivers
        && var v := db.waivers[w];
           v.artifact == s && !v.revoked && (v.expires.None? || v.expires.value >= now) && v.scope == RebuildSupport;
      assert db.waivers[w].scope in {RebuildSupport};
    }
  }

  lemma TaintedIs(db: Db, s: Id)
    ensures db.HasConfirmedIn(s) <==> Tainted(db, s)
  {
  }

  /** A plan lists every recorded input and context artifact once: as clean, or as
      excluded for the first thing wrong with it. */
  lemma PlanMeans(db: Db, now: int, t: Id, s: Id)
    requires t in db.derivations
    ensures var plan, d := PlanFor(db, now, t), db.derivations[t];
      && (s in plan.clean <==> (s in d.recordedInputs || s in d.contextPool) && Screen(db, now, s) == Clean)
      && (forall c :: (s, c) in plan.excluded <==>
            (s in d.recordedInputs || s in d.contextPool) && c != Clean && Screen(db, now, s) == c)
      && Distinct(plan.clean)
  {
    hide Screen;
    var pool := Pool(db.derivations[t]);
    DedupIsDistinct(db.derivations[t].recordedInputs + db.derivations[t].contextPool);
    KeepDistinct(pool, s => Screen(db, now, s));
  }

  lemma {:induction false} KeepDistinct(pool: seq<Id>, screen: Id -> Screening)
    requires Distinct(pool)
    ensures Distinct(Keep(pool, screen))
  {
    if pool != [] {
      KeepDistinct(pool[..|pool| - 1], screen);
    }
  }

  /** Planning walks the deduplicated pool once, sorting every support into the
      clean list or, with its reason, into the excluded list. */
  method PlanRebuild(db: Db, now: int, t: Id) returns (r: Result<Plan>)
    ensures t !in db.derivations ==> r == Err(NotFound)
    ensures t in db.derivations ==> r == Ok(PlanFor(db, now, t))
  {
    if t !in db.derivations {
      return Err(NotFound);
    }
    var pool := Pool(db.derivations[t]);
    ghost var screen := (s: Id) => Screen(db, now, s);
    var clean: seq<Id>, excluded: seq<(Id, Screening)> := [], [];
    for i := 0 to |pool|
      invariant clean == Keep(pool[..i], screen) && excluded == Drop(pool[..i], screen)
    {
      var s := pool[i];
      assert pool[..i + 1][..i] == pool[..i];
      if s !in db.artifacts {
        excluded := excluded + [(s, Missing)];
        continue;
      }
      if db.artifacts[s].status == Revoked {
        excluded := excluded + [(s, RevokedRoot)];
        continue;
      }
      if db.RowActive(s) {
        if !db.Waived(s, {RebuildSupport}, now) {
          excluded := excluded + [(s, QuarantinedSupport)];
          continue;
        }
      }
      if db.HasConfirmedIn(s) {
        excluded := excluded + [(s, Contaminated)];
        continue;
      }
      clean := clean + [s];
    }
    assert pool[..|pool|] == pool;
    return Ok(Plan(clean, excluded));
  }

  // ----- verification

  datatype Report = Pass | Partial | Fail

  predicate Forbidden(db: Db, s: Id) {
    s in db.artifacts && db.artifacts[s].status in {Revoked, Quarantined}
  }

  predicate Spoils(db: Db, n: Id, e: Edge) {
    e.target == n && e.relation.CleanSupport? && Forbidden(db, e.source)
  }

  /** No canary key is observed and no clean support is revoked or quarantined. */
  predicate SuitePasses(db: Db, n: Id, keys: seq<int>, out: Output) {
    && (forall k :: k in keys ==> k !in out.observed)
    && (forall e :: e in db.recorded ==> !Spoils(db, n, e))
  }

  /** A recorded clean support of `n` that is revoked or quarantined. */
  ghost predicate Stained(db: Db, n: Id, s: Id) {
    && Edge(s, n, CleanSupport) in db.recorded
    && s in db.artifacts && (db.artifacts[s].status == Revoked || db.artifacts[s].status == Quarantined)
  }

  lemma StainsSpoil(db: Db, n: Id)
    ensures (forall e :: e in db.recorded ==> !Spoils(db, n, e)) <==> forall s :: !Stained(db, n, s)
  {
    if s :| Stained(db, n, s) {
      assert Spoils(db, n, Edge(s, n, CleanSupport));
    }
    if e :| e in db.recorded && Spoils(db, n, e) {
      assert e == Edge(e.source, n, CleanSupport) && Stained(db, n, e.source);
    }
  }

  lemma RetainedMeans(out: Output, baseline: Option<real>, threshold: real)
    requires baseline.Some? && baseline.value > 0.0 && out.utility.Some?
    ensures var kept := Retained(out, baseline);
      kept.Some? && (kept.value >= threshold <==> out.utility.value >= threshold * baseline.value)
  {
    var q := out.utility.value / baseline.value;
    assert q * baseline.value == out.utility.value;
    if q >= threshold {
      assert (q - threshold) * baseline.value >= 0.0;
    } else {
      assert (threshold - q) * baseline.value > 0.0;
    }
  }

  /** The share of a baseline that is still reached; there is no such check without a
      baseline score other than zero and a score to compare with it. */
  function Retained(out: Output, baseline: Option<real>): Option<real> {
    if baseline.Some? && baseline.value != 0.0 && out.utility.Some? then Some(out.utility.value / baseline.value) else None
  }

  /** One check per canary key, one for the supports, and one for the retained utility if
      there is anything to compare: all passed, some, or none. */
  method RunSuite(db: Db, n: Id, keys: seq<int>, out: Output, baseline: Option<real>, threshold: real) returns (r: Report)
    ensures baseline.None? || baseline.value == 0.0 || out.utility.None? ==>
              (r.Pass? <==> (forall k :: k in keys ==> k !in out.observed) && forall s :: !Stained(db, n, s))
    ensures baseline.Some? && baseline.value > 0.0 && out.utility.Some? ==>
              (r.Pass? <==> (forall k :: k in keys ==> k !in out.observed) && (forall s :: !Stained(db, n, s))
                            && out.utility.value >= threshold * baseline.value)
    ensures r.Fail? && baseline.None? ==> (forall k :: k in keys ==> k in out.observed) && exists s :: Stained(db, n, s)
    ensures var kept := Retained(out, baseline);
      r.Pass? <==> SuitePasses(db, n, keys, out) && (kept.Some? ==> kept.value >= threshold)
    ensures var kept := Retained(out, baseline);
      r.Fail? <==> (forall k :: k in keys ==> k in out.observed) && (exists e :: e in db.recorded && Spoils(db, n, e))
                   && (kept.Some? ==> kept.value < threshold)
  {
    StainsSpoil(db, n);
    if baseline.Some? && baseline.value > 0.0 && out.utility.Some? {
      RetainedMeans(out, baseline, threshold);
    }
    var all, any := CheckKeys(keys, out);
    var clear := CheckSupports(db, n);
    all, any := all && clear, any || clear;
    var kept := Retained(out, baseline);
    if kept.Some? {
      all, any := all && kept.value >= threshold, any || kept.value >= threshold;
    }
    r := if all then Pass else if any then Partial else Fail;
  }

  method CheckKeys(keys: seq<int>, out: Output) returns (all: bool, any: bool)
    ensures all <==> forall k :: k in keys ==> k !in out.observed
    ensures any <==> exists k :: k in keys && k !in out.observed
  {
    all, any := true, false;
    for i := 0 to |keys|
      invariant all <==> forall k :: k in keys[..i] ==> k !in out.observed
      invariant any <==> exists k :: k in keys[..i] && k !in out.observed
    {
      var passed := keys[i] !in out.observed;
      assert keys[..i + 1] == keys[..i] + [keys[i]];
      assert forall k :: k in keys[..i + 1] <==> k in keys[..i] || k == keys[i];
      all, any := all && passed, any || passed;
    }
    assert keys[..|keys|] == keys;
  }

  method CheckSupports(db: Db, n: Id) returns (clear: bool)
    ensures clear <==> forall e :: e in db.recorded ==> !Spoils(db, n, e)
  {
    var forbidden := [];
    for i := 0 to |db.recorded|
      invariant forbidden == [] <==> forall e :: e in db.recorded[..i] ==> !Spoils(db, n, e)
    {
      assert db.recorded[..i + 1] == db.recorded[..i] + [db.recorded[i]];
      if Spoils(db, n, db.recorded[i]) {
        forbidden := forbidden + [db.recorded[i].source];
      }
    }
    assert db.recorded[..|db.recorded|] == db.recorded;
    clear := forbidden == [];
  }
}
